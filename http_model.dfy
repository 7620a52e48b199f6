/**
 * The slice of Go's net/http that the handlers use: a response as a status,
 * a header map and a body, `http.Error`, and a request body that is read and
 * decoded into a client profile, or fails to.
 */
module HttpModel {
  import opened Types

  type Headers = map<string, string>

  /** What a handler writes after the headers. */
  datatype Body =
    | NoBody
    | PlainText(text: string)
    | JsonObject(fields: map<string, string>)
    | JsonPrediction(prediction: PredictionResponse)

  datatype Reply = Reply(status: nat, headers: Headers, body: Body)

  const StatusOK: nat := 200
  const StatusBadRequest: nat := 400
  const StatusForbidden: nat := 403
  const StatusMethodNotAllowed: nat := 405
  const StatusInternalServerError: nat := 500

  const ContentType := "Content-Type"
  const JsonContentType := "application/json"

  /** `after` agrees with `before` on every header except the two that describe the content. */
  ghost predicate KeepsOtherHeaders(before: Headers, after: Headers) {
    forall k :: k != ContentType && k != "X-Content-Type-Options" ==>
      (k in after <==> k in before) && (k in before ==> after[k] == before[k])
  }

  lemma KeepsOtherHeadersTransitive(a: Headers, b: Headers, c: Headers)
    requires KeepsOtherHeaders(a, b) && KeepsOtherHeaders(b, c)
    ensures KeepsOtherHeaders(a, c)
  {
  }

  /** http.Error: a plain-text body of the message and a newline, marked as not to be sniffed. */
  function Error(headers: Headers, message: string, status: nat): (r: Reply)
    ensures r.status == status && r.body == PlainText(message + "\n")
    ensures r.headers.Keys == headers.Keys + {ContentType, "X-Content-Type-Options"}
    ensures r.headers[ContentType] == "text/plain; charset=utf-8" && r.headers["X-Content-Type-Options"] == "nosniff"
    ensures KeepsOtherHeaders(headers, r.headers)
  {
    Reply(status, headers[ContentType := "text/plain; charset=utf-8"]["X-Content-Type-Options" := "nosniff"], PlainText(message + "\n"))
  }

  /** What a client sends about itself; the fields the handlers read. */
  datatype Profile = Profile(
    name: string,
    birthDate: string,
    question: string,
    mode: string,
    partnerName: string,
    partnerBirth: string)

  /** The request body: it could not be read, it is not a profile in JSON, or it decodes to a profile. */
  datatype RequestBody = Unreadable(cause: string) | Malformed(cause: string) | Parsed(profile: Profile)
}
