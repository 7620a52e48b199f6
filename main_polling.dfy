/**
 * Waiting for a generation task in the bot (`checkGenerationStatus` and
 * `generateKandinskyImage` in main.go): up to ten status requests, each after
 * a sleep that starts at two seconds and grows by half after every request.
 * A transport error only uses up the attempt; every other error ends the wait.
 */
module MainPolling {
  import opened Basics
  import opened Types

  /** What one status request yields: the request could not be built, the round trip failed, the body did not decode, or a record. */
  datatype PollOutcome =
    | RequestNotBuilt(cause: string)
    | TransportFailed(cause: string)
    | Undecodable(cause: string)
    | Polled(response: StatusResponse)

  /** Why waiting for a task failed. */
  datatype StatusError =
    | RequestError(cause: string)
    | DecodeError(cause: string)
    | ApiError(description: string)
    | CensoredError(censored: bool)
    | AttemptsExhausted
  {
    function Message(): string {
      match this
      case RequestError(cause) => "ошибка создания запроса: " + cause
      case DecodeError(cause) => "ошибка декодирования статуса: " + cause
      case ApiError(description) => "ошибка API: " + description
      case CensoredError(censored) => "цензура: " + (if censored then "true" else "false")
      case AttemptsExhausted => "максимальное количество попыток (10) достигнуто"
    }
  }

  const MaxAttempts: nat := 10
  /** Two seconds, in nanoseconds as Go's time.Duration counts them. */
  const InitialBackoff: nat := 2_000_000_000

  /** time.Duration(float64(backoff) * 1.5): the product is exact in float64 here and truncated toward zero. */
  function NextBackoff(backoff: nat): nat {
    backoff * 3 / 2
  }

  /** The sleep before poll number `k + 1`. */
  function Backoff(k: nat): nat {
    if k == 0 then InitialBackoff else NextBackoff(Backoff(k - 1))
  }

  function Pow(base: nat, e: nat): nat {
    if e == 0 then 1 else base * Pow(base, e - 1)
  }

  /** The outcome ends the wait: anything but a transport error or a status other than DONE, FAILED and CENSORED. */
  predicate Ends(outcome: PollOutcome) {
    match outcome
    case TransportFailed(_) => false
    case Polled(response) =>
      response.status == StatusDone || response.status == StatusFailed || response.status == StatusCensored
    case _ => true
  }

  /** What an ending outcome decides. */
  function Decide(outcome: PollOutcome): Result<seq<string>, StatusError>
    requires Ends(outcome)
  {
    match outcome
    case RequestNotBuilt(cause) => Err(RequestError(cause))
    case Undecodable(cause) => Err(DecodeError(cause))
    case Polled(response) =>
      if response.status == StatusDone then Ok(response.images)
      else if response.status == StatusFailed then Err(ApiError(response.errorDescription))
      else Err(CensoredError(response.censored))
  }

  /** The result of waiting from attempt `attempt` on, when attempt `a` for task `uuid` yields `poll(uuid, a)`. */
  function CheckFrom(uuid: string, poll: (string, nat) -> PollOutcome, attempt: nat): Result<seq<string>, StatusError>
    requires 1 <= attempt <= MaxAttempts + 1
    decreases MaxAttempts + 1 - attempt
  {
    if attempt > MaxAttempts then Err(AttemptsExhausted)
    else if Ends(poll(uuid, attempt)) then Decide(poll(uuid, attempt))
    else CheckFrom(uuid, poll, attempt + 1)
  }

  /** How many status requests are made from attempt `attempt` on. */
  function PollsFrom(uuid: string, poll: (string, nat) -> PollOutcome, attempt: nat): nat
    requires 1 <= attempt <= MaxAttempts + 1
    decreases MaxAttempts + 1 - attempt
  {
    if attempt > MaxAttempts then 0
    else if Ends(poll(uuid, attempt)) then 1
    else 1 + PollsFrom(uuid, poll, attempt + 1)
  }

  /** The delays slept before the first `n` polls. */
  function Delays(n: nat): (delays: seq<nat>)
    ensures |delays| == n
  {
    seq(n, i requires 0 <= i < n => Backoff(i))
  }

  /** One more poll adds the current backoff at the end of the delays. */
  lemma DelaysSnoc(n: nat)
    ensures Delays(n + 1) == Delays(n) + [Backoff(n)]
  {
    assert forall i :: 0 <= i < n ==> Delays(n + 1)[i] == Delays(n)[i];
  }

  /** There are at most ten polls and at least one. */
  lemma {:induction false} PollsBounded(uuid: string, poll: (string, nat) -> PollOutcome, attempt: nat)
    requires 1 <= attempt <= MaxAttempts
    ensures 1 <= PollsFrom(uuid, poll, attempt) <= MaxAttempts + 1 - attempt
    decreases MaxAttempts + 1 - attempt
  {
    if attempt < MaxAttempts && !Ends(poll(uuid, attempt)) {
      PollsBounded(uuid, poll, attempt + 1);
    }
  }

  /**
   * The wait is decided by the first ending outcome: if attempt `k` is the
   * first of the ten to end, the result is what it decides and exactly `k`
   * polls are made.
   */
  lemma {:induction false} FirstEndingOutcomeDecides(uuid: string, poll: (string, nat) -> PollOutcome, attempt: nat, k: nat)
    requires 1 <= attempt <= k <= MaxAttempts
    requires Ends(poll(uuid, k))
    requires forall a :: attempt <= a < k ==> !Ends(poll(uuid, a))
    ensures CheckFrom(uuid, poll, attempt) == Decide(poll(uuid, k))
    ensures PollsFrom(uuid, poll, attempt) == k - attempt + 1
    decreases k - attempt
  {
    if attempt < k {
      FirstEndingOutcomeDecides(uuid, poll, attempt + 1, k);
    }
  }

  /** Ten polls that each end in a transport error or an unrecognised status give the max-attempts error, and nothing else does. */
  lemma {:induction false} ExhaustedIffNoneEnds(uuid: string, poll: (string, nat) -> PollOutcome, attempt: nat)
    requires 1 <= attempt <= MaxAttempts + 1
    ensures CheckFrom(uuid, poll, attempt) == Err(AttemptsExhausted)
        <==> forall a :: attempt <= a <= MaxAttempts ==> !Ends(poll(uuid, a))
    ensures CheckFrom(uuid, poll, attempt) == Err(AttemptsExhausted) ==> PollsFrom(uuid, poll, attempt) == MaxAttempts + 1 - attempt
    decreases MaxAttempts + 1 - attempt
  {
    if attempt <= MaxAttempts {
      ExhaustedIffNoneEnds(uuid, poll, attempt + 1);
    }
  }

  /** Closed form of the delay before poll k + 1: 1953125 * 2^(10-k) * 3^k nanoseconds, so no truncation happens in ten steps. */
  lemma {:induction false} BackoffClosedForm(k: nat)
    requires k <= MaxAttempts
    ensures Backoff(k) == 1953125 * Pow(2, MaxAttempts - k) * Pow(3, k)
  {
    if k > 0 {
      BackoffClosedForm(k - 1);
      var a, b := Pow(2, MaxAttempts - k), Pow(3, k - 1);
      assert Pow(2, MaxAttempts - (k - 1)) == 2 * a;
      var q := 1953125 * a;
      MulRearrange(1953125, 2, a);
      MulAssoc(2, q, b);
      assert Backoff(k - 1) == 2 * (q * b);
      MulRearrange(q, 3, b);
    }
  }

  lemma MulSwap(x: int, y: int, z: int)
    ensures (x * y) * z == (x * z) * y
  {
  }

  lemma MulAssoc(x: int, y: int, z: int)
    ensures (x * y) * z == x * (y * z)
  {
  }

  lemma MulRearrange(x: int, c: int, y: int)
    ensures x * (c * y) == c * (x * y)
  {
  }

  lemma {:induction false} PowAdd(base: nat, a: nat, b: nat)
    ensures Pow(base, a) * Pow(base, b) == Pow(base, a + b)
    decreases a
  {
    if a > 0 {
      PowAdd(base, a - 1, b);
      assert Pow(base, a) * Pow(base, b) == base * (Pow(base, a - 1) * Pow(base, b));
    }
  }

  /** The delay before poll k + 1 is exactly 2 s * 1.5^k: multiplying by 2^k gives 2 s * 3^k, with no rounding. */
  lemma BackoffExact(k: nat)
    requires k <= MaxAttempts
    ensures Backoff(k) * Pow(2, k) == InitialBackoff * Pow(3, k)
  {
    BackoffClosedForm(k);
    PowAdd(2, MaxAttempts - k, k);
    assert Pow(2, MaxAttempts) == 1024;
    var a, b, c := Pow(2, MaxAttempts - k), Pow(3, k), Pow(2, k);
    assert a * c == 1024;
    var p := 1953125 * a;
    assert Backoff(k) == p * b;
    MulSwap(p, b, c);
    MulAssoc(1953125, a, c);
    assert p * c == InitialBackoff;
  }

  /** The ten delays in nanoseconds, 226.66 s in total if every attempt is used. */
  lemma BackoffSchedule()
    ensures Delays(MaxAttempts) == [2_000_000_000, 3_000_000_000, 4_500_000_000, 6_750_000_000, 10_125_000_000,
                                    15_187_500_000, 22_781_250_000, 34_171_875_000, 51_257_812_500, 76_886_718_750]
  {
    assert Backoff(1) == 3_000_000_000;
    assert Backoff(2) == 4_500_000_000;
    assert Backoff(3) == 6_750_000_000;
    assert Backoff(4) == 10_125_000_000;
    assert Backoff(5) == 15_187_500_000;
    assert Backoff(6) == 22_781_250_000;
    assert Backoff(7) == 34_171_875_000;
    assert Backoff(8) == 51_257_812_500;
    assert Backoff(9) == 76_886_718_750;
  }

  /** checkGenerationStatus: sleep, grow the backoff, poll, and act on the outcome, at most ten times. */
  method CheckGenerationStatus(uuid: string, poll: (string, nat) -> PollOutcome) returns (r: Result<seq<string>, StatusError>, delays: seq<nat>)
    ensures r == CheckFrom(uuid, poll, 1)
    ensures delays == Delays(PollsFrom(uuid, poll, 1))
  {
    var backoff := InitialBackoff;
    delays := [];
    var attempt := 1;
    while attempt <= MaxAttempts
      invariant 1 <= attempt <= MaxAttempts + 1
      invariant backoff == Backoff(attempt - 1)
      invariant delays == Delays(attempt - 1)
      invariant CheckFrom(uuid, poll, attempt) == CheckFrom(uuid, poll, 1)
      invariant PollsFrom(uuid, poll, 1) == attempt - 1 + PollsFrom(uuid, poll, attempt)
    {
      DelaysSnoc(attempt - 1);
      delays := delays + [backoff];
      backoff := NextBackoff(backoff);
      var outcome := poll(uuid, attempt);
      match outcome {
        case RequestNotBuilt(cause) =>
          return Err(RequestError(cause)), delays;
        case TransportFailed(_) =>
        case Undecodable(cause) =>
          return Err(DecodeError(cause)), delays;
        case Polled(response) =>
          if response.status == StatusDone {
            return Ok(response.images), delays;
          } else if response.status == StatusFailed {
            return Err(ApiError(response.errorDescription)), delays;
          } else if response.status == StatusCensored {
            return Err(CensoredError(response.censored)), delays;
          }
      }
      attempt := attempt + 1;
    }
    r := Err(AttemptsExhausted);
  }

  /** What the bot's image generation ends in, as the code is written: a result, or an index out of range. */
  datatype AsWritten = Returned(result: Result<Bytes, string>) | IndexOutOfRange

  /**
   * generateKandinskyImage as written: task creation, the wait, then the
   * base64 decoding of `images[0]` without checking that there is one.
   */
  function GenerateKandinskyImageAsWritten(
    created: Result<string, string>,
    poll: (string, nat) -> PollOutcome,
    decode: string -> Result<Bytes, string>): AsWritten
  {
    match created
    case Err(e) => Returned(Err("ошибка создания задачи: " + e))
    case Ok(uuid) =>
      match CheckFrom(uuid, poll, 1)
      case Err(e) => Returned(Err("ошибка проверки статуса: " + e.Message()))
      case Ok(images) =>
        if |images| == 0 then IndexOutOfRange
        else
          match decode(images[0])
          case Err(e) => Returned(Err("ошибка декодирования base64: " + e))
          case Ok(bytes) => Returned(Ok(bytes))
  }

  /** A DONE answer with an empty image list on the first poll makes the code index past the end. */
  lemma EmptyDoneIndexesPastEnd(uuid: string, decode: string -> Result<Bytes, string>)
    ensures var poll := (u: string, a: nat) => Polled(StatusResponse(u, StatusDone, [], "", false));
      GenerateKandinskyImageAsWritten(Ok(uuid), poll, decode) == IndexOutOfRange
  {
    var poll := (u: string, a: nat) => Polled(StatusResponse(u, StatusDone, [], "", false));
    FirstEndingOutcomeDecides(uuid, poll, 1, 1);
  }

  /** The message for a finished task without an image, as the library version of the wait reports it. */
  const NoImageMessage := "изображение не сгенерировано"

  /** generateKandinskyImage with the missing length check added. */
  function GenerateKandinskyImage(
    created: Result<string, string>,
    poll: (string, nat) -> PollOutcome,
    decode: string -> Result<Bytes, string>): Result<Bytes, string>
  {
    match created
    case Err(e) => Err("ошибка создания задачи: " + e)
    case Ok(uuid) =>
      match CheckFrom(uuid, poll, 1)
      case Err(e) => Err("ошибка проверки статуса: " + e.Message())
      case Ok(images) =>
        if |images| == 0 then Err(NoImageMessage)
        else
          match decode(images[0])
          case Err(e) => Err("ошибка декодирования base64: " + e)
          case Ok(bytes) => Ok(bytes)
  }

  /**
   * The corrected image generation differs from the code as written only
   * where the code indexes past the end, and there it fails with a message;
   * an image it returns is the decoding of the first image of a DONE answer.
   */
  lemma CorrectedImageAgreesWithCode(created: Result<string, string>, poll: (string, nat) -> PollOutcome, decode: string -> Result<Bytes, string>)
    ensures GenerateKandinskyImageAsWritten(created, poll, decode) != IndexOutOfRange ==>
      GenerateKandinskyImageAsWritten(created, poll, decode) == Returned(GenerateKandinskyImage(created, poll, decode))
    ensures GenerateKandinskyImageAsWritten(created, poll, decode) == IndexOutOfRange <==>
      created.Ok? && CheckFrom(created.value, poll, 1) == Ok([])
    ensures GenerateKandinskyImageAsWritten(created, poll, decode) == IndexOutOfRange ==>
      GenerateKandinskyImage(created, poll, decode) == Err(NoImageMessage)
    ensures GenerateKandinskyImage(created, poll, decode).Ok? ==>
      created.Ok? && CheckFrom(created.value, poll, 1).Ok?
      && |CheckFrom(created.value, poll, 1).value| > 0
      && decode(CheckFrom(created.value, poll, 1).value[0]) == Ok(GenerateKandinskyImage(created, poll, decode).value)
  {
  }
}
