/**
 * The image fan-out of both prediction handlers (pkg/server/handler.go and
 * cmd/server/server.go), seen after all three goroutines have joined: image
 * `i` comes from prompt `i` and lands in slot `i`; a failure appends its
 * message to a shared list in whatever order the goroutines finish.
 */
module FanOut {
  import opened Basics
  import opened GoStrings
  import opened Types
  import opened HttpModel

  const ImageCount: nat := 3

  /** The error a failed goroutine appends: "error generating image k: <cause>", k counted from 1. */
  function ImageErrorLine(index: nat, cause: string): string
    requires index < ImageCount
  {
    "error generating image " + [(('1' as int) + index) as char] + ": " + cause
  }

  /** An order in which the three goroutines finish: each index exactly once. */
  predicate IsSchedule(order: seq<nat>) {
    |order| == ImageCount && multiset(order) == multiset{0, 1, 2}
  }

  /** What goroutine `i` appends to the shared error list: its message if it failed, nothing otherwise. */
  function FailureOf(prompts: seq<string>, generate: (nat, string) -> Result<Bytes, string>, i: nat): seq<string> {
    if i < |prompts| && i < ImageCount && generate(i, prompts[i]).Err? then [ImageErrorLine(i, generate(i, prompts[i]).error)]
    else []
  }

  /** The list built by appending what each goroutine contributes, in the order they finish. */
  function Collect(order: seq<nat>, contribution: nat -> seq<string>): seq<string> {
    if order == [] then []
    else Collect(order[..|order| - 1], contribution) + contribution(order[|order| - 1])
  }

  /** The shared error list after the join. */
  function Failures(prompts: seq<string>, generate: (nat, string) -> Result<Bytes, string>, order: seq<nat>): seq<string> {
    Collect(order, (i: nat) => FailureOf(prompts, generate, i))
  }

  lemma CollectThree(order: seq<nat>, contribution: nat -> seq<string>)
    requires |order| == 3
    ensures Collect(order, contribution) == contribution(order[0]) + contribution(order[1]) + contribution(order[2])
  {
    var one, two := order[..1], order[..2];
    assert order[..|order| - 1] == two && two[..|two| - 1] == one && one[..|one| - 1] == [];
    assert Collect(one, contribution) == contribution(order[0]);
    assert Collect(two, contribution) == contribution(order[0]) + contribution(order[1]);
  }

  /** The three indices of a schedule are 0, 1 and 2, each once. */
  lemma ScheduleIsPermutation(order: seq<nat>)
    requires IsSchedule(order)
    ensures {order[0], order[1], order[2]} == {0, 1, 2}
    ensures order[0] != order[1] && order[0] != order[2] && order[1] != order[2]
  {
    assert order == [order[0], order[1], order[2]];
    assert multiset(order) == multiset{order[0], order[1], order[2]};
    assert order[0] in multiset(order) && order[1] in multiset(order) && order[2] in multiset(order);
  }

  /** Whatever order the contributions arrive in, the collected list holds the same elements. */
  lemma CollectIgnoresSchedule(order: seq<nat>, contribution: nat -> seq<string>)
    requires IsSchedule(order)
    ensures multiset(Collect(order, contribution))
         == multiset(contribution(0)) + multiset(contribution(1)) + multiset(contribution(2))
  {
    CollectThree(order, contribution);
    ScheduleIsPermutation(order);
  }

  /**
   * Whatever order the goroutines finish in, the error list holds exactly
   * one message per failed image, naming that image.
   */
  lemma FailuresIgnoreSchedule(prompts: seq<string>, generate: (nat, string) -> Result<Bytes, string>, order: seq<nat>)
    requires IsSchedule(order)
    ensures multiset(Failures(prompts, generate, order))
         == multiset(FailureOf(prompts, generate, 0)) + multiset(FailureOf(prompts, generate, 1)) + multiset(FailureOf(prompts, generate, 2))
  {
    var f := (i: nat) => FailureOf(prompts, generate, i);
    CollectIgnoresSchedule(order, f);
    assert f(0) == FailureOf(prompts, generate, 0);
    assert f(1) == FailureOf(prompts, generate, 1);
    assert f(2) == FailureOf(prompts, generate, 2);
  }

  /** The error list is empty exactly when all three images were generated. */
  lemma NoFailuresIffAllGenerated(prompts: seq<string>, generate: (nat, string) -> Result<Bytes, string>, order: seq<nat>)
    requires |prompts| == ImageCount && IsSchedule(order)
    ensures Failures(prompts, generate, order) == [] <==> forall i :: 0 <= i < ImageCount ==> generate(i, prompts[i]).Ok?
  {
    FailuresIgnoreSchedule(prompts, generate, order);
    var bag := multiset(Failures(prompts, generate, order));
    assert Failures(prompts, generate, order) == [] <==> |bag| == 0;
    assert |bag| == |FailureOf(prompts, generate, 0)| + |FailureOf(prompts, generate, 1)| + |FailureOf(prompts, generate, 2)|;
  }

  lemma FailuresSnoc(prompts: seq<string>, generate: (nat, string) -> Result<Bytes, string>, done: seq<nat>, index: nat)
    ensures Failures(prompts, generate, done + [index]) == Failures(prompts, generate, done) + FailureOf(prompts, generate, index)
  {
    assert (done + [index])[..|done|] == done;
  }

  /** The image slots after the join: slot `i` holds image `i` when it was generated, and stays empty otherwise. */
  function Slots(prompts: seq<string>, generate: (nat, string) -> Result<Bytes, string>): (slots: seq<Bytes>)
    requires |prompts| == ImageCount
    ensures |slots| == ImageCount
  {
    seq(ImageCount, i requires 0 <= i < ImageCount =>
      if generate(i, prompts[i]).Ok? then generate(i, prompts[i]).value else [])
  }

  /** What the join decides: all three images, index-aligned with the prompts, or every failure message. */
  function Joined(prompts: seq<string>, generate: (nat, string) -> Result<Bytes, string>, order: seq<nat>): Result<seq<Bytes>, seq<string>>
    requires |prompts| == ImageCount
  {
    var failures := Failures(prompts, generate, order);
    if failures == [] then Ok(Slots(prompts, generate)) else Err(failures)
  }

  /**
   * All or nothing: the join succeeds exactly when every image was
   * generated, and then image `i` is the one generated from prompt `i`;
   * otherwise it reports one message per failed image and no image.
   */
  lemma JoinIsAllOrNothing(prompts: seq<string>, generate: (nat, string) -> Result<Bytes, string>, order: seq<nat>)
    requires |prompts| == ImageCount && IsSchedule(order)
    ensures Joined(prompts, generate, order).Ok? <==> forall i :: 0 <= i < ImageCount ==> generate(i, prompts[i]).Ok?
    ensures Joined(prompts, generate, order).Ok? ==>
      |Joined(prompts, generate, order).value| == ImageCount
      && forall i :: 0 <= i < ImageCount ==> Ok(Joined(prompts, generate, order).value[i]) == generate(i, prompts[i])
    ensures Joined(prompts, generate, order).Err? ==>
      multiset(Joined(prompts, generate, order).error)
        == multiset(FailureOf(prompts, generate, 0)) + multiset(FailureOf(prompts, generate, 1)) + multiset(FailureOf(prompts, generate, 2))
  {
    NoFailuresIffAllGenerated(prompts, generate, order);
    FailuresIgnoreSchedule(prompts, generate, order);
  }

  /** The slots once the goroutines in `done` have finished: theirs filled as at the join, the others still empty. */
  function Filled(prompts: seq<string>, generate: (nat, string) -> Result<Bytes, string>, done: seq<nat>): (slots: seq<Bytes>)
    requires |prompts| == ImageCount
    ensures |slots| == ImageCount
  {
    seq(ImageCount, i requires 0 <= i < ImageCount => if i in done then Slots(prompts, generate)[i] else [])
  }

  /** One more finished goroutine fills its own slot; a failed one leaves every slot as it was. */
  lemma FilledSnoc(prompts: seq<string>, generate: (nat, string) -> Result<Bytes, string>, done: seq<nat>, index: nat)
    requires |prompts| == ImageCount && index < ImageCount
    ensures generate(index, prompts[index]).Ok? ==>
      Filled(prompts, generate, done + [index]) == Filled(prompts, generate, done)[index := generate(index, prompts[index]).value]
    ensures generate(index, prompts[index]).Err? ==>
      Filled(prompts, generate, done + [index]) == Filled(prompts, generate, done)
  {
    var before, after := Filled(prompts, generate, done), Filled(prompts, generate, done + [index]);
    assert forall i :: 0 <= i < ImageCount ==> (i in done + [index] <==> i in done || i == index);
    if generate(index, prompts[index]).Ok? {
      assert forall i :: 0 <= i < ImageCount ==> after[i] == before[index := generate(index, prompts[index]).value][i];
    } else {
      assert forall i :: 0 <= i < ImageCount ==> after[i] == before[i];
    }
  }

  /** Once every goroutine of a schedule has finished, the slots are those at the join. */
  lemma FilledBySchedule(prompts: seq<string>, generate: (nat, string) -> Result<Bytes, string>, order: seq<nat>)
    requires |prompts| == ImageCount && IsSchedule(order)
    ensures Filled(prompts, generate, order) == Slots(prompts, generate)
  {
    ScheduleIsPermutation(order);
    var filled := Filled(prompts, generate, order);
    assert forall i :: 0 <= i < ImageCount ==> i in order;
    assert forall i :: 0 <= i < ImageCount ==> filled[i] == Slots(prompts, generate)[i];
  }

  /**
   * The three goroutines as they run to the join, one after another in the
   * order they finish: a success fills its own slot, a failure appends its message.
   */
  method GenerateImages(prompts: seq<string>, generate: (nat, string) -> Result<Bytes, string>, order: seq<nat>)
    returns (images: seq<Bytes>, imageErrors: seq<string>)
    requires |prompts| == ImageCount && IsSchedule(order)
    ensures images == Slots(prompts, generate)
    ensures imageErrors == Failures(prompts, generate, order)
  {
    var slots := new Bytes[ImageCount](_ => []);
    imageErrors := [];
    assert slots[..] == Filled(prompts, generate, []);
    for k := 0 to ImageCount
      invariant imageErrors == Failures(prompts, generate, order[..k])
      invariant slots[..] == Filled(prompts, generate, order[..k])
    {
      assert order[..k + 1] == order[..k] + [order[k]];
      FailuresSnoc(prompts, generate, order[..k], order[k]);
      ScheduleIsPermutation(order);
      var index := order[k];
      FilledSnoc(prompts, generate, order[..k], index);
      var outcome := generate(index, prompts[index]);
      if outcome.Err? {
        imageErrors := imageErrors + [ImageErrorLine(index, outcome.error)];
      } else {
        slots[index] := outcome.value;
      }
    }
    assert order[..ImageCount] == order;
    FilledBySchedule(prompts, generate, order);
    images := slots[..];
  }

  /**
   * The reply once the images are in: 200 with the prediction's text, the
   * images and the prompts, or a 500 listing every failure.
   */
  function AfterJoin(headers: Headers, prediction: Prediction, generate: (nat, string) -> Result<Bytes, string>, order: seq<nat>): (r: Reply)
    requires |prediction.imagePrompts| == ImageCount
    ensures KeepsOtherHeaders(headers, r.headers)
  {
    match Joined(prediction.imagePrompts, generate, order)
    case Err(failures) =>
      Error(headers, "Error generating images: " + Join(failures, "; "), StatusInternalServerError)
    case Ok(images) =>
      Reply(StatusOK, headers, JsonPrediction(PredictionResponse(prediction.text, images, prediction.imagePrompts)))
  }

  /**
   * The POST branch both prediction handlers share: decode the body, ask for
   * the prediction, draw its images. Whatever happens, only the content
   * headers of the headers it is given change.
   */
  function PostReply(
    headers: Headers, body: RequestBody, predict: Profile -> Result<Prediction, string>,
    generate: (nat, string) -> Result<Bytes, string>, order: seq<nat>): (r: Reply)
    requires forall profile :: predict(profile).Ok? ==> |predict(profile).value.imagePrompts| == ImageCount
    ensures KeepsOtherHeaders(headers, r.headers)
  {
    match body
    case Unreadable(_) => Error(headers, "Error reading request body", StatusBadRequest)
    case Malformed(_) => Error(headers, "Invalid JSON in request body", StatusBadRequest)
    case Parsed(profile) =>
      match predict(profile)
      case Err(e) => Error(headers, "Error getting prediction: " + e, StatusInternalServerError)
      case Ok(prediction) => AfterJoin(headers, prediction, generate, order)
  }

  /**
   * The reply is all or nothing: 200 with the text, every image in the slot
   * of the prompt it was made from, and those prompts, exactly when all
   * three images were generated; otherwise 500 with the failures joined by
   * "; " and no image.
   */
  lemma ReplyIsAllOrNothing(headers: Headers, prediction: Prediction, generate: (nat, string) -> Result<Bytes, string>, order: seq<nat>)
    requires |prediction.imagePrompts| == ImageCount && IsSchedule(order)
    ensures var reply := AfterJoin(headers, prediction, generate, order);
            && (reply.status == StatusOK <==> forall i :: 0 <= i < ImageCount ==> generate(i, prediction.imagePrompts[i]).Ok?)
            && (reply.status == StatusOK ==>
                 reply.body.JsonPrediction?
                 && reply.body.prediction.text == prediction.text
                 && reply.body.prediction.prompts == prediction.imagePrompts
                 && |reply.body.prediction.images| == ImageCount
                 && forall i :: 0 <= i < ImageCount ==>
                      generate(i, prediction.imagePrompts[i]) == Ok(reply.body.prediction.images[i]))
            && (reply.status != StatusOK ==>
                 reply.status == StatusInternalServerError
                 && reply.body == PlainText("Error generating images: "
                      + Join(Failures(prediction.imagePrompts, generate, order), "; ") + "\n"))
  {
    JoinIsAllOrNothing(prediction.imagePrompts, generate, order);
  }

  /** The fan-out and the reply after the join, as both handlers write them. */
  method RespondWithImages(headers: Headers, prediction: Prediction, generate: (nat, string) -> Result<Bytes, string>, order: seq<nat>)
    returns (reply: Reply)
    requires |prediction.imagePrompts| == ImageCount && IsSchedule(order)
    ensures reply == AfterJoin(headers, prediction, generate, order)
  {
    var images, imageErrors := GenerateImages(prediction.imagePrompts, generate, order);
    if |imageErrors| > 0 {
      return Error(headers, "Error generating images: " + Join(imageErrors, "; "), StatusInternalServerError);
    }
    reply := Reply(StatusOK, headers, JsonPrediction(PredictionResponse(prediction.text, images, prediction.imagePrompts)));
  }
}
