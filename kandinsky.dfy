/**
 * The library's image generation (pkg/common/kandinsky.go): the decisions
 * of `createGenerationTask` over an already-decoded reply, and the bounded
 * wait of `GenerateKandinskyImage`, where any failed status check ends the
 * wait at once and only DONE and FAILED are terminal.
 */
module Kandinsky {
  import opened Basics
  import opened Types

  /** The three settings read from the environment. */
  datatype Config = Config(apiKey: string, secret: string, url: string)
  {
    predicate Complete() {
      apiKey != "" && secret != "" && url != ""
    }
  }

  /** What submitting a generation task yields: no request, no reply, an undecodable body, or a decoded record with the HTTP status it came with. */
  datatype SubmitReply =
    | RequestNotBuilt(cause: string)
    | SendFailed(cause: string)
    | Undecodable(cause: string)
    | Decoded(httpStatus: nat, response: StatusResponse)

  /** Why a task could not be created. */
  datatype TaskError =
    | MissingConfig
    | RequestError(cause: string)
    | SendError(cause: string)
    | DecodeError(cause: string)
    | ApiError(description: string)
  {
    function Message(): string {
      match this
      case MissingConfig => "не установлены переменные окружения для Kandinsky API"
      case RequestError(cause) => "ошибка создания запроса: " + cause
      case SendError(cause) => "ошибка отправки запроса: " + cause
      case DecodeError(cause) => "ошибка декодирования ответа: " + cause
      case ApiError(description) => "ошибка API: " + description
    }
  }

  /** The parameters of every task: one 1024 by 1024 image for the prompt. */
  function TaskRequest(prompt: string): (request: GenerateRequest)
    ensures request.query == prompt && request.numImages == 1
  {
    GenerateRequest("GENERATE", 1, 1024, 1024, prompt)
  }

  /**
   * createGenerationTask: with a complete configuration the request is
   * submitted; the task's uuid is returned unless the reply is missing,
   * undecodable or carries an error description. The HTTP status is not looked at.
   */
  function CreateGenerationTask(config: Config, prompt: string, submit: GenerateRequest -> SubmitReply): (r: Result<string, TaskError>)
    ensures !config.Complete() ==> r == Err(MissingConfig)
    ensures r.Ok? <==> config.Complete() && submit(TaskRequest(prompt)).Decoded?
                       && submit(TaskRequest(prompt)).response.errorDescription == ""
    ensures r.Ok? ==> r.value == submit(TaskRequest(prompt)).response.uuid
    ensures config.Complete() && submit(TaskRequest(prompt)).Decoded? && r.Err? ==>
      r == Err(ApiError(submit(TaskRequest(prompt)).response.errorDescription))
  {
    if !config.Complete() then Err(MissingConfig)
    else
      match submit(TaskRequest(prompt))
      case RequestNotBuilt(cause) => Err(RequestError(cause))
      case SendFailed(cause) => Err(SendError(cause))
      case Undecodable(cause) => Err(DecodeError(cause))
      case Decoded(_, response) =>
        if response.errorDescription != "" then Err(ApiError(response.errorDescription))
        else Ok(response.uuid)
  }

  /** A task is created from any decoded reply without an error description, whatever its HTTP status, even with an empty uuid. */
  lemma CreationIgnoresHttpStatus(config: Config, prompt: string, status1: nat, status2: nat, response: StatusResponse)
    requires config.Complete() && response.errorDescription == ""
    ensures var submit1 := (_: GenerateRequest) => Decoded(status1, response);
            var submit2 := (_: GenerateRequest) => Decoded(status2, response);
            CreateGenerationTask(config, prompt, submit1) == CreateGenerationTask(config, prompt, submit2) == Ok(response.uuid)
  {
    var submit1 := (_: GenerateRequest) => Decoded(status1, response);
    assert submit1(TaskRequest(prompt)).Decoded?;
    var submit2 := (_: GenerateRequest) => Decoded(status2, response);
    assert submit2(TaskRequest(prompt)).Decoded?;
  }

  /** What one status check yields: an error, or a status record. */
  datatype StatusCheck = CheckFailed(cause: string) | Checked(response: StatusResponse)

  /** Why image generation failed. */
  datatype ImageError =
    | TaskFailed(task: TaskError)
    | StatusCheckFailed(cause: string)
    | NoImage
    | ImageDecodeFailed(cause: string)
    | GenerationFailed(description: string)
    | Timeout
  {
    function Message(): string {
      match this
      case TaskFailed(task) => "ошибка создания задачи: " + task.Message()
      case StatusCheckFailed(cause) => "ошибка проверки статуса: " + cause
      case NoImage => "изображение не сгенерировано"
      case ImageDecodeFailed(cause) => "ошибка декодирования изображения: " + cause
      case GenerationFailed(description) => "генерация не удалась: " + description
      case Timeout => "превышено время ожидания генерации"
    }
  }

  const MaxPolls: nat := 30
  /** Ten seconds, in nanoseconds. */
  const PollDelay: nat := 10_000_000_000

  /** A check ends the wait: it failed, or the status is DONE or FAILED. CENSORED and any other status do not. */
  predicate Terminal(check: StatusCheck) {
    check.CheckFailed? || check.response.status == StatusDone || check.response.status == StatusFailed
  }

  /** What a terminal check decides; a DONE status gives the decoding of its first image. */
  function Settle(check: StatusCheck, decode: string -> Result<Bytes, string>): (r: Result<Bytes, ImageError>)
    requires Terminal(check)
    ensures r.Ok? <==> check.Checked? && check.response.status == StatusDone
                       && |check.response.images| > 0 && decode(check.response.images[0]).Ok?
    ensures r.Ok? ==> decode(check.response.images[0]) == Ok(r.value)
    ensures check.Checked? && check.response.status == StatusDone && check.response.images == [] ==> r == Err(NoImage)
    ensures check.Checked? && check.response.status != StatusDone ==>
      r == Err(GenerationFailed(check.response.errorDescription))
  {
    match check
    case CheckFailed(cause) => Err(StatusCheckFailed(cause))
    case Checked(response) =>
      if response.status == StatusDone then
        if |response.images| == 0 then Err(NoImage)
        else
          match decode(response.images[0])
          case Err(cause) => Err(ImageDecodeFailed(cause))
          case Ok(bytes) => Ok(bytes)
      else Err(GenerationFailed(response.errorDescription))
  }

  /** The result of waiting from poll `i` (counted from 0) on, when poll `i` of task `uuid` yields `check(uuid, i)`. */
  function WaitFrom(uuid: string, check: (string, nat) -> StatusCheck, decode: string -> Result<Bytes, string>, i: nat): Result<Bytes, ImageError>
    requires i <= MaxPolls
    decreases MaxPolls - i
  {
    if i == MaxPolls then Err(Timeout)
    else if Terminal(check(uuid, i)) then Settle(check(uuid, i), decode)
    else WaitFrom(uuid, check, decode, i + 1)
  }

  /** How many status checks are made from poll `i` on. */
  function PollsFrom(uuid: string, check: (string, nat) -> StatusCheck, i: nat): nat
    requires i <= MaxPolls
    decreases MaxPolls - i
  {
    if i == MaxPolls then 0
    else if Terminal(check(uuid, i)) then 1
    else 1 + PollsFrom(uuid, check, i + 1)
  }

  /** How many ten-second sleeps follow from poll `i` on: one after every non-terminal check. */
  function SleepsFrom(uuid: string, check: (string, nat) -> StatusCheck, i: nat): nat
    requires i <= MaxPolls
    decreases MaxPolls - i
  {
    if i == MaxPolls || Terminal(check(uuid, i)) then 0
    else 1 + SleepsFrom(uuid, check, i + 1)
  }

  /** The whole generation: create the task, then wait for it. */
  function ImageFor(
    config: Config, prompt: string, submit: GenerateRequest -> SubmitReply,
    check: (string, nat) -> StatusCheck, decode: string -> Result<Bytes, string>): Result<Bytes, ImageError>
  {
    match CreateGenerationTask(config, prompt, submit)
    case Err(e) => Err(TaskFailed(e))
    case Ok(uuid) => WaitFrom(uuid, check, decode, 0)
  }

  /** How many status checks the whole generation makes. */
  function PollCount(config: Config, prompt: string, submit: GenerateRequest -> SubmitReply, check: (string, nat) -> StatusCheck): nat {
    match CreateGenerationTask(config, prompt, submit)
    case Err(_) => 0
    case Ok(uuid) => PollsFrom(uuid, check, 0)
  }

  /** How many sleeps the whole generation makes. */
  function SleepCount(config: Config, prompt: string, submit: GenerateRequest -> SubmitReply, check: (string, nat) -> StatusCheck): nat {
    match CreateGenerationTask(config, prompt, submit)
    case Err(_) => 0
    case Ok(uuid) => SleepsFrom(uuid, check, 0)
  }

  /** At most thirty checks; one sleep per check, except after a terminal one. */
  lemma {:induction false} PollsAndSleeps(uuid: string, check: (string, nat) -> StatusCheck, decode: string -> Result<Bytes, string>, i: nat)
    requires i <= MaxPolls
    ensures PollsFrom(uuid, check, i) <= MaxPolls - i
    ensures WaitFrom(uuid, check, decode, i) == Err(Timeout) ==> SleepsFrom(uuid, check, i) == PollsFrom(uuid, check, i)
    ensures WaitFrom(uuid, check, decode, i) != Err(Timeout) ==> SleepsFrom(uuid, check, i) + 1 == PollsFrom(uuid, check, i)
    decreases MaxPolls - i
  {
    if i < MaxPolls && !Terminal(check(uuid, i)) {
      PollsAndSleeps(uuid, check, decode, i + 1);
    }
  }

  /** The first terminal check decides: if check `k` is the first terminal one, the result is what it settles, after k + 1 checks and k sleeps. */
  lemma {:induction false} FirstTerminalDecides(uuid: string, check: (string, nat) -> StatusCheck, decode: string -> Result<Bytes, string>, i: nat, k: nat)
    requires i <= k < MaxPolls
    requires Terminal(check(uuid, k))
    requires forall j :: i <= j < k ==> !Terminal(check(uuid, j))
    ensures WaitFrom(uuid, check, decode, i) == Settle(check(uuid, k), decode)
    ensures PollsFrom(uuid, check, i) == k - i + 1
    ensures SleepsFrom(uuid, check, i) == k - i
    decreases k - i
  {
    if i < k {
      FirstTerminalDecides(uuid, check, decode, i + 1, k);
    }
  }

  /** The wait times out exactly when none of the thirty checks is terminal, and then it has made thirty checks and thirty sleeps. */
  lemma {:induction false} TimeoutIffNoTerminal(uuid: string, check: (string, nat) -> StatusCheck, decode: string -> Result<Bytes, string>, i: nat)
    requires i <= MaxPolls
    ensures WaitFrom(uuid, check, decode, i) == Err(Timeout) <==> forall j :: i <= j < MaxPolls ==> !Terminal(check(uuid, j))
    ensures WaitFrom(uuid, check, decode, i) == Err(Timeout) ==>
      PollsFrom(uuid, check, i) == SleepsFrom(uuid, check, i) == MaxPolls - i
    decreases MaxPolls - i
  {
    if i < MaxPolls {
      TimeoutIffNoTerminal(uuid, check, decode, i + 1);
      if Terminal(check(uuid, i)) {
        assert Settle(check(uuid, i), decode) != Err(Timeout);
      }
    }
  }

  /** A task reported CENSORED on every check is waited for until the timeout. */
  lemma AlwaysCensoredTimesOut(uuid: string, decode: string -> Result<Bytes, string>, censored: bool)
    ensures var check := (u: string, j: nat) => Checked(StatusResponse(u, StatusCensored, [], "", censored));
      WaitFrom(uuid, check, decode, 0) == Err(Timeout) && PollsFrom(uuid, check, 0) == MaxPolls
  {
    var check := (u: string, j: nat) => Checked(StatusResponse(u, StatusCensored, [], "", censored));
    TimeoutIffNoTerminal(uuid, check, decode, 0);
  }

  /** A successful generation returns the decoding of the first image of a DONE status, the first terminal check. */
  lemma {:induction false} SuccessIsFirstImageOfDone(uuid: string, check: (string, nat) -> StatusCheck, decode: string -> Result<Bytes, string>, i: nat)
    requires i <= MaxPolls
    requires WaitFrom(uuid, check, decode, i).Ok?
    ensures exists k :: (i <= k < MaxPolls && check(uuid, k).Checked? && check(uuid, k).response.status == StatusDone
                         && |check(uuid, k).response.images| > 0
                         && decode(check(uuid, k).response.images[0]) == Ok(WaitFrom(uuid, check, decode, i).value))
    decreases MaxPolls - i
  {
    if !Terminal(check(uuid, i)) {
      SuccessIsFirstImageOfDone(uuid, check, decode, i + 1);
    }
  }

  /** An incomplete configuration fails before any request or status check. */
  lemma MissingConfigChecksNothing(config: Config, prompt: string, submit: GenerateRequest -> SubmitReply,
                                  check: (string, nat) -> StatusCheck, decode: string -> Result<Bytes, string>)
    requires !config.Complete()
    ensures ImageFor(config, prompt, submit, check, decode) == Err(TaskFailed(MissingConfig))
    ensures PollCount(config, prompt, submit, check) == 0
  {
  }

  /** GenerateKandinskyImage: create the task, then check its status up to thirty times, sleeping ten seconds after every non-terminal status. */
  method GenerateKandinskyImage(
    config: Config, prompt: string, submit: GenerateRequest -> SubmitReply,
    check: (string, nat) -> StatusCheck, decode: string -> Result<Bytes, string>)
    returns (r: Result<Bytes, ImageError>, polls: nat, slept: nat)
    ensures r == ImageFor(config, prompt, submit, check, decode)
    ensures polls == PollCount(config, prompt, submit, check)
    ensures slept == PollDelay * SleepCount(config, prompt, submit, check)
  {
    var created := CreateGenerationTask(config, prompt, submit);
    if created.Err? {
      return Err(TaskFailed(created.error)), 0, 0;
    }
    var uuid := created.value;
    var imageData: Option<Bytes> := None;
    polls, slept := 0, 0;
    var i := 0;
    while i < MaxPolls
      invariant 0 <= i <= MaxPolls
      invariant imageData == None
      invariant polls == i && slept == PollDelay * i
      invariant WaitFrom(uuid, check, decode, i) == WaitFrom(uuid, check, decode, 0)
      invariant PollsFrom(uuid, check, 0) == i + PollsFrom(uuid, check, i)
      invariant SleepsFrom(uuid, check, 0) == i + SleepsFrom(uuid, check, i)
    {
      var status := check(uuid, i);
      polls := polls + 1;
      match status {
        case CheckFailed(cause) =>
          return Err(StatusCheckFailed(cause)), polls, slept;
        case Checked(response) =>
          if response.status == StatusDone {
            if |response.images| == 0 {
              return Err(NoImage), polls, slept;
            }
            var decoded := decode(response.images[0]);
            if decoded.Err? {
              return Err(ImageDecodeFailed(decoded.error)), polls, slept;
            }
            imageData := Some(decoded.value);
            break;
          } else if response.status == StatusFailed {
            return Err(GenerationFailed(response.errorDescription)), polls, slept;
          }
      }
      slept := slept + PollDelay;
      i := i + 1;
    }
    if imageData == None {
      return Err(Timeout), polls, slept;
    }
    r := Ok(imageData.value);
  }
}
