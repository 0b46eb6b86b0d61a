/**
 * Task chains: the chain identity enum with its display names, the chain
 * status derived from a message code, and the decoder of chain progress
 * messages (codes 10000, 10001, 10002 and 10004).
 */
module TaskChains {
  import opened Json

  datatype TaskChain =
    | StartUp | CloseDown | Fight | Mall | Recruit | Infrast | Award | Roguelike
    | Copilot | SSSCopilot | Depot | OperBox | ReclamationAlgorithm | Custom
    | SingleStep | VideoRecognition | Debug

  /** The Display text of a chain, which is also the name it is written with in a payload. */
  function TaskChainName(t: TaskChain): string {
    match t
    case StartUp => "StartUp"
    case CloseDown => "CloseDown"
    case Fight => "Fight"
    case Mall => "Mall"
    case Recruit => "Recruit"
    case Infrast => "Infrast"
    case Award => "Award"
    case Roguelike => "Roguelike"
    case Copilot => "Copilot"
    case SSSCopilot => "SSSCopilot"
    case Depot => "Depot"
    case OperBox => "OperBox"
    case ReclamationAlgorithm => "ReclamationAlgorithm"
    case Custom => "Custom"
    case SingleStep => "SingleStep"
    case VideoRecognition => "VideoRecognition"
    case Debug => "Debug"
  }

  /** The variant a payload string names, matched verbatim. */
  function TaskChainFromName(s: string): (r: Option<TaskChain>)
    ensures r.Some? ==> TaskChainName(r.value) == s
  {
    match s
    case "StartUp" => Some(StartUp)
    case "CloseDown" => Some(CloseDown)
    case "Fight" => Some(Fight)
    case "Mall" => Some(Mall)
    case "Recruit" => Some(Recruit)
    case "Infrast" => Some(Infrast)
    case "Award" => Some(Award)
    case "Roguelike" => Some(Roguelike)
    case "Copilot" => Some(Copilot)
    case "SSSCopilot" => Some(SSSCopilot)
    case "Depot" => Some(Depot)
    case "OperBox" => Some(OperBox)
    case "ReclamationAlgorithm" => Some(ReclamationAlgorithm)
    case "Custom" => Some(Custom)
    case "SingleStep" => Some(SingleStep)
    case "VideoRecognition" => Some(VideoRecognition)
    case "Debug" => Some(Debug)
    case _ => None
  }

  /** Every chain is recognised from its displayed name. */
  lemma TaskChainNameRoundTrip(t: TaskChain)
    ensures TaskChainFromName(TaskChainName(t)) == Some(t)
  {
  }

  /** Distinct chains display differently. */
  lemma TaskChainNameInjective(t: TaskChain, u: TaskChain)
    ensures TaskChainName(t) == TaskChainName(u) ==> t == u
  {
    TaskChainNameRoundTrip(t);
    TaskChainNameRoundTrip(u);
  }

  /** The derived deserializer of the unit enum: a string naming one of the variants. */
  function DecodeTaskChain(v: Value): (r: Result<TaskChain, DecodeError>)
    ensures r.Ok? <==> v.Str? && TaskChainFromName(v.s).Some?
    ensures r.Ok? ==> TaskChainName(r.value) == v.s
    ensures v.Str? && TaskChainFromName(v.s).None? ==> r == Err(UnknownVariant(v.s))
  {
    match v
    case Str(s) =>
      (match TaskChainFromName(s)
       case Some(t) => Ok(t)
       case None => Err(UnknownVariant(s)))
    case _ => Err(InvalidType("a TaskChain variant name"))
  }

  function TaskChainJson(t: TaskChain): Value {
    Str(TaskChainName(t))
  }

  lemma TaskChainJsonRoundTrip(t: TaskChain)
    ensures DecodeTaskChain(TaskChainJson(t)) == Ok(t)
  {
    TaskChainNameRoundTrip(t);
  }

  /** The payload of code 10003 has no schema: any JSON value. */
  type TaskChainExtraInfoDetail = Value

  datatype TaskChainStatus =
    | TaskChainError
    | TaskChainStart
    | TaskChainCompleted
    | TaskChainExtraInfo
    | TaskChainStopped

  /** The Display text of a status: its variant name. */
  function TaskChainStatusName(s: TaskChainStatus): string {
    match s
    case TaskChainError => "TaskChainError"
    case TaskChainStart => "TaskChainStart"
    case TaskChainCompleted => "TaskChainCompleted"
    case TaskChainExtraInfo => "TaskChainExtraInfo"
    case TaskChainStopped => "TaskChainStopped"
  }

  /** Distinct statuses display differently, and each displays with the prefix of its family. */
  lemma TaskChainStatusNameInjective(s: TaskChainStatus, t: TaskChainStatus)
    ensures TaskChainStatusName(s) == TaskChainStatusName(t) ==> s == t
    ensures TaskChainStatusName(s)[..9] == "TaskChain"
  {
  }

  /** The message code that reports a chain in status `s`. */
  function TaskChainStatusCode(s: TaskChainStatus): Int32 {
    match s
    case TaskChainError => 10000
    case TaskChainStart => 10001
    case TaskChainCompleted => 10002
    case TaskChainExtraInfo => 10003
    case TaskChainStopped => 10004
  }

  /** `TaskChainStatus::from`: the status a chain code stands for; any other code panics. */
  function TaskChainStatusFrom(code: Int32): (r: Run<TaskChainStatus>)
    ensures r.Returns? <==> code in {10000, 10001, 10002, 10004}
    ensures r.Returns? ==> r.value != TaskChainExtraInfo && TaskChainStatusCode(r.value) == code
    ensures r.Panics? ==> r.reason == UnknownTaskChainStatus(code)
  {
    match code
    case 10000 => Returns(TaskChainError)
    case 10001 => Returns(TaskChainStart)
    case 10002 => Returns(TaskChainCompleted)
    case 10004 => Returns(TaskChainStopped)
    case _ => Panics(UnknownTaskChainStatus(code))
  }

  /**
   * Every status except TaskChainExtraInfo is recovered from its code; the
   * code of TaskChainExtraInfo panics instead.
   */
  lemma TaskChainStatusCodeRoundTrip(s: TaskChainStatus)
    ensures s != TaskChainExtraInfo ==> TaskChainStatusFrom(TaskChainStatusCode(s)) == Returns(s)
    ensures s == TaskChainExtraInfo ==> TaskChainStatusFrom(TaskChainStatusCode(s)).Panics?
  {
  }

  datatype TaskChainDetail = TaskChainDetail(taskchain: TaskChain, uuid: string, status: TaskChainStatus, taskid: Int32)

  /** The payload fields a chain progress message needs, all present with the right types. */
  predicate IsTaskChainPayload(v: Value) {
    DecodeTaskChain(Index(v, "taskchain")).Ok? && Index(v, "uuid").Str? && IsInt32(Index(v, "taskid"))
  }

  /**
   * `TaskChainDetail::new`: the status comes from the code, the chain, uuid
   * and task id from the payload; every failure panics.
   */
  function NewTaskChainDetail(msg: Int32, detail: Text): (r: Run<TaskChainDetail>)
    ensures r.Returns? <==> msg in {10000, 10001, 10002, 10004} && detail.WellFormed? && IsTaskChainPayload(detail.value)
    ensures r.Returns? ==> r.value.status != TaskChainExtraInfo && TaskChainStatusCode(r.value.status) == msg
    ensures r.Returns? ==>
      && TaskChainJson(r.value.taskchain) == Index(detail.value, "taskchain")
      && Str(r.value.uuid) == Index(detail.value, "uuid")
      && Int(r.value.taskid) == Index(detail.value, "taskid")
    ensures msg !in {10000, 10001, 10002, 10004} ==> r == Panics(UnknownTaskChainStatus(msg))
  {
    var status :- TaskChainStatusFrom(msg);
    var value :- Unwrap(if detail.WellFormed? then Ok(detail.value) else Err(Syntax));
    var taskchain :- Unwrap(DecodeTaskChain(Index(value, "taskchain")));
    var uuid :- Unwrap(AsString(Index(value, "uuid")));
    var taskid :- Unwrap(AsI32(Index(value, "taskid")));
    Returns(TaskChainDetail(taskchain, uuid, status, taskid))
  }

  /** The status depends on the code alone, and the other fields on the payload alone. */
  lemma TaskChainDetailSources(m1: Int32, t1: Text, m2: Int32, t2: Text)
    requires NewTaskChainDetail(m1, t1).Returns? && NewTaskChainDetail(m2, t2).Returns?
    ensures m1 == m2 ==> NewTaskChainDetail(m1, t1).value.status == NewTaskChainDetail(m2, t2).value.status
    ensures t1 == t2 ==>
      var d1, d2 := NewTaskChainDetail(m1, t1).value, NewTaskChainDetail(m2, t2).value;
      d1.taskchain == d2.taskchain && d1.uuid == d2.uuid && d1.taskid == d2.taskid
  {
  }

  /** The canonical payload of a chain progress message. */
  function TaskChainDetailJson(d: TaskChainDetail): Value {
    Obj(map["taskchain" := TaskChainJson(d.taskchain), "uuid" := Str(d.uuid), "taskid" := Int(d.taskid)])
  }

  /** Every detail whose status has a progress code is decoded back from its code and canonical payload. */
  lemma TaskChainDetailRoundTrip(d: TaskChainDetail)
    requires d.status != TaskChainExtraInfo
    ensures NewTaskChainDetail(TaskChainStatusCode(d.status), WellFormed(TaskChainDetailJson(d))) == Returns(d)
  {
    TaskChainJsonRoundTrip(d.taskchain);
  }
}
