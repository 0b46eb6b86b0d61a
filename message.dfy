/**
 * `AsstMessage::get`: the entry point that turns a MaaCore callback (a
 * message code and its JSON payload) into a typed message.
 *
 * Three outcomes are kept apart: a message, a `MessageParseError` returned
 * to the caller, and a panic raised by one of the detail constructors.
 */
module Messages {
  import opened Json
  import TaskChains
  import Details
  import SubTasks

  datatype AsstMessage =
    | InternalError
    | InitFailed(initFailed: Details.InitFailedDetail)
    | ConnectionInfo(connectionInfo: Details.ConnectionInfoDetail)
    | AllTasksCompleted(allTasksCompleted: Details.AllTasksCompletedDetail)
    | AsyncCallInfo(asyncCallInfo: Details.AsyncCallInfoDetail)
    | TaskChainInfo(taskChain: TaskChains.TaskChainDetail)
    | TaskChainExtraInfo(extraInfo: TaskChains.TaskChainExtraInfoDetail)
    | SubTaskInfo(subTask: SubTasks.SubTaskDetail)
    | SubTaskExtraInfo(subTaskExtraInfo: SubTasks.SubTaskExtraInfoDetail)

  datatype MessageParseError =
    | UnknownMessageCodeError(code: Int32)
    | JsonParseError(cause: DecodeError)

  const ChainCodes: set<Int32> := {10000, 10001, 10002, 10004}
  const SubTaskCodes: set<Int32> := {20000, 20001, 20002, 20004}

  /** The codes `get` recognises. */
  predicate IsKnownCode(msg: Int32) {
    msg in {0, 1, 2, 3, 4, 10003, 20003} || msg in ChainCodes || msg in SubTaskCodes
  }

  /** The code a message arrives with. */
  function CodeOf(m: AsstMessage): Int32 {
    match m
    case InternalError => 0
    case InitFailed(_) => 1
    case ConnectionInfo(_) => 2
    case AllTasksCompleted(_) => 3
    case AsyncCallInfo(_) => 4
    case TaskChainInfo(d) => TaskChains.TaskChainStatusCode(d.status)
    case TaskChainExtraInfo(_) => 10003
    case SubTaskInfo(d) => SubTasks.SubTaskStatusCode(d.status)
    case SubTaskExtraInfo(_) => 20003
  }

  /** The messages `get` can produce: a chain progress message never carries the extra-info status. */
  predicate IsProducible(m: AsstMessage) {
    m.TaskChainInfo? ==> m.taskChain.status != TaskChains.TaskChainExtraInfo
  }

  /** The payload text parsed into a JSON value; text that does not parse is a parse error. */
  function ParseValue(details: Text): (r: Result<Value, MessageParseError>)
    ensures r.Ok? <==> details.WellFormed?
    ensures r.Ok? ==> r.value == details.value
    ensures r.Err? ==> r.error == JsonParseError(Syntax)
  {
    if details.WellFormed? then Ok(details.value) else Err(JsonParseError(Syntax))
  }

  /** The `#[from]` conversion `?` applies: a deserializer's error becomes a parse error. */
  function FromDecode<T>(r: Result<T, DecodeError>): (s: Result<T, MessageParseError>)
    ensures s.Ok? <==> r.Ok?
    ensures s.Ok? ==> s.value == r.value
    ensures s.Err? ==> s.error == JsonParseError(r.error)
  {
    match r
    case Ok(x) => Ok(x)
    case Err(e) => Err(JsonParseError(e))
  }

  /**
   * `AsstMessage::get`: dispatch on the code. Code 0 ignores its payload;
   * codes 1 to 4 and 10003 return a parse error for a bad payload; the chain
   * and subtask progress codes, and code 20003 once its text parses, panic
   * on a bad payload; any other code is an unknown-code error.
   */
  function Get(msg: Int32, details: Text): (r: Run<Result<AsstMessage, MessageParseError>>)
    ensures r.Returns? && r.value.Ok? ==> CodeOf(r.value.value) == msg && IsProducible(r.value.value)
    ensures !IsKnownCode(msg) <==> r == Returns(Err(UnknownMessageCodeError(msg)))
    ensures r.Panics? ==> msg in ChainCodes || msg in SubTaskCodes || msg == 20003
    ensures r.Returns? && r.value.Err? && r.value.error.JsonParseError? ==> msg in {1, 2, 3, 4, 10003, 20003}
    ensures msg == 0 ==> r == Returns(Ok(InternalError))
    ensures msg in {1, 2, 3, 4, 10003} ==> r.Returns? && (r.value.Ok? <==> details.WellFormed? && PayloadDecodes(msg, details.value))
    ensures msg in {1, 2, 3, 4, 10003, 20003} && details.Malformed? ==> r == Returns(Err(JsonParseError(Syntax)))
  {
    match msg
    case 0 => Returns(Ok(InternalError))
    case 1 | 2 | 3 | 4 => Returns(EngineMessage(msg, details))
    case 10000 | 10001 | 10002 | 10004 => ChainMessage(msg, details)
    case 10003 => Returns(ChainExtraInfoMessage(details))
    case 20000 | 20001 | 20002 | 20004 => SubTaskMessage(msg, details)
    case 20003 => SubTaskExtraInfoMessage(details)
    case _ => Returns(Err(UnknownMessageCodeError(msg)))
  }

  /**
   * What `get` returns is the decoded payload itself: the record of codes 1
   * to 4, the raw value of code 10003, and the detail the chain, subtask and
   * extra-info decoders build, which also decide when it panics.
   */
  lemma GetCarriesPayload(msg: Int32, details: Text)
    ensures var r := Get(msg, details);
      && (r.Returns? && r.value.Ok? && msg == 1 ==> r.value.value == InitFailed(Details.DecodeInitFailed(details.value).value))
      && (r.Returns? && r.value.Ok? && msg == 2 ==> r.value.value == ConnectionInfo(Details.DecodeConnectionInfo(details.value).value))
      && (r.Returns? && r.value.Ok? && msg == 3 ==> r.value.value == AllTasksCompleted(Details.DecodeAllTasksCompleted(details.value).value))
      && (r.Returns? && r.value.Ok? && msg == 4 ==> r.value.value == AsyncCallInfo(Details.DecodeAsyncCallInfo(details.value).value))
      && (msg == 10003 && details.WellFormed? ==> r == Returns(Ok(TaskChainExtraInfo(details.value))))
      && (msg in ChainCodes ==> (r.Returns? <==> TaskChains.NewTaskChainDetail(msg, details).Returns?))
      && (msg in ChainCodes && r.Returns? ==> r.value == Ok(TaskChainInfo(TaskChains.NewTaskChainDetail(msg, details).value)))
      && (msg in SubTaskCodes ==> (r.Returns? <==> SubTasks.NewSubTaskDetail(msg, details).Returns?))
      && (msg in SubTaskCodes && r.Returns? ==> r.value == Ok(SubTaskInfo(SubTasks.NewSubTaskDetail(msg, details).value)))
      && (msg == 20003 && details.WellFormed? ==> (r.Returns? <==> SubTasks.DeserializeSubTaskExtraInfo(details.value).Returns?))
      && (msg == 20003 && details.WellFormed? && r.Returns? ==>
            r.value == Ok(SubTaskExtraInfo(SubTasks.DeserializeSubTaskExtraInfo(details.value).value)))
  {
    GetCarriesRecord(msg, details);
    GetCarriesChainDetail(msg, details);
    GetCarriesSubTaskDetail(msg, details);
  }

  // The three families of codes, one lemma each to keep each proof small.

  lemma GetCarriesRecord(msg: Int32, details: Text)
    ensures var r := Get(msg, details);
      && (r.Returns? && r.value.Ok? && msg == 1 ==> r.value.value == InitFailed(Details.DecodeInitFailed(details.value).value))
      && (r.Returns? && r.value.Ok? && msg == 2 ==> r.value.value == ConnectionInfo(Details.DecodeConnectionInfo(details.value).value))
      && (r.Returns? && r.value.Ok? && msg == 3 ==> r.value.value == AllTasksCompleted(Details.DecodeAllTasksCompleted(details.value).value))
      && (r.Returns? && r.value.Ok? && msg == 4 ==> r.value.value == AsyncCallInfo(Details.DecodeAsyncCallInfo(details.value).value))
  {
  }

  lemma GetCarriesChainDetail(msg: Int32, details: Text)
    ensures var r := Get(msg, details);
      && (msg == 10003 && details.WellFormed? ==> r == Returns(Ok(TaskChainExtraInfo(details.value))))
      && (msg in ChainCodes ==> (r.Returns? <==> TaskChains.NewTaskChainDetail(msg, details).Returns?))
      && (msg in ChainCodes && r.Returns? ==> r.value == Ok(TaskChainInfo(TaskChains.NewTaskChainDetail(msg, details).value)))
  {
  }

  lemma GetCarriesSubTaskDetail(msg: Int32, details: Text)
    ensures var r := Get(msg, details);
      && (msg in SubTaskCodes ==> (r.Returns? <==> SubTasks.NewSubTaskDetail(msg, details).Returns?))
      && (msg in SubTaskCodes && r.Returns? ==> r.value == Ok(SubTaskInfo(SubTasks.NewSubTaskDetail(msg, details).value)))
      && (msg == 20003 && details.WellFormed? ==> (r.Returns? <==> SubTasks.DeserializeSubTaskExtraInfo(details.value).Returns?))
      && (msg == 20003 && details.WellFormed? && r.Returns? ==>
            r.value == Ok(SubTaskExtraInfo(SubTasks.DeserializeSubTaskExtraInfo(details.value).value)))
  {
  }

  /** Codes 1 to 4: the payload text deserialized into the record of the code; every failure is a parse error. */
  function EngineMessage(msg: Int32, details: Text): (r: Result<AsstMessage, MessageParseError>)
    requires msg in {1, 2, 3, 4}
    ensures r.Ok? <==> details.WellFormed? && PayloadDecodes(msg, details.value)
    ensures r.Ok? ==> CodeOf(r.value) == msg
    ensures r.Err? ==> r.error.JsonParseError?
    ensures details.Malformed? ==> r == Err(JsonParseError(Syntax))
    ensures r.Ok? && msg == 1 ==> r.value == InitFailed(Details.DecodeInitFailed(details.value).value)
    ensures r.Ok? && msg == 2 ==> r.value == ConnectionInfo(Details.DecodeConnectionInfo(details.value).value)
    ensures r.Ok? && msg == 3 ==> r.value == AllTasksCompleted(Details.DecodeAllTasksCompleted(details.value).value)
    ensures r.Ok? && msg == 4 ==> r.value == AsyncCallInfo(Details.DecodeAsyncCallInfo(details.value).value)
  {
    match msg
    case 1 => var v :- ParseValue(details); var d :- FromDecode(Details.DecodeInitFailed(v)); Ok(InitFailed(d))
    case 2 => var v :- ParseValue(details); var d :- FromDecode(Details.DecodeConnectionInfo(v)); Ok(ConnectionInfo(d))
    case 3 => var v :- ParseValue(details); var d :- FromDecode(Details.DecodeAllTasksCompleted(v)); Ok(AllTasksCompleted(d))
    case 4 => var v :- ParseValue(details); var d :- FromDecode(Details.DecodeAsyncCallInfo(v)); Ok(AsyncCallInfo(d))
  }

  /** Chain progress codes: `TaskChainDetail::new`, which panics on any bad payload and never returns an error. */
  function ChainMessage(msg: Int32, details: Text): (r: Run<Result<AsstMessage, MessageParseError>>)
    requires msg in ChainCodes
    ensures r.Returns? ==> r.value.Ok? && CodeOf(r.value.value) == msg && IsProducible(r.value.value)
    ensures r.Returns? <==> TaskChains.NewTaskChainDetail(msg, details).Returns?
    ensures r.Returns? ==> r.value == Ok(TaskChainInfo(TaskChains.NewTaskChainDetail(msg, details).value))
  {
    var d :- TaskChains.NewTaskChainDetail(msg, details);
    Returns(Ok(TaskChainInfo(d)))
  }

  /** Code 10003: any JSON value is accepted as it stands; only text that does not parse is an error. */
  function ChainExtraInfoMessage(details: Text): (r: Result<AsstMessage, MessageParseError>)
    ensures r.Ok? <==> details.WellFormed?
    ensures r.Ok? ==> r.value == TaskChainExtraInfo(details.value)
    ensures r.Err? ==> r.error == JsonParseError(Syntax)
  {
    var v :- ParseValue(details);
    Ok(TaskChainExtraInfo(v))
  }

  /** Subtask progress codes: `SubTaskDetail::new`, which panics on any bad payload and never returns an error. */
  function SubTaskMessage(msg: Int32, details: Text): (r: Run<Result<AsstMessage, MessageParseError>>)
    requires msg in SubTaskCodes
    ensures r.Returns? ==> r.value.Ok? && CodeOf(r.value.value) == msg
    ensures r.Returns? <==> SubTasks.NewSubTaskDetail(msg, details).Returns?
    ensures r.Returns? ==> r.value == Ok(SubTaskInfo(SubTasks.NewSubTaskDetail(msg, details).value))
  {
    var d :- SubTasks.NewSubTaskDetail(msg, details);
    Returns(Ok(SubTaskInfo(d)))
  }

  /**
   * Code 20003: the payload is parsed into a JSON value with `?`, so text
   * that does not parse is an error; the hand-written deserializer then
   * panics on every other failure.
   */
  function SubTaskExtraInfoMessage(details: Text): (r: Run<Result<AsstMessage, MessageParseError>>)
    ensures details.Malformed? <==> r == Returns(Err(JsonParseError(Syntax)))
    ensures details.WellFormed? ==> (r.Returns? <==> SubTasks.DeserializeSubTaskExtraInfo(details.value).Returns?)
    ensures r.Returns? && details.WellFormed? ==> r.value == Ok(SubTaskExtraInfo(SubTasks.DeserializeSubTaskExtraInfo(details.value).value))
  {
    match details
    case Malformed => Returns(Err(JsonParseError(Syntax)))
    case WellFormed(v) =>
      var d :- SubTasks.DeserializeSubTaskExtraInfo(v);
      Returns(Ok(SubTaskExtraInfo(d)))
  }

  /** Whether a parsed payload decodes as the record of one of the codes that return parse errors. */
  predicate PayloadDecodes(msg: Int32, v: Value) {
    match msg
    case 1 => Details.DecodeInitFailed(v).Ok?
    case 2 => Details.DecodeConnectionInfo(v).Ok?
    case 3 => Details.DecodeAllTasksCompleted(v).Ok?
    case 4 => Details.DecodeAsyncCallInfo(v).Ok?
    case _ => true
  }

  /** The canonical payload of each message. */
  function MessageJson(m: AsstMessage): Value {
    match m
    case InternalError => Obj(map[])
    case InitFailed(d) => Details.InitFailedJson(d)
    case ConnectionInfo(d) => Details.ConnectionInfoJson(d)
    case AllTasksCompleted(d) => Details.AllTasksCompletedJson(d)
    case AsyncCallInfo(d) => Details.AsyncCallInfoJson(d)
    case TaskChainInfo(d) => TaskChains.TaskChainDetailJson(d)
    case TaskChainExtraInfo(v) => v
    case SubTaskInfo(d) => SubTasks.SubTaskDetailJson(d)
    case SubTaskExtraInfo(d) => SubTasks.SubTaskExtraInfoJson(d)
  }

  /** The records of codes 1 to 4 come back from their code and canonical payload. */
  lemma EngineMessageRoundTrip(m: AsstMessage)
    ensures CodeOf(m) in {1, 2, 3, 4} ==> EngineMessage(CodeOf(m), WellFormed(MessageJson(m))) == Ok(m)
  {
    match m
    case InitFailed(d) => Details.InitFailedRoundTrip(d);
    case ConnectionInfo(d) => Details.ConnectionInfoRoundTrip(d);
    case AllTasksCompleted(d) => Details.AllTasksCompletedRoundTrip(d);
    case AsyncCallInfo(d) => Details.AsyncCallInfoRoundTrip(d);
    case _ =>
  }

  /** The engine-level messages (codes 0 to 4) come back from their code and canonical payload. */
  lemma EngineRoundTrip(m: AsstMessage)
    ensures CodeOf(m) in {0, 1, 2, 3, 4} ==> Get(CodeOf(m), WellFormed(MessageJson(m))) == Returns(Ok(m))
  {
    EngineMessageRoundTrip(m);
  }

  /** A task-chain message is produced again from its code and canonical payload. */
  lemma ChainRoundTrip(m: AsstMessage)
    ensures IsProducible(m) && (m.TaskChainInfo? || m.TaskChainExtraInfo?) ==>
      Get(CodeOf(m), WellFormed(MessageJson(m))) == Returns(Ok(m))
  {
    match m
    case TaskChainInfo(d) =>
      if d.status != TaskChains.TaskChainExtraInfo {
        TaskChains.TaskChainDetailRoundTrip(d);
        assert ChainMessage(CodeOf(m), WellFormed(MessageJson(m))) == Returns(Ok(m));
      }
    case _ =>
  }

  /** A subtask progress message is produced again from its code and canonical payload. */
  lemma SubTaskProgressRoundTrip(m: AsstMessage)
    ensures m.SubTaskInfo? ==> Get(CodeOf(m), WellFormed(MessageJson(m))) == Returns(Ok(m))
  {
    if m.SubTaskInfo? {
      SubTasks.SubTaskDetailRoundTrip(m.subTask);
      assert SubTaskMessage(CodeOf(m), WellFormed(MessageJson(m))) == Returns(Ok(m));
    }
  }

  /** A subtask extra-info message is produced again from its canonical payload under code 20003. */
  lemma SubTaskExtraRoundTrip(m: AsstMessage)
    ensures m.SubTaskExtraInfo? ==> Get(CodeOf(m), WellFormed(MessageJson(m))) == Returns(Ok(m))
  {
    if m.SubTaskExtraInfo? {
      var t := WellFormed(SubTasks.SubTaskExtraInfoJson(m.subTaskExtraInfo));
      SubTaskExtraMessageRoundTrip(m.subTaskExtraInfo);
      assert Get(20003, t) == SubTaskExtraInfoMessage(t);
    }
  }

  lemma SubTaskExtraMessageRoundTrip(e: SubTasks.SubTaskExtraInfoDetail)
    ensures SubTaskExtraInfoMessage(WellFormed(SubTasks.SubTaskExtraInfoJson(e))) == Returns(Ok(SubTaskExtraInfo(e)))
  {
    SubTasks.SubTaskExtraInfoRoundTrip(e);
  }

  /** Every message `get` can produce is produced again from its code and canonical payload. */
  lemma GetRoundTrip(m: AsstMessage)
    requires IsProducible(m)
    ensures Get(CodeOf(m), WellFormed(MessageJson(m))) == Returns(Ok(m))
  {
    EngineRoundTrip(m);
    ChainRoundTrip(m);
    SubTaskProgressRoundTrip(m);
    SubTaskExtraRoundTrip(m);
  }

  /** Distinct producible messages have distinct code-and-payload pairs, so no message is lost in transit. */
  lemma EncodingInjective(m1: AsstMessage, m2: AsstMessage)
    requires IsProducible(m1) && IsProducible(m2)
    requires CodeOf(m1) == CodeOf(m2) && MessageJson(m1) == MessageJson(m2)
    ensures m1 == m2
  {
    GetRoundTrip(m1);
    GetRoundTrip(m2);
  }

  /** The example of the `get` documentation: code 0 with an empty object is an internal error. */
  lemma InternalErrorExample()
    ensures Get(0, WellFormed(Obj(map[]))) == Returns(Ok(InternalError))
  {
  }
}
