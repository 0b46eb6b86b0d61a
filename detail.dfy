/**
 * The records carried by the engine-level messages (codes 1 to 4) and the
 * derived deserializers that read them from a payload.
 */
module Details {
  import opened Json
  import opened TaskChains

  // Code 1.

  datatype InitFailedDetail = InitFailedDetail(what: string, why: string, details: string)

  /** `what`, `why` and `details` are required and must all be strings. */
  function DecodeInitFailed(v: Value): (r: Result<InitFailedDetail, DecodeError>)
    ensures r.Ok? <==> HasString(v, "what") && HasString(v, "why") && HasString(v, "details")
    ensures r.Ok? ==> r.value == InitFailedDetail(v.fields["what"].s, v.fields["why"].s, v.fields["details"].s)
    ensures v.Obj? && "what" !in v.fields && HasString(v, "why") && HasString(v, "details") ==> r == Err(MissingField("what"))
  {
    var what :- StringField(v, "what");
    var why :- StringField(v, "why");
    var details :- StringField(v, "details");
    Ok(InitFailedDetail(what, why, details))
  }

  function InitFailedJson(d: InitFailedDetail): Value {
    Obj(map["what" := Str(d.what), "why" := Str(d.why), "details" := Str(d.details)])
  }

  // Code 2.

  datatype ConnectionInfoDetails = ConnectionInfoDetails(adb: string, address: string, config: string)

  datatype ConnectionInfoWhat =
    | ConnectFailed | Connected | UuidGot | UnsupportedResolution | ResolutionError
    | Reconnecting | Reconnected | Disconnect | ScreencapFailed | TouchModeNotAvailable

  function ConnectionInfoWhatName(w: ConnectionInfoWhat): string {
    match w
    case ConnectFailed => "ConnectFailed"
    case Connected => "Connected"
    case UuidGot => "UuidGot"
    case UnsupportedResolution => "UnsupportedResolution"
    case ResolutionError => "ResolutionError"
    case Reconnecting => "Reconnecting"
    case Reconnected => "Reconnected"
    case Disconnect => "Disconnect"
    case ScreencapFailed => "ScreencapFailed"
    case TouchModeNotAvailable => "TouchModeNotAvailable"
  }

  /** The variant a payload string names, matched verbatim. */
  function ConnectionInfoWhatFromName(s: string): (r: Option<ConnectionInfoWhat>)
    ensures r.Some? ==> ConnectionInfoWhatName(r.value) == s
  {
    match s
    case "ConnectFailed" => Some(ConnectFailed)
    case "Connected" => Some(Connected)
    case "UuidGot" => Some(UuidGot)
    case "UnsupportedResolution" => Some(UnsupportedResolution)
    case "ResolutionError" => Some(ResolutionError)
    case "Reconnecting" => Some(Reconnecting)
    case "Reconnected" => Some(Reconnected)
    case "Disconnect" => Some(Disconnect)
    case "ScreencapFailed" => Some(ScreencapFailed)
    case "TouchModeNotAvailable" => Some(TouchModeNotAvailable)
    case _ => None
  }

  lemma ConnectionInfoWhatRoundTrip(w: ConnectionInfoWhat)
    ensures ConnectionInfoWhatFromName(ConnectionInfoWhatName(w)) == Some(w)
  {
  }

  /** Exactly the ten variant names are accepted; any other value is rejected. */
  function DecodeConnectionInfoWhat(v: Value): (r: Result<ConnectionInfoWhat, DecodeError>)
    ensures r.Ok? <==> v.Str? && ConnectionInfoWhatFromName(v.s).Some?
    ensures r.Ok? ==> ConnectionInfoWhatName(r.value) == v.s
    ensures v.Str? && ConnectionInfoWhatFromName(v.s).None? ==> r == Err(UnknownVariant(v.s))
  {
    match v
    case Str(s) =>
      (match ConnectionInfoWhatFromName(s)
       case Some(w) => Ok(w)
       case None => Err(UnknownVariant(s)))
    case _ => Err(InvalidType("a ConnectionInfoWhat variant name"))
  }

  datatype ConnectionInfoDetail = ConnectionInfoDetail(what: ConnectionInfoWhat, why: string, uuid: string, details: ConnectionInfoDetails)

  /** The nested `details` object with its `adb`, `address` and `config` strings. */
  function DecodeConnectionInfoDetails(v: Value): (r: Result<ConnectionInfoDetails, DecodeError>)
    ensures r.Ok? <==> HasString(v, "adb") && HasString(v, "address") && HasString(v, "config")
    ensures r.Ok? ==> r.value == ConnectionInfoDetails(v.fields["adb"].s, v.fields["address"].s, v.fields["config"].s)
  {
    var adb :- StringField(v, "adb");
    var address :- StringField(v, "address");
    var config :- StringField(v, "config");
    Ok(ConnectionInfoDetails(adb, address, config))
  }

  function DecodeConnectionInfo(v: Value): (r: Result<ConnectionInfoDetail, DecodeError>)
    ensures r.Ok? <==>
      && v.Obj? && "what" in v.fields && DecodeConnectionInfoWhat(v.fields["what"]).Ok?
      && HasString(v, "why") && HasString(v, "uuid")
      && "details" in v.fields && DecodeConnectionInfoDetails(v.fields["details"]).Ok?
    ensures r.Ok? ==>
      && ConnectionInfoWhatName(r.value.what) == v.fields["what"].s
      && r.value.why == v.fields["why"].s && r.value.uuid == v.fields["uuid"].s
      && r.value.details == DecodeConnectionInfoDetails(v.fields["details"]).value
  {
    var whatValue :- Field(v, "what");
    var what :- DecodeConnectionInfoWhat(whatValue);
    var why :- StringField(v, "why");
    var uuid :- StringField(v, "uuid");
    var detailsValue :- Field(v, "details");
    var details :- DecodeConnectionInfoDetails(detailsValue);
    Ok(ConnectionInfoDetail(what, why, uuid, details))
  }

  function ConnectionInfoJson(d: ConnectionInfoDetail): Value {
    Obj(map[
      "what" := Str(ConnectionInfoWhatName(d.what)),
      "why" := Str(d.why),
      "uuid" := Str(d.uuid),
      "details" := Obj(map["adb" := Str(d.details.adb), "address" := Str(d.details.address), "config" := Str(d.details.config)])
    ])
  }

  // Code 3.

  datatype AllTasksCompletedDetail = AllTasksCompletedDetail(chain: TaskChain, uuid: string, tasks: seq<Int32>)

  /** The chain is read from key `chain`; `tasks` keeps the payload's order and each id must fit in i32. */
  function DecodeAllTasksCompleted(v: Value): (r: Result<AllTasksCompletedDetail, DecodeError>)
    ensures r.Ok? <==>
      && v.Obj? && "chain" in v.fields && DecodeTaskChain(v.fields["chain"]).Ok?
      && HasString(v, "uuid")
      && "tasks" in v.fields && v.fields["tasks"].Arr?
      && forall i | 0 <= i < |v.fields["tasks"].items| :: IsInt32(v.fields["tasks"].items[i])
    ensures r.Ok? ==>
      && TaskChainName(r.value.chain) == v.fields["chain"].s
      && r.value.uuid == v.fields["uuid"].s
      && |r.value.tasks| == |v.fields["tasks"].items|
      && forall i | 0 <= i < |r.value.tasks| :: v.fields["tasks"].items[i] == Int(r.value.tasks[i])
  {
    var chainValue :- Field(v, "chain");
    var chain :- DecodeTaskChain(chainValue);
    var uuid :- StringField(v, "uuid");
    var tasks :- ArrayField(v, "tasks", AsI32);
    Ok(AllTasksCompletedDetail(chain, uuid, tasks))
  }

  function AllTasksCompletedJson(d: AllTasksCompletedDetail): Value {
    Obj(map["chain" := TaskChainJson(d.chain), "uuid" := Str(d.uuid), "tasks" := ArrayJson(d.tasks, (n: Int32) => Int(n))])
  }

  // Code 4.

  datatype AsyncCallInfoDetails = AsyncCallInfoDetails(ret: bool, cost: Int64)

  datatype AsyncCallInfoDetail = AsyncCallInfoDetail(uuid: string, what: string, asyncCallId: Int32, details: AsyncCallInfoDetails)

  /** `ret` must be a boolean and `cost` fit in i64. */
  function DecodeAsyncCallInfoDetails(v: Value): (r: Result<AsyncCallInfoDetails, DecodeError>)
    ensures r.Ok? <==> HasBool(v, "ret") && HasInt64(v, "cost")
    ensures r.Ok? ==> v.fields["ret"] == Bool(r.value.ret) && v.fields["cost"] == Int(r.value.cost)
  {
    var ret :- BoolField(v, "ret");
    var cost :- I64Field(v, "cost");
    Ok(AsyncCallInfoDetails(ret, cost))
  }

  /** `async_call_id` must fit in i32, `details.ret` be a boolean and `details.cost` fit in i64. */
  function DecodeAsyncCallInfo(v: Value): (r: Result<AsyncCallInfoDetail, DecodeError>)
    ensures r.Ok? <==>
      && HasString(v, "uuid") && HasString(v, "what") && HasInt32(v, "async_call_id")
      && "details" in v.fields
      && var d := v.fields["details"];
         d.Obj? && "ret" in d.fields && d.fields["ret"].Bool?
         && "cost" in d.fields && d.fields["cost"].Int?
         && -0x8000_0000_0000_0000 <= d.fields["cost"].n <= 0x7fff_ffff_ffff_ffff
    ensures r.Ok? ==>
      && r.value.uuid == v.fields["uuid"].s && r.value.what == v.fields["what"].s
      && r.value.asyncCallId == v.fields["async_call_id"].n
      && r.value.details.ret == v.fields["details"].fields["ret"].b
      && r.value.details.cost == v.fields["details"].fields["cost"].n
  {
    var uuid :- StringField(v, "uuid");
    var what :- StringField(v, "what");
    var asyncCallId :- I32Field(v, "async_call_id");
    var detailsValue :- Field(v, "details");
    var details :- DecodeAsyncCallInfoDetails(detailsValue);
    Ok(AsyncCallInfoDetail(uuid, what, asyncCallId, details))
  }

  function AsyncCallInfoJson(d: AsyncCallInfoDetail): Value {
    Obj(map[
      "uuid" := Str(d.uuid),
      "what" := Str(d.what),
      "async_call_id" := Int(d.asyncCallId),
      "details" := Obj(map["ret" := Bool(d.details.ret), "cost" := Int(d.details.cost)])
    ])
  }

  // Each record is decoded back from its canonical payload.

  lemma InitFailedRoundTrip(d: InitFailedDetail)
    ensures DecodeInitFailed(InitFailedJson(d)) == Ok(d)
  {
  }

  lemma ConnectionInfoRoundTrip(d: ConnectionInfoDetail)
    ensures DecodeConnectionInfo(ConnectionInfoJson(d)) == Ok(d)
  {
    ConnectionInfoWhatRoundTrip(d.what);
  }

  lemma AllTasksCompletedRoundTrip(d: AllTasksCompletedDetail)
    ensures DecodeAllTasksCompleted(AllTasksCompletedJson(d)) == Ok(d)
  {
    TaskChainJsonRoundTrip(d.chain);
    ArrayRoundTrip(d.tasks, (n: Int32) => Int(n), AsI32);
  }

  lemma AsyncCallInfoRoundTrip(d: AsyncCallInfoDetail)
    ensures DecodeAsyncCallInfo(AsyncCallInfoJson(d)) == Ok(d)
  {
  }
}
