/**
 * Subtasks: the subtask progress message (codes 20000, 20001, 20002 and
 * 20004) and the subtask extra-info message (code 20003), whose payload is
 * decoded in two phases: first the envelope, then `{what, details}` against
 * the seventeen leaf shapes.
 */
module SubTasks {
  import opened Json
  import opened TaskChains
  import ExtraInfoTags

  datatype Task =
    | StartButton2 | MedicineConfirm | StoneConfirm | RecruitRefreshConfirm | RecruitConfirm
    | RecruitNowConfirm | ReportToPenguinStats | ReportToYituliu | InfrastDormDoubleConfirmButton
    | StartExplore | StageTraderInvestConfirm | StageTraderInvestSystemFull | ExitThenAbandon
    | MissionCompletedFlag | MissionFailedFlag | StageTraderEnter | StageSafeHouseEnter
    | StageEncounterEnter | StageCambatDpsEnter | StageEmergencyDps | StageDreadfulFoe | StartGameTask

  function TaskName(t: Task): string {
    match t
    case StartButton2 => "StartButton2"
    case MedicineConfirm => "MedicineConfirm"
    case StoneConfirm => "StoneConfirm"
    case RecruitRefreshConfirm => "RecruitRefreshConfirm"
    case RecruitConfirm => "RecruitConfirm"
    case RecruitNowConfirm => "RecruitNowConfirm"
    case ReportToPenguinStats => "ReportToPenguinStats"
    case ReportToYituliu => "ReportToYituliu"
    case InfrastDormDoubleConfirmButton => "InfrastDormDoubleConfirmButton"
    case StartExplore => "StartExplore"
    case StageTraderInvestConfirm => "StageTraderInvestConfirm"
    case StageTraderInvestSystemFull => "StageTraderInvestSystemFull"
    case ExitThenAbandon => "ExitThenAbandon"
    case MissionCompletedFlag => "MissionCompletedFlag"
    case MissionFailedFlag => "MissionFailedFlag"
    case StageTraderEnter => "StageTraderEnter"
    case StageSafeHouseEnter => "StageSafeHouseEnter"
    case StageEncounterEnter => "StageEncounterEnter"
    case StageCambatDpsEnter => "StageCambatDpsEnter"
    case StageEmergencyDps => "StageEmergencyDps"
    case StageDreadfulFoe => "StageDreadfulFoe"
    case StartGameTask => "StartGameTask"
  }

  /** The task a payload string names, matched verbatim. */
  function TaskFromName(s: string): (r: Option<Task>)
    ensures r.Some? ==> TaskName(r.value) == s
  {
    match s
    case "StartButton2" => Some(StartButton2)
    case "MedicineConfirm" => Some(MedicineConfirm)
    case "StoneConfirm" => Some(StoneConfirm)
    case "RecruitRefreshConfirm" => Some(RecruitRefreshConfirm)
    case "RecruitConfirm" => Some(RecruitConfirm)
    case "RecruitNowConfirm" => Some(RecruitNowConfirm)
    case "ReportToPenguinStats" => Some(ReportToPenguinStats)
    case "ReportToYituliu" => Some(ReportToYituliu)
    case "InfrastDormDoubleConfirmButton" => Some(InfrastDormDoubleConfirmButton)
    case "StartExplore" => Some(StartExplore)
    case "StageTraderInvestConfirm" => Some(StageTraderInvestConfirm)
    case "StageTraderInvestSystemFull" => Some(StageTraderInvestSystemFull)
    case "ExitThenAbandon" => Some(ExitThenAbandon)
    case "MissionCompletedFlag" => Some(MissionCompletedFlag)
    case "MissionFailedFlag" => Some(MissionFailedFlag)
    case "StageTraderEnter" => Some(StageTraderEnter)
    case "StageSafeHouseEnter" => Some(StageSafeHouseEnter)
    case "StageEncounterEnter" => Some(StageEncounterEnter)
    case "StageCambatDpsEnter" => Some(StageCambatDpsEnter)
    case "StageEmergencyDps" => Some(StageEmergencyDps)
    case "StageDreadfulFoe" => Some(StageDreadfulFoe)
    case "StartGameTask" => Some(StartGameTask)
    case _ => None
  }

  // The round trip of the task names, a few variants at a time in declaration
  // order: each variant must be told apart from every name matched before it,
  // and one proof over all 22 would be too large for the solver.

  lemma TaskNameRoundTripConfirms(t: Task)
    ensures t in {StartButton2, MedicineConfirm, StoneConfirm, RecruitRefreshConfirm, RecruitConfirm, RecruitNowConfirm} ==> TaskFromName(TaskName(t)) == Some(t)
  {
  }

  lemma TaskNameRoundTripReportsAndExplore(t: Task)
    ensures t in {ReportToPenguinStats, ReportToYituliu, InfrastDormDoubleConfirmButton, StartExplore} ==> TaskFromName(TaskName(t)) == Some(t)
  {
  }

  lemma TaskNameRoundTripTraderInvest(t: Task)
    ensures t in {StageTraderInvestConfirm, StageTraderInvestSystemFull, ExitThenAbandon} ==> TaskFromName(TaskName(t)) == Some(t)
  {
  }

  lemma TaskNameRoundTripMissionFlags(t: Task)
    ensures t in {MissionCompletedFlag, MissionFailedFlag} ==> TaskFromName(TaskName(t)) == Some(t)
  {
  }

  lemma TaskNameRoundTripTraderAndSafeHouse(t: Task)
    ensures t in {StageTraderEnter, StageSafeHouseEnter} ==> TaskFromName(TaskName(t)) == Some(t)
  {
  }

  lemma TaskNameRoundTripEncounterAndCombat(t: Task)
    ensures t in {StageEncounterEnter, StageCambatDpsEnter} ==> TaskFromName(TaskName(t)) == Some(t)
  {
  }

  lemma TaskNameRoundTripEmergencyAndFoe(t: Task)
    ensures t in {StageEmergencyDps, StageDreadfulFoe} ==> TaskFromName(TaskName(t)) == Some(t)
  {
  }

  lemma TaskNameRoundTripStartGame(t: Task)
    ensures t == StartGameTask ==> TaskFromName(TaskName(t)) == Some(t)
  {
  }

  /** Every task is recognised from its name. */
  lemma TaskNameRoundTrip(t: Task)
    ensures TaskFromName(TaskName(t)) == Some(t)
  {
    TaskNameRoundTripConfirms(t);
    TaskNameRoundTripReportsAndExplore(t);
    TaskNameRoundTripTraderInvest(t);
    TaskNameRoundTripMissionFlags(t);
    TaskNameRoundTripTraderAndSafeHouse(t);
    TaskNameRoundTripEncounterAndCombat(t);
    TaskNameRoundTripEmergencyAndFoe(t);
    TaskNameRoundTripStartGame(t);
  }

  function DecodeTask(v: Value): (r: Result<Task, DecodeError>)
    ensures r.Ok? <==> v.Str? && TaskFromName(v.s).Some?
    ensures r.Ok? ==> TaskName(r.value) == v.s
  {
    match v
    case Str(s) =>
      (match TaskFromName(s)
       case Some(t) => Ok(t)
       case None => Err(UnknownVariant(s)))
    case _ => Err(InvalidType("a Task variant name"))
  }

  datatype ProcessTaskDetails = ProcessTaskDetails(task: Task, action: Int32, execTimes: Int32, maxTimes: Int32, algorithm: Int32)

  /** A task name and four i32 fields, all required. */
  function DecodeProcessTaskDetails(v: Value): (r: Result<ProcessTaskDetails, DecodeError>)
    ensures r.Ok? <==>
      && v.Obj? && "task" in v.fields && DecodeTask(v.fields["task"]).Ok?
      && HasInt32(v, "action") && HasInt32(v, "exec_times") && HasInt32(v, "max_times") && HasInt32(v, "algorithm")
    ensures r.Ok? ==>
      && TaskName(r.value.task) == v.fields["task"].s
      && r.value.action == v.fields["action"].n && r.value.execTimes == v.fields["exec_times"].n
      && r.value.maxTimes == v.fields["max_times"].n && r.value.algorithm == v.fields["algorithm"].n
  {
    var taskValue :- Field(v, "task");
    var task :- DecodeTask(taskValue);
    var action :- I32Field(v, "action");
    var execTimes :- I32Field(v, "exec_times");
    var maxTimes :- I32Field(v, "max_times");
    var algorithm :- I32Field(v, "algorithm");
    Ok(ProcessTaskDetails(task, action, execTimes, maxTimes, algorithm))
  }

  function ProcessTaskDetailsJson(d: ProcessTaskDetails): Value {
    Obj(map[
      "task" := Str(TaskName(d.task)),
      "action" := Int(d.action),
      "exec_times" := Int(d.execTimes),
      "max_times" := Int(d.maxTimes),
      "algorithm" := Int(d.algorithm)
    ])
  }

  datatype SubTaskStatus = SubTaskError | SubTaskStart | SubTaskCompleted | SubTaskStopped

  /** The message code that reports a subtask in status `s`. */
  function SubTaskStatusCode(s: SubTaskStatus): Int32 {
    match s
    case SubTaskError => 20000
    case SubTaskStart => 20001
    case SubTaskCompleted => 20002
    case SubTaskStopped => 20004
  }

  /** `SubTaskStatus::from`: the status a subtask code stands for; any other code panics. */
  function SubTaskStatusFrom(code: Int32): (r: Run<SubTaskStatus>)
    ensures r.Returns? <==> code in {20000, 20001, 20002, 20004}
    ensures r.Returns? ==> SubTaskStatusCode(r.value) == code
    ensures r.Panics? ==> r.reason == UnknownSubTaskStatus(code)
  {
    match code
    case 20000 => Returns(SubTaskError)
    case 20001 => Returns(SubTaskStart)
    case 20002 => Returns(SubTaskCompleted)
    case 20004 => Returns(SubTaskStopped)
    case _ => Panics(UnknownSubTaskStatus(code))
  }

  lemma SubTaskStatusCodeRoundTrip(s: SubTaskStatus)
    ensures SubTaskStatusFrom(SubTaskStatusCode(s)) == Returns(s)
  {
  }

  datatype SubTaskDetail = ProcessTask(status: SubTaskStatus, details: ProcessTaskDetails)

  /**
   * `SubTaskDetail::new`: the status comes from the code; the payload must
   * name subtask `ProcessTask` and carry its details; every failure panics.
   */
  function NewSubTaskDetail(msg: Int32, detail: Text): (r: Run<SubTaskDetail>)
    ensures r.Returns? <==>
      && msg in {20000, 20001, 20002, 20004} && detail.WellFormed?
      && Index(detail.value, "subtask") == Str("ProcessTask")
      && DecodeProcessTaskDetails(Index(detail.value, "details")).Ok?
    ensures r.Returns? ==>
      && SubTaskStatusCode(r.value.status) == msg
      && r.value.details == DecodeProcessTaskDetails(Index(detail.value, "details")).value
    ensures msg in {20000, 20001, 20002, 20004} && detail.WellFormed? && Index(detail.value, "subtask").Str?
            && Index(detail.value, "subtask").s != "ProcessTask"
            ==> r == Panics(UnknownSubTaskDetail(Index(detail.value, "subtask").s))
  {
    var status :- SubTaskStatusFrom(msg);
    var details :- Unwrap(if detail.WellFormed? then Ok(detail.value) else Err(Syntax));
    var subtask :- Unwrap(AsString(Index(details, "subtask")));
    match subtask
    case "ProcessTask" =>
      var processTask :- Unwrap(DecodeProcessTaskDetails(Index(details, "details")));
      Returns(ProcessTask(status, processTask))
    case _ => Panics(UnknownSubTaskDetail(subtask))
  }

  function SubTaskDetailJson(d: SubTaskDetail): Value {
    Obj(map["subtask" := Str("ProcessTask"), "details" := ProcessTaskDetailsJson(d.details)])
  }

  /** Every subtask detail is decoded back from its status code and canonical payload. */
  lemma SubTaskDetailRoundTrip(d: SubTaskDetail)
    ensures NewSubTaskDetail(SubTaskStatusCode(d.status), WellFormed(SubTaskDetailJson(d))) == Returns(d)
  {
    TaskNameRoundTrip(d.details.task);
  }

  // The leaf records of the extra-info message.

  datatype StageDropsStage = StageDropsStage(stageCode: string, stageId: string)

  datatype StageDropsStat = StageDropsStat(itemId: string, itemName: string, quantity: Int32, addQuantity: Int32)

  datatype StageDropsDetail = StageDropsDetail(stage: StageDropsStage, stars: Int32, stats: seq<StageDropsStat>)

  /** The stage keys are camelCase: `stageCode` and `stageId`. */
  function DecodeStageDropsStage(v: Value): (r: Result<StageDropsStage, DecodeError>)
    ensures r.Ok? <==> HasString(v, "stageCode") && HasString(v, "stageId")
    ensures r.Ok? ==> r.value == StageDropsStage(v.fields["stageCode"].s, v.fields["stageId"].s)
  {
    var stageCode :- StringField(v, "stageCode");
    var stageId :- StringField(v, "stageId");
    Ok(StageDropsStage(stageCode, stageId))
  }

  /** The stat keys are camelCase: `itemId`, `itemName`, `quantity` and `addQuantity`. */
  function DecodeStageDropsStat(v: Value): (r: Result<StageDropsStat, DecodeError>)
    ensures r.Ok? <==> HasString(v, "itemId") && HasString(v, "itemName") && HasInt32(v, "quantity") && HasInt32(v, "addQuantity")
    ensures r.Ok? ==> r.value == StageDropsStat(v.fields["itemId"].s, v.fields["itemName"].s, v.fields["quantity"].n, v.fields["addQuantity"].n)
  {
    var itemId :- StringField(v, "itemId");
    var itemName :- StringField(v, "itemName");
    var quantity :- I32Field(v, "quantity");
    var addQuantity :- I32Field(v, "addQuantity");
    Ok(StageDropsStat(itemId, itemName, quantity, addQuantity))
  }

  function DecodeStageDrops(v: Value): (r: Result<StageDropsDetail, DecodeError>)
    ensures r.Ok? <==> HasField(v, "stage", DecodeStageDropsStage) && HasInt32(v, "stars") && HasArray(v, "stats", DecodeStageDropsStat)
    ensures r.Ok? ==>
      && DecodeStageDropsStage(v.fields["stage"]) == Ok(r.value.stage)
      && v.fields["stars"] == Int(r.value.stars)
      && DecodeArray(v.fields["stats"], DecodeStageDropsStat) == Ok(r.value.stats)
  {
    var stageValue :- Field(v, "stage");
    var stage :- DecodeStageDropsStage(stageValue);
    var stars :- I32Field(v, "stars");
    var stats :- ArrayField(v, "stats", DecodeStageDropsStat);
    Ok(StageDropsDetail(stage, stars, stats))
  }

  datatype RecruitTagsDetectedDetail = RecruitTagsDetectedDetail(tags: seq<string>)

  function DecodeRecruitTagsDetected(v: Value): (r: Result<RecruitTagsDetectedDetail, DecodeError>)
    ensures r.Ok? <==> HasArray(v, "tags", AsString)
    ensures r.Ok? ==> DecodeArray(v.fields["tags"], AsString) == Ok(r.value.tags)
  {
    var tags :- StringArrayField(v, "tags");
    Ok(RecruitTagsDetectedDetail(tags))
  }

  datatype RecruitSpecialTagDetail = RecruitSpecialTagDetail(tag: string)

  function DecodeRecruitSpecialTag(v: Value): (r: Result<RecruitSpecialTagDetail, DecodeError>)
    ensures r.Ok? <==> HasString(v, "tag")
    ensures r.Ok? ==> v.fields["tag"] == Str(r.value.tag)
  {
    var tag :- StringField(v, "tag");
    Ok(RecruitSpecialTagDetail(tag))
  }

  datatype RecruitResultOperator = RecruitResultOperator(name: string, level: Int32)

  function DecodeRecruitResultOperator(v: Value): (r: Result<RecruitResultOperator, DecodeError>)
    ensures r.Ok? <==> HasString(v, "name") && HasInt32(v, "level")
    ensures r.Ok? ==> v.fields["name"] == Str(r.value.name) && v.fields["level"] == Int(r.value.level)
  {
    var name :- StringField(v, "name");
    var level :- I32Field(v, "level");
    Ok(RecruitResultOperator(name, level))
  }

  datatype RecruitResultItem = RecruitResultItem(tags: seq<string>, level: Int32, operators: seq<RecruitResultOperator>)

  /** The operators are read from key `opers`. */
  function DecodeRecruitResultItem(v: Value): (r: Result<RecruitResultItem, DecodeError>)
    ensures r.Ok? <==> HasArray(v, "tags", AsString) && HasInt32(v, "level") && HasArray(v, "opers", DecodeRecruitResultOperator)
    ensures r.Ok? ==>
      && DecodeArray(v.fields["tags"], AsString) == Ok(r.value.tags)
      && v.fields["level"] == Int(r.value.level)
      && DecodeArray(v.fields["opers"], DecodeRecruitResultOperator) == Ok(r.value.operators)
  {
    var tags :- StringArrayField(v, "tags");
    var level :- I32Field(v, "level");
    var operators :- ArrayField(v, "opers", DecodeRecruitResultOperator);
    Ok(RecruitResultItem(tags, level, operators))
  }

  datatype RecruitResultDetail = RecruitResultDetail(tags: seq<string>, level: Int32, result: seq<RecruitResultItem>)

  function DecodeRecruitResult(v: Value): (r: Result<RecruitResultDetail, DecodeError>)
    ensures r.Ok? <==> HasArray(v, "tags", AsString) && HasInt32(v, "level") && HasArray(v, "result", DecodeRecruitResultItem)
    ensures r.Ok? ==>
      && DecodeArray(v.fields["tags"], AsString) == Ok(r.value.tags)
      && v.fields["level"] == Int(r.value.level)
      && DecodeArray(v.fields["result"], DecodeRecruitResultItem) == Ok(r.value.result)
  {
    var tags :- StringArrayField(v, "tags");
    var level :- I32Field(v, "level");
    var result :- ArrayField(v, "result", DecodeRecruitResultItem);
    Ok(RecruitResultDetail(tags, level, result))
  }

  datatype RecruitTagsRefreshedDetail = RecruitTagsRefreshedDetail(count: Int32, refreshLimit: Int32)

  /** The limit is read from key `refresh_limit`. */
  function DecodeRecruitTagsRefreshed(v: Value): (r: Result<RecruitTagsRefreshedDetail, DecodeError>)
    ensures r.Ok? <==> HasInt32(v, "count") && HasInt32(v, "refresh_limit")
    ensures r.Ok? ==> v.fields["count"] == Int(r.value.count) && v.fields["refresh_limit"] == Int(r.value.refreshLimit)
  {
    var count :- I32Field(v, "count");
    var refreshLimit :- I32Field(v, "refresh_limit");
    Ok(RecruitTagsRefreshedDetail(count, refreshLimit))
  }

  /** The selected tags have the shape of the detected tags. */
  type RecruitTagsSelectedDetail = RecruitTagsDetectedDetail

  datatype EnterFacilityDetail = EnterFacilityDetail(facility: string, index: Int32)

  function DecodeEnterFacility(v: Value): (r: Result<EnterFacilityDetail, DecodeError>)
    ensures r.Ok? <==> HasString(v, "facility") && HasInt32(v, "index")
    ensures r.Ok? ==> v.fields["facility"] == Str(r.value.facility) && v.fields["index"] == Int(r.value.index)
  {
    var facility :- StringField(v, "facility");
    var index :- I32Field(v, "index");
    Ok(EnterFacilityDetail(facility, index))
  }

  /** A facility short of staff is reported with the shape of entering one. */
  type NotEnoughStaffDetail = EnterFacilityDetail

  datatype ProductOfFacilityDetail = ProductOfFacilityDetail(product: string, facility: string, index: Int32)

  function DecodeProductOfFacility(v: Value): (r: Result<ProductOfFacilityDetail, DecodeError>)
    ensures r.Ok? <==> HasString(v, "product") && HasString(v, "facility") && HasInt32(v, "index")
    ensures r.Ok? ==>
      && v.fields["product"] == Str(r.value.product)
      && v.fields["facility"] == Str(r.value.facility)
      && v.fields["index"] == Int(r.value.index)
  {
    var product :- StringField(v, "product");
    var facility :- StringField(v, "facility");
    var index :- I32Field(v, "index");
    Ok(ProductOfFacilityDetail(product, facility, index))
  }

  datatype StageInfoDetail = StageInfoDetail(name: string)

  function DecodeStageInfo(v: Value): (r: Result<StageInfoDetail, DecodeError>)
    ensures r.Ok? <==> HasString(v, "name")
    ensures r.Ok? ==> v.fields["name"] == Str(r.value.name)
  {
    var name :- StringField(v, "name");
    Ok(StageInfoDetail(name))
  }

  datatype PenguinIdDetail = PenguinIdDetail(id: string)

  function DecodePenguinId(v: Value): (r: Result<PenguinIdDetail, DecodeError>)
    ensures r.Ok? <==> HasString(v, "id")
    ensures r.Ok? ==> v.fields["id"] == Str(r.value.id)
  {
    var id :- StringField(v, "id");
    Ok(PenguinIdDetail(id))
  }

  datatype DepotItem = DepotItem(id: string, have: Int32, name: string)

  function DecodeDepotItem(v: Value): (r: Result<DepotItem, DecodeError>)
    ensures r.Ok? <==> HasString(v, "id") && HasInt32(v, "have") && HasString(v, "name")
    ensures r.Ok? ==>
      && v.fields["id"] == Str(r.value.id)
      && v.fields["have"] == Int(r.value.have)
      && v.fields["name"] == Str(r.value.name)
  {
    var id :- StringField(v, "id");
    var have :- I32Field(v, "have");
    var name :- StringField(v, "name");
    Ok(DepotItem(id, have, name))
  }

  datatype DepotArkPlannerObject = DepotArkPlannerObject(items: seq<DepotItem>, objectType: string)

  /** The object type is read from key `@type`. */
  function DecodeDepotArkPlannerObject(v: Value): (r: Result<DepotArkPlannerObject, DecodeError>)
    ensures r.Ok? <==> HasArray(v, "items", DecodeDepotItem) && HasString(v, "@type")
    ensures r.Ok? ==>
      && DecodeArray(v.fields["items"], DecodeDepotItem) == Ok(r.value.items)
      && v.fields["@type"] == Str(r.value.objectType)
  {
    var items :- ArrayField(v, "items", DecodeDepotItem);
    var objectType :- StringField(v, "@type");
    Ok(DepotArkPlannerObject(items, objectType))
  }

  datatype DepotArkPlanner = DepotArkPlanner(obj: DepotArkPlannerObject, data: string)

  function DecodeDepotArkPlanner(v: Value): (r: Result<DepotArkPlanner, DecodeError>)
    ensures r.Ok? <==> HasField(v, "object", DecodeDepotArkPlannerObject) && HasString(v, "data")
    ensures r.Ok? ==>
      && DecodeDepotArkPlannerObject(v.fields["object"]) == Ok(r.value.obj)
      && v.fields["data"] == Str(r.value.data)
  {
    var objValue :- Field(v, "object");
    var obj :- DecodeDepotArkPlannerObject(objValue);
    var data :- StringField(v, "data");
    Ok(DepotArkPlanner(obj, data))
  }

  datatype DepotLolicon = DepotLolicon(obj: map<string, Int32>, data: string)

  function DecodeDepotLolicon(v: Value): (r: Result<DepotLolicon, DecodeError>)
    ensures r.Ok? <==> HasField(v, "object", DecodeI32Map) && HasString(v, "data")
    ensures r.Ok? ==>
      && DecodeI32Map(v.fields["object"]) == Ok(r.value.obj)
      && v.fields["data"] == Str(r.value.data)
  {
    var objValue :- Field(v, "object");
    var obj :- DecodeI32Map(objValue);
    var data :- StringField(v, "data");
    Ok(DepotLolicon(obj, data))
  }

  datatype DepotDetail = DepotDetail(done: bool, arkplanner: DepotArkPlanner, lolicon: DepotLolicon)

  function DecodeDepot(v: Value): (r: Result<DepotDetail, DecodeError>)
    ensures r.Ok? <==> HasBool(v, "done") && HasField(v, "arkplanner", DecodeDepotArkPlanner) && HasField(v, "lolicon", DecodeDepotLolicon)
    ensures r.Ok? ==>
      && v.fields["done"] == Bool(r.value.done)
      && DecodeDepotArkPlanner(v.fields["arkplanner"]) == Ok(r.value.arkplanner)
      && DecodeDepotLolicon(v.fields["lolicon"]) == Ok(r.value.lolicon)
  {
    var done :- BoolField(v, "done");
    var arkValue :- Field(v, "arkplanner");
    var arkplanner :- DecodeDepotArkPlanner(arkValue);
    var loliconValue :- Field(v, "lolicon");
    var lolicon :- DecodeDepotLolicon(loliconValue);
    Ok(DepotDetail(done, arkplanner, lolicon))
  }

  datatype OperatorBoxAllItem = OperatorBoxAllItem(id: string, name: string, own: bool, rarity: Int32)

  function DecodeOperatorBoxAllItem(v: Value): (r: Result<OperatorBoxAllItem, DecodeError>)
    ensures r.Ok? <==> HasString(v, "id") && HasString(v, "name") && HasBool(v, "own") && HasInt32(v, "rarity")
    ensures r.Ok? ==>
      && v.fields["id"] == Str(r.value.id) && v.fields["name"] == Str(r.value.name)
      && v.fields["own"] == Bool(r.value.own) && v.fields["rarity"] == Int(r.value.rarity)
  {
    var id :- StringField(v, "id");
    var name :- StringField(v, "name");
    var own :- BoolField(v, "own");
    var rarity :- I32Field(v, "rarity");
    Ok(OperatorBoxAllItem(id, name, own, rarity))
  }

  datatype OperatorBoxOwnItem = OperatorBoxOwnItem(
    id: string, name: string, own: bool, elite: Int32, level: Int32, potential: Int32, rarity: Int32)

  function DecodeOperatorBoxOwnItem(v: Value): (r: Result<OperatorBoxOwnItem, DecodeError>)
    ensures r.Ok? <==>
      && HasString(v, "id") && HasString(v, "name") && HasBool(v, "own")
      && HasInt32(v, "elite") && HasInt32(v, "level") && HasInt32(v, "potential") && HasInt32(v, "rarity")
    ensures r.Ok? ==>
      && v.fields["id"] == Str(r.value.id) && v.fields["name"] == Str(r.value.name)
      && v.fields["own"] == Bool(r.value.own)
      && v.fields["elite"] == Int(r.value.elite) && v.fields["level"] == Int(r.value.level)
      && v.fields["potential"] == Int(r.value.potential) && v.fields["rarity"] == Int(r.value.rarity)
  {
    var id :- StringField(v, "id");
    var name :- StringField(v, "name");
    var own :- BoolField(v, "own");
    var elite :- I32Field(v, "elite");
    var level :- I32Field(v, "level");
    var potential :- I32Field(v, "potential");
    var rarity :- I32Field(v, "rarity");
    Ok(OperatorBoxOwnItem(id, name, own, elite, level, potential, rarity))
  }

  datatype OperBoxDetail = OperBoxDetail(done: bool, allOper: seq<OperatorBoxAllItem>, ownOpes: seq<OperatorBoxOwnItem>)

  /** The two lists are read from keys `all_oper` and `own_opes`. */
  function DecodeOperBox(v: Value): (r: Result<OperBoxDetail, DecodeError>)
    ensures r.Ok? <==> HasBool(v, "done") && HasArray(v, "all_oper", DecodeOperatorBoxAllItem) && HasArray(v, "own_opes", DecodeOperatorBoxOwnItem)
    ensures r.Ok? ==>
      && v.fields["done"] == Bool(r.value.done)
      && DecodeArray(v.fields["all_oper"], DecodeOperatorBoxAllItem) == Ok(r.value.allOper)
      && DecodeArray(v.fields["own_opes"], DecodeOperatorBoxOwnItem) == Ok(r.value.ownOpes)
  {
    var done :- BoolField(v, "done");
    var allOper :- ArrayField(v, "all_oper", DecodeOperatorBoxAllItem);
    var ownOpes :- ArrayField(v, "own_opes", DecodeOperatorBoxOwnItem);
    Ok(OperBoxDetail(done, allOper, ownOpes))
  }

  // The leaf shapes, tagged by `what` with the content under `details`.

  datatype SubTaskExtraInfoDetails =
    | StageDrops(stageDrops: StageDropsDetail)
    | RecruitTagsDetected(detected: RecruitTagsDetectedDetail)
    | RecruitSpecialTag(special: RecruitSpecialTagDetail)
    | RecruitResult(recruitResult: RecruitResultDetail)
    | RecruitTagsRefreshed(refreshed: RecruitTagsRefreshedDetail)
    | RecruitTagsSelected(selected: RecruitTagsSelectedDetail)
    | RecruitSlotCompleted
    | RecruitError
    | EnterFacility(entered: EnterFacilityDetail)
    | NotEnoughStaff(shortOfStaff: NotEnoughStaffDetail)
    | ProductOfFacility(product: ProductOfFacilityDetail)
    | StageInfo(stageInfo: StageInfoDetail)
    | StageInfoError
    | PenguinId(penguinId: PenguinIdDetail)
    | Depot(depot: DepotDetail)
    | OperBox(operBox: OperBoxDetail)
    | UnsupportedLevel

  /** The tag a leaf is written with. */
  function TagOf(d: SubTaskExtraInfoDetails): ExtraInfoTags.Tag {
    match d
    case StageDrops(_) => ExtraInfoTags.StageDrops
    case RecruitTagsDetected(_) => ExtraInfoTags.RecruitTagsDetected
    case RecruitSpecialTag(_) => ExtraInfoTags.RecruitSpecialTag
    case RecruitResult(_) => ExtraInfoTags.RecruitResult
    case RecruitTagsRefreshed(_) => ExtraInfoTags.RecruitTagsRefreshed
    case RecruitTagsSelected(_) => ExtraInfoTags.RecruitTagsSelected
    case RecruitSlotCompleted => ExtraInfoTags.RecruitSlotCompleted
    case RecruitError => ExtraInfoTags.RecruitError
    case EnterFacility(_) => ExtraInfoTags.EnterFacility
    case NotEnoughStaff(_) => ExtraInfoTags.NotEnoughStaff
    case ProductOfFacility(_) => ExtraInfoTags.ProductOfFacility
    case StageInfo(_) => ExtraInfoTags.StageInfo
    case StageInfoError => ExtraInfoTags.StageInfoError
    case PenguinId(_) => ExtraInfoTags.PenguinId
    case Depot(_) => ExtraInfoTags.Depot
    case OperBox(_) => ExtraInfoTags.OperBox
    case UnsupportedLevel => ExtraInfoTags.UnsupportedLevel
  }

  /** `d` is the case `t` names. */
  predicate HasTag(d: SubTaskExtraInfoDetails, t: ExtraInfoTags.Tag) {
    match t
    case StageDrops => d.StageDrops?
    case RecruitTagsDetected => d.RecruitTagsDetected?
    case RecruitSpecialTag => d.RecruitSpecialTag?
    case RecruitResult => d.RecruitResult?
    case RecruitTagsRefreshed => d.RecruitTagsRefreshed?
    case RecruitTagsSelected => d.RecruitTagsSelected?
    case RecruitSlotCompleted => d.RecruitSlotCompleted?
    case RecruitError => d.RecruitError?
    case EnterFacility => d.EnterFacility?
    case NotEnoughStaff => d.NotEnoughStaff?
    case ProductOfFacility => d.ProductOfFacility?
    case StageInfo => d.StageInfo?
    case StageInfoError => d.StageInfoError?
    case PenguinId => d.PenguinId?
    case Depot => d.Depot?
    case OperBox => d.OperBox?
    case UnsupportedLevel => d.UnsupportedLevel?
  }

  lemma HasTagIsTagOf(d: SubTaskExtraInfoDetails, t: ExtraInfoTags.Tag)
    ensures HasTag(d, t) <==> TagOf(d) == t
  {
  }

  /** The `what` string a leaf is written with: its variant name. */
  function ExtraInfoName(d: SubTaskExtraInfoDetails): string {
    ExtraInfoTags.Name(TagOf(d))
  }

  /** The content of a case with a payload: it must be present. */
  function Content(content: Option<Value>): Result<Value, DecodeError> {
    if content.Some? then Ok(content.value) else Err(MissingField("details"))
  }

  /** The content of a payload-less case: absent or null. */
  function UnitContent(content: Option<Value>): Result<(), DecodeError> {
    if content.None? || content.value == Null then Ok(()) else Err(InvalidType("null for a unit variant"))
  }

  /** A payload-less case: its content must be absent or null. */
  function DecodeMarker(tag: ExtraInfoTags.Tag, content: Option<Value>): (r: Result<SubTaskExtraInfoDetails, DecodeError>)
    requires ExtraInfoTags.IsMarker(tag)
    ensures r.Ok? <==> content.None? || content == Some(Null)
    ensures r.Ok? ==> HasTag(r.value, tag)
  {
    var _ :- UnitContent(content);
    match tag
    case RecruitSlotCompleted => Ok(RecruitSlotCompleted)
    case RecruitError => Ok(RecruitError)
    case StageInfoError => Ok(StageInfoError)
    case UnsupportedLevel => Ok(UnsupportedLevel)
  }

  /** A case with a payload: the content decoded into that case's record. */
  function DecodePayload(tag: ExtraInfoTags.Tag, c: Value): (r: Result<SubTaskExtraInfoDetails, DecodeError>)
    requires !ExtraInfoTags.IsMarker(tag)
    ensures r.Ok? ==> HasTag(r.value, tag)
  {
    match tag
    case StageDrops => var d :- DecodeStageDrops(c); Ok(StageDrops(d))
    case RecruitTagsDetected => var d :- DecodeRecruitTagsDetected(c); Ok(RecruitTagsDetected(d))
    case RecruitSpecialTag => var d :- DecodeRecruitSpecialTag(c); Ok(RecruitSpecialTag(d))
    case RecruitResult => var d :- DecodeRecruitResult(c); Ok(RecruitResult(d))
    case RecruitTagsRefreshed => var d :- DecodeRecruitTagsRefreshed(c); Ok(RecruitTagsRefreshed(d))
    case RecruitTagsSelected => var d :- DecodeRecruitTagsDetected(c); Ok(RecruitTagsSelected(d))
    case EnterFacility => var d :- DecodeEnterFacility(c); Ok(EnterFacility(d))
    case NotEnoughStaff => var d :- DecodeEnterFacility(c); Ok(NotEnoughStaff(d))
    case ProductOfFacility => var d :- DecodeProductOfFacility(c); Ok(ProductOfFacility(d))
    case StageInfo => var d :- DecodeStageInfo(c); Ok(StageInfo(d))
    case PenguinId => var d :- DecodePenguinId(c); Ok(PenguinId(d))
    case Depot => var d :- DecodeDepot(c); Ok(SubTaskExtraInfoDetails.Depot(d))
    case OperBox => var d :- DecodeOperBox(c); Ok(SubTaskExtraInfoDetails.OperBox(d))
  }

  /**
   * The case `tag` selects, with `content` decoded into that case's record:
   * a payload-less case accepts only absent or null content, any other case
   * requires the content to be present.
   */
  function DecodeTagged(tag: ExtraInfoTags.Tag, content: Option<Value>): (r: Result<SubTaskExtraInfoDetails, DecodeError>)
    ensures r.Ok? ==> HasTag(r.value, tag)
    ensures ExtraInfoTags.IsMarker(tag) ==> (r.Ok? <==> content.None? || content == Some(Null))
    ensures !ExtraInfoTags.IsMarker(tag) && content.None? ==> r == Err(MissingField("details"))
  {
    if ExtraInfoTags.IsMarker(tag) then DecodeMarker(tag, content)
    else
      var c :- Content(content);
      DecodePayload(tag, c)
  }

  /**
   * The adjacently tagged decode once the tag string is known: the case
   * whose name is `what`, with `content` decoded into that case's record;
   * an unknown name is rejected before the content is looked at.
   */
  function DecodeExtraInfoContent(what: string, content: Option<Value>): (r: Result<SubTaskExtraInfoDetails, DecodeError>)
    ensures r.Ok? ==> ExtraInfoName(r.value) == what
    ensures ExtraInfoTags.FromName(what).None? ==> r == Err(UnknownVariant(what))
    ensures ExtraInfoTags.FromName(what).Some? ==> r == DecodeTagged(ExtraInfoTags.FromName(what).value, content)
  {
    match ExtraInfoTags.FromName(what)
    case None => Err(UnknownVariant(what))
    case Some(tag) =>
      var r := DecodeTagged(tag, content);
      if r.Ok? then HasTagIsTagOf(r.value, tag); r else r
  }

  /** The derived deserializer of the tagged enum: tag under `what`, content under `details`. */
  function DecodeExtraInfoDetails(v: Value): (r: Result<SubTaskExtraInfoDetails, DecodeError>)
    ensures r.Ok? ==> HasString(v, "what") && ExtraInfoName(r.value) == v.fields["what"].s
    ensures HasString(v, "what") ==>
      r == DecodeExtraInfoContent(v.fields["what"].s, if "details" in v.fields then Some(v.fields["details"]) else None)
  {
    var tag :- Field(v, "what");
    var what :- AsString(tag);
    DecodeExtraInfoContent(what, if "details" in v.fields then Some(v.fields["details"]) else None)
  }

  datatype SubTaskExtraInfoDetail = SubTaskExtraInfoDetail(
    taskchain: TaskChain, className: string, uuid: string, details: SubTaskExtraInfoDetails)

  /** The envelope fields phase one requires. */
  predicate IsExtraInfoEnvelope(v: Value) {
    DecodeTaskChain(Index(v, "taskchain")).Ok? && Index(v, "class").Str? && Index(v, "uuid").Str? && Index(v, "what").Str?
  }

  /**
   * The hand-written deserializer, applied to the parsed payload. Phase one
   * reads `taskchain`, `class`, `uuid`, `what` and `details`; phase two
   * decodes the rebuilt `{what, details}` object. Every failure panics.
   */
  function DeserializeSubTaskExtraInfo(value: Value): (r: Run<SubTaskExtraInfoDetail>)
    ensures r.Returns? <==>
      IsExtraInfoEnvelope(value) && DecodeExtraInfoContent(Index(value, "what").s, Some(Index(value, "details"))).Ok?
    ensures r.Returns? ==>
      && TaskChainJson(r.value.taskchain) == Index(value, "taskchain")
      && Str(r.value.className) == Index(value, "class")
      && Str(r.value.uuid) == Index(value, "uuid")
      && r.value.details == DecodeExtraInfoContent(Index(value, "what").s, Some(Index(value, "details"))).value
      && ExtraInfoName(r.value.details) == Index(value, "what").s
    ensures IsExtraInfoEnvelope(value) && ExtraInfoTags.FromName(Index(value, "what").s).None? ==>
      r == Panics(UnwrapFailed(UnknownVariant(Index(value, "what").s)))
  {
    var taskchain :- Unwrap(DecodeTaskChain(Index(value, "taskchain")));
    var className :- Unwrap(AsString(Index(value, "class")));
    var uuid :- Unwrap(AsString(Index(value, "uuid")));
    var what :- Unwrap(AsString(Index(value, "what")));
    var details := Index(value, "details");
    var detailsJson := Obj(map["what" := Str(what), "details" := details]);
    var leaf :- Unwrap(DecodeExtraInfoDetails(detailsJson));
    Returns(SubTaskExtraInfoDetail(taskchain, className, uuid, leaf))
  }

  /** The leaf depends on `what` and `details` alone: the other envelope fields never reach it. */
  lemma LeafIgnoresEnvelope(v: Value, w: Value)
    requires DeserializeSubTaskExtraInfo(v).Returns? && DeserializeSubTaskExtraInfo(w).Returns?
    requires Index(v, "what") == Index(w, "what") && Index(v, "details") == Index(w, "details")
    ensures DeserializeSubTaskExtraInfo(v).value.details == DeserializeSubTaskExtraInfo(w).value.details
  {
  }

  /** RecruitTagsSelected decodes exactly as RecruitTagsDetected does, and NotEnoughStaff as EnterFacility. */
  lemma SharedShapes(content: Option<Value>)
    ensures
      var selected, detected := DecodeTagged(ExtraInfoTags.RecruitTagsSelected, content), DecodeTagged(ExtraInfoTags.RecruitTagsDetected, content);
      selected.Ok? == detected.Ok? && (selected.Ok? ==> selected.value.selected == detected.value.detected)
      && (selected.Err? ==> selected.error == detected.error)
    ensures
      var staff, entered := DecodeTagged(ExtraInfoTags.NotEnoughStaff, content), DecodeTagged(ExtraInfoTags.EnterFacility, content);
      staff.Ok? == entered.Ok? && (staff.Ok? ==> staff.value.shortOfStaff == entered.value.entered)
      && (staff.Err? ==> staff.error == entered.error)
  {
  }

  // The canonical payloads of the leaf records.

  function StageDropsStatJson(s: StageDropsStat): Value {
    Obj(map["itemId" := Str(s.itemId), "itemName" := Str(s.itemName), "quantity" := Int(s.quantity), "addQuantity" := Int(s.addQuantity)])
  }

  function StageDropsJson(d: StageDropsDetail): Value {
    Obj(map[
      "stage" := Obj(map["stageCode" := Str(d.stage.stageCode), "stageId" := Str(d.stage.stageId)]),
      "stars" := Int(d.stars),
      "stats" := ArrayJson(d.stats, StageDropsStatJson)
    ])
  }

  function RecruitTagsJson(d: RecruitTagsDetectedDetail): Value {
    Obj(map["tags" := StringArrayJson(d.tags)])
  }

  function RecruitResultOperatorJson(o: RecruitResultOperator): Value {
    Obj(map["name" := Str(o.name), "level" := Int(o.level)])
  }

  function RecruitResultItemJson(i: RecruitResultItem): Value {
    Obj(map["tags" := StringArrayJson(i.tags), "level" := Int(i.level), "opers" := ArrayJson(i.operators, RecruitResultOperatorJson)])
  }

  function RecruitResultJson(d: RecruitResultDetail): Value {
    Obj(map["tags" := StringArrayJson(d.tags), "level" := Int(d.level), "result" := ArrayJson(d.result, RecruitResultItemJson)])
  }

  function EnterFacilityJson(d: EnterFacilityDetail): Value {
    Obj(map["facility" := Str(d.facility), "index" := Int(d.index)])
  }

  function DepotItemJson(i: DepotItem): Value {
    Obj(map["id" := Str(i.id), "have" := Int(i.have), "name" := Str(i.name)])
  }

  function DepotJson(d: DepotDetail): Value {
    Obj(map[
      "done" := Bool(d.done),
      "arkplanner" := Obj(map[
        "object" := Obj(map["items" := ArrayJson(d.arkplanner.obj.items, DepotItemJson), "@type" := Str(d.arkplanner.obj.objectType)]),
        "data" := Str(d.arkplanner.data)]),
      "lolicon" := Obj(map["object" := I32MapJson(d.lolicon.obj), "data" := Str(d.lolicon.data)])
    ])
  }

  function OperatorBoxAllItemJson(i: OperatorBoxAllItem): Value {
    Obj(map["id" := Str(i.id), "name" := Str(i.name), "own" := Bool(i.own), "rarity" := Int(i.rarity)])
  }

  function OperatorBoxOwnItemJson(i: OperatorBoxOwnItem): Value {
    Obj(map[
      "id" := Str(i.id), "name" := Str(i.name), "own" := Bool(i.own), "elite" := Int(i.elite),
      "level" := Int(i.level), "potential" := Int(i.potential), "rarity" := Int(i.rarity)
    ])
  }

  function OperBoxJson(d: OperBoxDetail): Value {
    Obj(map[
      "done" := Bool(d.done),
      "all_oper" := ArrayJson(d.allOper, OperatorBoxAllItemJson),
      "own_opes" := ArrayJson(d.ownOpes, OperatorBoxOwnItemJson)
    ])
  }

  /** The `details` a leaf is written with; null for the payload-less cases. */
  function ExtraInfoContentJson(d: SubTaskExtraInfoDetails): Value {
    match d
    case StageDrops(x) => StageDropsJson(x)
    case RecruitTagsDetected(x) => RecruitTagsJson(x)
    case RecruitSpecialTag(x) => Obj(map["tag" := Str(x.tag)])
    case RecruitResult(x) => RecruitResultJson(x)
    case RecruitTagsRefreshed(x) => Obj(map["count" := Int(x.count), "refresh_limit" := Int(x.refreshLimit)])
    case RecruitTagsSelected(x) => RecruitTagsJson(x)
    case RecruitSlotCompleted => Null
    case RecruitError => Null
    case EnterFacility(x) => EnterFacilityJson(x)
    case NotEnoughStaff(x) => EnterFacilityJson(x)
    case ProductOfFacility(x) => Obj(map["product" := Str(x.product), "facility" := Str(x.facility), "index" := Int(x.index)])
    case StageInfo(x) => Obj(map["name" := Str(x.name)])
    case StageInfoError => Null
    case PenguinId(x) => Obj(map["id" := Str(x.id)])
    case Depot(x) => DepotJson(x)
    case OperBox(x) => OperBoxJson(x)
    case UnsupportedLevel => Null
  }

  lemma StageDropsRoundTrip(d: StageDropsDetail)
    ensures DecodeStageDrops(StageDropsJson(d)) == Ok(d)
  {
    ArrayRoundTrip(d.stats, StageDropsStatJson, DecodeStageDropsStat);
  }

  lemma RecruitResultRoundTrip(d: RecruitResultDetail)
    ensures DecodeRecruitResult(RecruitResultJson(d)) == Ok(d)
  {
    StringArrayRoundTrip(d.tags);
    forall i: RecruitResultItem
      ensures DecodeRecruitResultItem(RecruitResultItemJson(i)) == Ok(i)
    {
      StringArrayRoundTrip(i.tags);
      ArrayRoundTrip(i.operators, RecruitResultOperatorJson, DecodeRecruitResultOperator);
    }
    ArrayRoundTrip(d.result, RecruitResultItemJson, DecodeRecruitResultItem);
  }

  lemma DepotRoundTrip(d: DepotDetail)
    ensures DecodeDepot(DepotJson(d)) == Ok(d)
  {
    ArrayRoundTrip(d.arkplanner.obj.items, DepotItemJson, DecodeDepotItem);
    I32MapRoundTrip(d.lolicon.obj);
  }

  lemma OperatorBoxOwnItemRoundTrip(i: OperatorBoxOwnItem)
    ensures DecodeOperatorBoxOwnItem(OperatorBoxOwnItemJson(i)) == Ok(i)
  {
    var v := OperatorBoxOwnItemJson(i);
    assert StringField(v, "id") == Ok(i.id) && StringField(v, "name") == Ok(i.name);
    assert BoolField(v, "own") == Ok(i.own);
    assert I32Field(v, "elite") == Ok(i.elite) && I32Field(v, "level") == Ok(i.level);
    assert I32Field(v, "potential") == Ok(i.potential) && I32Field(v, "rarity") == Ok(i.rarity);
  }

  lemma OperBoxRoundTrip(d: OperBoxDetail)
    ensures DecodeOperBox(OperBoxJson(d)) == Ok(d)
  {
    ArrayRoundTrip(d.allOper, OperatorBoxAllItemJson, DecodeOperatorBoxAllItem);
    forall i: OperatorBoxOwnItem
      ensures DecodeOperatorBoxOwnItem(OperatorBoxOwnItemJson(i)) == Ok(i)
    {
      OperatorBoxOwnItemRoundTrip(i);
    }
    ArrayRoundTrip(d.ownOpes, OperatorBoxOwnItemJson, DecodeOperatorBoxOwnItem);
  }

  // The payload round trip, three groups of cases at a time so that each proof stays small.

  // The round trip of the payload cases is proved in groups, one lemma per
  // group, so that each proof stays small: the nested records one case at a
  // time, then the recruitment cases, then the cases whose fields are all
  // strings and integers.

  lemma PayloadRoundTripStageDrops(d: SubTaskExtraInfoDetails, t: ExtraInfoTags.Tag)
    ensures d.StageDrops? && t == ExtraInfoTags.StageDrops ==> DecodePayload(t, ExtraInfoContentJson(d)) == Ok(d)
  {
    if d.StageDrops? {
      StageDropsRoundTrip(d.stageDrops);
      assert ExtraInfoContentJson(d) == StageDropsJson(d.stageDrops);
    }
  }

  lemma PayloadRoundTripDepot(d: SubTaskExtraInfoDetails, t: ExtraInfoTags.Tag)
    ensures d.Depot? && t == ExtraInfoTags.Depot ==> DecodePayload(t, ExtraInfoContentJson(d)) == Ok(d)
  {
    if d.Depot? {
      DepotRoundTrip(d.depot);
      assert ExtraInfoContentJson(d) == DepotJson(d.depot);
    }
  }

  lemma PayloadRoundTripOperBox(d: SubTaskExtraInfoDetails, t: ExtraInfoTags.Tag)
    ensures d.OperBox? && t == ExtraInfoTags.OperBox ==> DecodePayload(t, ExtraInfoContentJson(d)) == Ok(d)
  {
    if d.OperBox? {
      OperBoxRoundTrip(d.operBox);
      assert ExtraInfoContentJson(d) == OperBoxJson(d.operBox);
    }
  }

  lemma PayloadRoundTripRecruit(d: SubTaskExtraInfoDetails, t: ExtraInfoTags.Tag)
    ensures HasTag(d, t) && t in {ExtraInfoTags.RecruitTagsDetected, ExtraInfoTags.RecruitSpecialTag, ExtraInfoTags.RecruitResult,
                                  ExtraInfoTags.RecruitTagsRefreshed, ExtraInfoTags.RecruitTagsSelected} ==>
      DecodePayload(t, ExtraInfoContentJson(d)) == Ok(d)
  {
    match d
    case RecruitTagsDetected(x) => StringArrayRoundTrip(x.tags);
    case RecruitResult(x) => RecruitResultRoundTrip(x);
    case RecruitTagsSelected(x) => StringArrayRoundTrip(x.tags);
    case _ =>
  }

  lemma PayloadRoundTripFlat(d: SubTaskExtraInfoDetails, t: ExtraInfoTags.Tag)
    ensures HasTag(d, t) && t in {ExtraInfoTags.EnterFacility, ExtraInfoTags.NotEnoughStaff, ExtraInfoTags.ProductOfFacility,
                                  ExtraInfoTags.StageInfo, ExtraInfoTags.PenguinId} ==>
      DecodePayload(t, ExtraInfoContentJson(d)) == Ok(d)
  {
  }

  /** Each case with a payload is decoded back from its tag and canonical content. */
  lemma PayloadRoundTrip(d: SubTaskExtraInfoDetails, t: ExtraInfoTags.Tag)
    requires HasTag(d, t) && !ExtraInfoTags.IsMarker(t)
    ensures DecodePayload(t, ExtraInfoContentJson(d)) == Ok(d)
  {
    PayloadRoundTripStageDrops(d, t);
    PayloadRoundTripDepot(d, t);
    PayloadRoundTripOperBox(d, t);
    PayloadRoundTripRecruit(d, t);
    PayloadRoundTripFlat(d, t);
  }

  /** Each of the seventeen cases is decoded back from its tag and canonical content. */
  lemma ExtraInfoContentRoundTrip(d: SubTaskExtraInfoDetails)
    ensures DecodeExtraInfoContent(ExtraInfoName(d), Some(ExtraInfoContentJson(d))) == Ok(d)
  {
    ExtraInfoTags.NameRoundTrip(TagOf(d));
    HasTagIsTagOf(d, TagOf(d));
    if !ExtraInfoTags.IsMarker(TagOf(d)) {
      PayloadRoundTrip(d, TagOf(d));
    }
  }

  function SubTaskExtraInfoJson(e: SubTaskExtraInfoDetail): Value {
    Obj(map[
      "taskchain" := TaskChainJson(e.taskchain),
      "class" := Str(e.className),
      "uuid" := Str(e.uuid),
      "what" := Str(ExtraInfoName(e.details)),
      "details" := ExtraInfoContentJson(e.details)
    ])
  }

  /** Every extra-info detail, whichever of the seventeen cases it holds, is decoded back from its canonical payload. */
  lemma SubTaskExtraInfoRoundTrip(e: SubTaskExtraInfoDetail)
    ensures DeserializeSubTaskExtraInfo(SubTaskExtraInfoJson(e)) == Returns(e)
  {
    TaskChainJsonRoundTrip(e.taskchain);
    ExtraInfoContentRoundTrip(e.details);
  }
}

/**
 * The seventeen tags of the extra-info leaf shapes: the names the `what`
 * field may carry.
 */
module ExtraInfoTags {
  import opened Json

  datatype Tag =
    | StageDrops | RecruitTagsDetected | RecruitSpecialTag | RecruitResult | RecruitTagsRefreshed
    | RecruitTagsSelected | RecruitSlotCompleted | RecruitError | EnterFacility | NotEnoughStaff
    | ProductOfFacility | StageInfo | StageInfoError | PenguinId | Depot | OperBox | UnsupportedLevel

  function Name(t: Tag): string {
    match t
    case StageDrops => "StageDrops"
    case RecruitTagsDetected => "RecruitTagsDetected"
    case RecruitSpecialTag => "RecruitSpecialTag"
    case RecruitResult => "RecruitResult"
    case RecruitTagsRefreshed => "RecruitTagsRefreshed"
    case RecruitTagsSelected => "RecruitTagsSelected"
    case RecruitSlotCompleted => "RecruitSlotCompleted"
    case RecruitError => "RecruitError"
    case EnterFacility => "EnterFacility"
    case NotEnoughStaff => "NotEnoughStaff"
    case ProductOfFacility => "ProductOfFacility"
    case StageInfo => "StageInfo"
    case StageInfoError => "StageInfoError"
    case PenguinId => "PenguinId"
    case Depot => "Depot"
    case OperBox => "OperBox"
    case UnsupportedLevel => "UnsupportedLevel"
  }

  /** The tag a `what` string names, matched verbatim; no tag for any other string. */
  function FromName(s: string): (r: Option<Tag>)
    ensures r.Some? ==> Name(r.value) == s
    ensures r.None? ==> forall t: Tag :: Name(t) != s
  {
    match s
    case "StageDrops" => Some(StageDrops)
    case "RecruitTagsDetected" => Some(RecruitTagsDetected)
    case "RecruitSpecialTag" => Some(RecruitSpecialTag)
    case "RecruitResult" => Some(RecruitResult)
    case "RecruitTagsRefreshed" => Some(RecruitTagsRefreshed)
    case "RecruitTagsSelected" => Some(RecruitTagsSelected)
    case "RecruitSlotCompleted" => Some(RecruitSlotCompleted)
    case "RecruitError" => Some(RecruitError)
    case "EnterFacility" => Some(EnterFacility)
    case "NotEnoughStaff" => Some(NotEnoughStaff)
    case "ProductOfFacility" => Some(ProductOfFacility)
    case "StageInfo" => Some(StageInfo)
    case "StageInfoError" => Some(StageInfoError)
    case "PenguinId" => Some(PenguinId)
    case "Depot" => Some(Depot)
    case "OperBox" => Some(OperBox)
    case "UnsupportedLevel" => Some(UnsupportedLevel)
    case _ => None
  }

  lemma NameRoundTrip(t: Tag)
    ensures FromName(Name(t)) == Some(t)
  {
  }

  /** The cases that carry no payload. */
  predicate IsMarker(t: Tag) {
    t in {RecruitSlotCompleted, RecruitError, StageInfoError, UnsupportedLevel}
  }
}
