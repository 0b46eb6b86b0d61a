# maa-types: the MaaCore message decoder and task parameters, in Dafny

MaaCore, the automation engine behind MAA, talks to its client through
callbacks: each callback carries a numeric message code and a JSON payload.
`AsstMessage::get` turns such a pair into one of nine typed messages. Two of
those kinds dispatch a second time on a string inside the payload: a subtask
progress message on `subtask`, and a subtask extra-info message on `what`,
which selects one of seventeen leaf shapes. In the other direction, a client
appends tasks to the engine with an `AsstTaskParam`: a task name plus a JSON
record of parameters, each record with its own default values.

The project models both directions.

- `json.dfy` (module `Json`): the parsed JSON value, payload text (which
  either parses to a value or does not), serde's derived deserializers for
  the field types the protocol uses, and the three failure layers kept apart
  throughout: a `Result` error, a `MessageParseError` returned by `get`, and
  a panic (`Run.Panics`) raised by `unwrap` or `panic!`.
- `taskchain.dfy` (module `TaskChains`): the 17 task chains,
  `TaskChainStatus::from` and `TaskChainDetail::new`.
- `detail.dfy` (module `Details`): the records of codes 1 to 4.
- `subtask.dfy` (modules `SubTasks` and `ExtraInfoTags`): the 22 task names,
  `SubTaskStatus::from`, `SubTaskDetail::new`, the leaf records, the
  adjacently tagged `SubTaskExtraInfoDetails` and the hand-written two-phase
  `SubTaskExtraInfoDetail` deserializer.
- `message.dfy` (module `Messages`): `AsstMessage`, `MessageParseError` and
  `AsstMessage::get`.
- `task.dfy` (module `TaskParams`): the parameter records, their defaults,
  their JSON form, and `name`, `param` and `enabled`.

Every decoder has a canonical encoder beside it (the `...Json` functions),
and round-trip lemmas show that each message and each record is decoded back
from its canonical payload. For the outbound side, lemmas show that the task
name together with its JSON parameters determines the task.

Three facts about the code that the model keeps as they are:

- An unknown `subtask` or `what` discriminant terminates the process
  (`panic!` at src/message/detail/subtask.rs:82, `unwrap` at
  src/message/detail/subtask.rs:278). `get` returns no error for it; the
  model panics.
- A chain progress payload names its chain under the key `taskchain`
  (src/message/detail/taskchain.rs:94).
- The subtask `Task` enum has 22 names (src/message/detail/subtask.rs:9-32).

## Model

| member | source | states |
|---|---|---|
| Json.Unwrap | src/message/detail/taskchain.rs:93-96 | `unwrap` returns exactly when the deserializer succeeded, with its value, and otherwise panics with that deserializer's error |
| Json.DecodeItems | src/message/detail/mod.rs:46 | a `Vec` decodes exactly when every element does; the result has the payload's length and each element is the decoded item at the same position |
| Json.DecodeI32Map | src/message/detail/subtask.rs:196 | a `HashMap<String, i32>` decodes exactly when the value is an object whose every value is an i32; the map has the object's keys and values |
| Json.ArrayRoundTrip | src/message/detail/mod.rs:46 | whenever an element decoder inverts an element encoder, the array decoder inverts the array encoder |
| Json.StringArrayRoundTrip | src/message/detail/subtask.rs:112 | a list of strings is decoded back from its JSON array |
| Json.I32MapRoundTrip | src/message/detail/subtask.rs:196 | a string-to-i32 map is decoded back from its JSON object |
| TaskChains.TaskChainName | src/message/detail/taskchain.rs:29-48 | the Display text of a chain is its variant identifier; it has no contract of its own, and TaskChainNameRoundTrip and TaskChainNameInjective state that it names each chain uniquely |
| TaskChains.TaskChainStatusName | src/message/detail/taskchain.rs:61-68 | the Display text of a status is its variant identifier; it has no contract of its own, and TaskChainStatusNameInjective states its properties |
| TaskChains.TaskChainFromName | src/message/detail/taskchain.rs:8-27 | a string is accepted only as the variant whose name it is |
| TaskChains.TaskChainNameRoundTrip | src/message/detail/taskchain.rs:8-27 | every one of the 17 chains is read back from its name |
| TaskChains.TaskChainNameInjective | src/message/detail/taskchain.rs:29-48 | distinct chains display under distinct names |
| TaskChains.DecodeTaskChain | src/message/detail/taskchain.rs:8-27 | a chain decodes exactly from a string naming a variant; the result displays as that string; any other string is an unknown-variant error |
| TaskChains.TaskChainJsonRoundTrip | src/message/detail/taskchain.rs:8-27 | every chain is decoded back from its JSON string |
| TaskChains.TaskChainStatusNameInjective | src/message/detail/taskchain.rs:61-68 | distinct statuses display distinctly, each with the prefix `TaskChain` |
| TaskChains.TaskChainStatusFrom | src/message/detail/taskchain.rs:70-80 | `from` returns exactly for 10000, 10001, 10002 and 10004, never the extra-info status, and a status whose code is the input; any other code panics naming it |
| TaskChains.TaskChainStatusCodeRoundTrip | src/message/detail/taskchain.rs:70-80 | every status but the extra-info one comes back from its code; the extra-info code 10003 panics |
| TaskChains.NewTaskChainDetail | src/message/detail/taskchain.rs:90-103 | `new` returns exactly for a chain code with parsable text holding a known `taskchain`, a string `uuid` and an i32 `taskid`; the fields are those of the payload and the status is that of the code; an unknown code panics naming it |
| TaskChains.TaskChainDetailSources | src/message/detail/taskchain.rs:91-96 | the status depends on the code alone, and chain, uuid and task id on the payload alone |
| TaskChains.TaskChainDetailRoundTrip | src/message/detail/taskchain.rs:82-103 | every chain detail with a progress status is rebuilt from its code and canonical payload |
| Details.DecodeInitFailed | src/message/detail/mod.rs:6-11 | decodes exactly when `what`, `why` and `details` are strings, into those strings; when `why` and `details` are strings and `what` is absent, the error is that `what` is missing |
| Details.ConnectionInfoWhatName | src/message/detail/mod.rs:20-32 | the name a connection event is written with; it has no contract of its own, and ConnectionInfoWhatRoundTrip states that each event is read back from it |
| Details.ConnectionInfoWhatFromName | src/message/detail/mod.rs:20-32 | a string is accepted only as the variant whose name it is |
| Details.ConnectionInfoWhatRoundTrip | src/message/detail/mod.rs:20-32 | every one of the ten connection events is read back from its name |
| Details.DecodeConnectionInfoWhat | src/message/detail/mod.rs:20-32 | decodes exactly from a string naming a variant; any other string is an unknown-variant error |
| Details.DecodeConnectionInfoDetails | src/message/detail/mod.rs:13-18 | decodes exactly when `adb`, `address` and `config` are strings, into those strings |
| Details.DecodeConnectionInfo | src/message/detail/mod.rs:34-40 | decodes exactly when `what` names an event, `why` and `uuid` are strings and `details` decodes; each field comes from its key |
| Details.DecodeAllTasksCompleted | src/message/detail/mod.rs:42-47 | decodes exactly when `chain` names a chain, `uuid` is a string and `tasks` is an array of i32; the ids keep the payload's order |
| Details.DecodeAsyncCallInfoDetails | src/message/detail/mod.rs:49-53 | decodes exactly when `ret` is a boolean and `cost` an i64, into those values |
| Details.DecodeAsyncCallInfo | src/message/detail/mod.rs:49-61 | decodes exactly when `uuid` and `what` are strings, `async_call_id` an i32, `details.ret` a boolean and `details.cost` an i64; each field comes from its key |
| Details.InitFailedRoundTrip | src/message/detail/mod.rs:6-11 | every init-failed record is decoded back from its canonical payload |
| Details.ConnectionInfoRoundTrip | src/message/detail/mod.rs:13-40 | every connection-info record is decoded back from its canonical payload |
| Details.AllTasksCompletedRoundTrip | src/message/detail/mod.rs:42-47 | every all-tasks-completed record is decoded back from its canonical payload |
| Details.AsyncCallInfoRoundTrip | src/message/detail/mod.rs:49-61 | every async-call record is decoded back from its canonical payload |
| SubTasks.TaskName | src/message/detail/subtask.rs:8-32 | the name a task is written with; it has no contract of its own, and TaskNameRoundTrip states that each task is read back from it |
| SubTasks.TaskFromName | src/message/detail/subtask.rs:8-32 | a string is accepted only as the task whose name it is |
| SubTasks.TaskNameRoundTrip | src/message/detail/subtask.rs:8-32 | every one of the 22 task names is read back as its task |
| SubTasks.DecodeTask | src/message/detail/subtask.rs:8-32 | a task decodes exactly from a string naming one; the result has that name |
| SubTasks.DecodeProcessTaskDetails | src/message/detail/subtask.rs:34-41 | decodes exactly when `task` names a task and `action`, `exec_times`, `max_times` and `algorithm` are i32; each field comes from its key |
| SubTasks.SubTaskStatusFrom | src/message/detail/subtask.rs:51-61 | `from` returns exactly for 20000, 20001, 20002 and 20004, with a status whose code is the input; any other code panics naming it |
| SubTasks.SubTaskStatusCodeRoundTrip | src/message/detail/subtask.rs:51-61 | every subtask status comes back from its code |
| SubTasks.NewSubTaskDetail | src/message/detail/subtask.rs:71-85 | `new` returns exactly for a subtask code with parsable text whose `subtask` is `ProcessTask` and whose `details` decode; a different `subtask` string panics naming it |
| SubTasks.SubTaskDetailRoundTrip | src/message/detail/subtask.rs:63-85 | every subtask detail is rebuilt from its code and canonical payload |
| SubTasks.DecodeStageDropsStage | src/message/detail/subtask.rs:87-92 | decodes exactly from the camel-case keys `stageCode` and `stageId` |
| SubTasks.DecodeStageDropsStat | src/message/detail/subtask.rs:94-101 | decodes exactly from the camel-case keys `itemId`, `itemName`, `quantity` and `addQuantity` |
| SubTasks.DecodeStageDrops | src/message/detail/subtask.rs:103-108 | decodes exactly when `stage` decodes, `stars` is an i32 and `stats` is an array of stats; each field comes from its key |
| SubTasks.DecodeRecruitTagsDetected | src/message/detail/subtask.rs:110-113 | decodes exactly when `tags` is an array of strings, into those strings |
| SubTasks.DecodeRecruitSpecialTag | src/message/detail/subtask.rs:115-118 | decodes exactly when `tag` is a string, into that string |
| SubTasks.DecodeRecruitResultOperator | src/message/detail/subtask.rs:120-124 | decodes exactly when `name` is a string and `level` an i32, into those values |
| SubTasks.DecodeRecruitResultItem | src/message/detail/subtask.rs:126-132 | decodes exactly when `tags` is an array of strings, `level` an i32 and `opers` an array of operators; the operators are read from the key `opers` |
| SubTasks.DecodeRecruitResult | src/message/detail/subtask.rs:134-139 | decodes exactly when `tags` is an array of strings, `level` an i32 and `result` an array of items; each field comes from its key |
| SubTasks.DecodeRecruitTagsRefreshed | src/message/detail/subtask.rs:141-145 | decodes exactly when `count` and `refresh_limit` are i32, into those values |
| SubTasks.DecodeEnterFacility | src/message/detail/subtask.rs:149-153 | decodes exactly when `facility` is a string and `index` an i32, into those values |
| SubTasks.DecodeProductOfFacility | src/message/detail/subtask.rs:157-162 | decodes exactly when `product` and `facility` are strings and `index` an i32, into those values |
| SubTasks.DecodeStageInfo | src/message/detail/subtask.rs:164-167 | decodes exactly when `name` is a string, into that string |
| SubTasks.DecodePenguinId | src/message/detail/subtask.rs:169-172 | decodes exactly when `id` is a string, into that string |
| SubTasks.DecodeDepotItem | src/message/detail/subtask.rs:174-179 | decodes exactly when `id` and `name` are strings and `have` an i32, into those values |
| SubTasks.DecodeDepotArkPlannerObject | src/message/detail/subtask.rs:181-186 | decodes exactly when `items` is an array of depot items and `@type` a string; the object type is read from the key `@type` |
| SubTasks.DecodeDepotArkPlanner | src/message/detail/subtask.rs:188-192 | decodes exactly when `object` decodes and `data` is a string; each field comes from its key |
| SubTasks.DecodeDepotLolicon | src/message/detail/subtask.rs:194-198 | decodes exactly when `object` is a map of i32 values and `data` a string; each field comes from its key |
| SubTasks.DecodeDepot | src/message/detail/subtask.rs:200-205 | decodes exactly when `done` is a boolean and `arkplanner` and `lolicon` decode; each field comes from its key |
| SubTasks.DecodeOperatorBoxAllItem | src/message/detail/subtask.rs:207-213 | decodes exactly when `id` and `name` are strings, `own` a boolean and `rarity` an i32, into those values |
| SubTasks.DecodeOperatorBoxOwnItem | src/message/detail/subtask.rs:215-224 | decodes exactly when `id` and `name` are strings, `own` a boolean and `elite`, `level`, `potential` and `rarity` are i32, into those values |
| SubTasks.DecodeOperBox | src/message/detail/subtask.rs:226-231 | decodes exactly when `done` is a boolean and `all_oper` and `own_opes` are arrays of their items; each field comes from its key |
| SubTasks.DecodeMarker | src/message/detail/subtask.rs:233-253 | a payload-less case decodes exactly when its content is absent or null, and yields the case of its tag |
| SubTasks.DecodePayload | src/message/detail/subtask.rs:233-253 | a case with a payload yields the case of its tag |
| SubTasks.DecodeTagged | src/message/detail/subtask.rs:233-253 | a tagged leaf yields the case of its tag; a marker needs absent or null content; a payload case without content reports `details` missing |
| SubTasks.DecodeExtraInfoContent | src/message/detail/subtask.rs:233-253 | the leaf decoded is exactly the case named by `what`; a `what` naming no case is an unknown-variant error |
| SubTasks.DecodeExtraInfoDetails | src/message/detail/subtask.rs:274-278 | the rebuilt `{what, details}` object decodes to the case its `what` names, with `details` as its content |
| SubTasks.DeserializeSubTaskExtraInfo | src/message/detail/subtask.rs:263-286 | returns exactly when the envelope fields `taskchain`, `class`, `uuid` and `what` have their types and the leaf decodes; the fields come from their keys; an unknown `what` panics with the unknown-variant error |
| SubTasks.LeafIgnoresEnvelope | src/message/detail/subtask.rs:268-283 | two payloads that agree on `what` and `details` give the same leaf, whatever their envelope fields |
| SubTasks.SharedShapes | src/message/detail/subtask.rs:147-155 | RecruitTagsSelected decodes exactly as RecruitTagsDetected does, and NotEnoughStaff exactly as EnterFacility, with equal results and equal errors |
| SubTasks.StageDropsRoundTrip | src/message/detail/subtask.rs:87-108 | every stage-drops record is decoded back from its canonical payload |
| SubTasks.RecruitResultRoundTrip | src/message/detail/subtask.rs:120-139 | every recruit-result record is decoded back from its canonical payload |
| SubTasks.DepotRoundTrip | src/message/detail/subtask.rs:174-205 | every depot record is decoded back from its canonical payload |
| SubTasks.OperatorBoxOwnItemRoundTrip | src/message/detail/subtask.rs:215-224 | every owned-operator record is decoded back from its canonical payload |
| SubTasks.OperBoxRoundTrip | src/message/detail/subtask.rs:226-231 | every operator-box record is decoded back from its canonical payload |
| SubTasks.PayloadRoundTrip | src/message/detail/subtask.rs:233-253 | each of the thirteen cases with a payload is decoded back from its tag and canonical content |
| SubTasks.ExtraInfoContentRoundTrip | src/message/detail/subtask.rs:233-253 | each of the seventeen cases is decoded back from its name and canonical content |
| SubTasks.SubTaskExtraInfoRoundTrip | src/message/detail/subtask.rs:255-286 | every extra-info detail is decoded back from its canonical payload |
| ExtraInfoTags.FromName | src/message/detail/subtask.rs:233-253 | a `what` string selects the case whose name it is, and none when no case has that name |
| ExtraInfoTags.NameRoundTrip | src/message/detail/subtask.rs:233-253 | each of the seventeen case names selects its case |
| Messages.ParseValue | src/message/mod.rs:90-93 | parsing succeeds exactly for text that parses, with its value; otherwise it is a parse error |
| Messages.FromDecode | src/message/mod.rs:57-64 | a deserializer's error becomes a `JsonParseError` carrying it; a success passes through |
| Messages.Get | src/message/mod.rs:67-104 | a message returned carries the input code; exactly the unrecognised codes give `UnknownMessageCodeError`; only progress codes and 20003 can panic; only codes 1 to 4, 10003 and 20003 give parse errors; code 0 is an internal error whatever the payload; codes 1 to 4 and 10003 succeed exactly when the payload decodes; unparsable text under a code that parses it is a parse error; what the returned message holds is stated by GetCarriesPayload |
| Messages.GetCarriesPayload | src/message/mod.rs:67-104 | the message `get` returns holds the decoded payload: the record the code's deserializer produced for codes 1 to 4, the parsed value for 10003, and the detail `TaskChainDetail::new`, `SubTaskDetail::new` or the two-phase deserializer built, returning exactly when those do |
| Messages.EngineMessage | src/message/mod.rs:70-85 | codes 1 to 4 succeed exactly when the text parses and decodes into the code's record, and the message holds that record; every failure is a parse error |
| Messages.ChainMessage | src/message/mod.rs:86-89 | a chain progress code returns exactly when `TaskChainDetail::new` does, with a message holding the detail it built |
| Messages.ChainExtraInfoMessage | src/message/mod.rs:90-93 | code 10003 accepts every parsable payload as it stands |
| Messages.SubTaskMessage | src/message/mod.rs:94-97 | a subtask progress code returns exactly when `SubTaskDetail::new` does, with a message holding the detail it built |
| Messages.SubTaskExtraInfoMessage | src/message/mod.rs:98-101 | code 20003 is a parse error exactly for unparsable text; otherwise it returns exactly when the two-phase deserializer does, with its result |
| Messages.EngineMessageRoundTrip | src/message/mod.rs:70-85 | each message of codes 1 to 4 is decoded back from its canonical payload |
| Messages.EngineRoundTrip | src/message/mod.rs:69-85 | `get` gives back each message of codes 0 to 4 from its code and canonical payload |
| Messages.ChainRoundTrip | src/message/mod.rs:86-93 | `get` gives back each chain message it can produce from its code and canonical payload |
| Messages.SubTaskProgressRoundTrip | src/message/mod.rs:94-97 | `get` gives back each subtask progress message from its code and canonical payload |
| Messages.SubTaskExtraMessageRoundTrip | src/message/mod.rs:98-101 | code 20003 gives back each extra-info detail from its canonical payload |
| Messages.SubTaskExtraRoundTrip | src/message/mod.rs:98-101 | `get` gives back each subtask extra-info message from its code and canonical payload |
| Messages.GetRoundTrip | src/message/mod.rs:67-104 | `get` gives back every message it can produce from its code and canonical payload |
| Messages.EncodingInjective | src/message/mod.rs:45-55 | two producible messages with the same code and payload are the same message |
| Messages.InternalErrorExample | src/message/mod.rs:30-43 | code 0 with the empty object is an internal error |
| TaskParams.ClientTypeNameInjective | src/task.rs:11-20 | distinct client types serialize to distinct strings (`Txwy` as `txwy`) |
| TaskParams.ServerNameInjective | src/task.rs:54-60 | distinct servers serialize to distinct strings |
| TaskParams.FacilityNameInjective | src/task.rs:149-158 | distinct facilities serialize to distinct strings |
| TaskParams.DronesUsageNameInjective | src/task.rs:160-169 | distinct drone usages serialize to distinct strings (`_NotUse` included) |
| TaskParams.StartUpDefault | src/task.rs:31-39 | the start-up default is enabled, chooses no client type and does not start the game |
| TaskParams.CloseDownDefault | src/task.rs:48-52 | the close-down default is enabled |
| TaskParams.FightDefault | src/task.rs:81-98 | the fight default is enabled, names no stage, spends no medicine or stone, sets no drop targets and allows i32::MAX runs |
| TaskParams.RecruitDefault | src/task.rs:121-147 | the recruit default is enabled, does not refresh, selects and confirms nothing, recruits 0 times, sets the time, does not expedite, allows i32::MAX expedites and skips robots |
| TaskParams.InfrastDefault | src/task.rs:187-210 | the infrastructure default is enabled, in mode 0, with threshold 0.3 |
| TaskParams.MallDefault | src/task.rs:223-233 | the mall default is enabled, does not shop, has no buy-first list or blacklist, and shops when credit is full |
| TaskParams.RoguelikeDefault | src/task.rs:256-274 | the roguelike default is enabled, picks no theme, runs mode 0 with investment on, and allows i32::MAX starts and investments |
| TaskParams.NewRecruitDefault | src/task.rs:121-147 | the loop over the levels 3 to 6 builds the default recruit record |
| TaskParams.RecruitmentTimeDefault | src/task.rs:123-139 | the default recruitment times have exactly the keys "3", "4", "5" and "6", each mapped to 540 |
| TaskParams.InfrastDefaultFacilities | src/task.rs:187-210 | the default facility list holds all seven facilities once each, in declaration order, and drones default to `_NotUse` |
| TaskParams.Name | src/task.rs:285-289 | `name()` is one of the eight variant identifiers |
| TaskParams.Param | src/task.rs:291-295 | `param()` is a JSON object that always holds a boolean `enable` |
| TaskParams.Enabled | src/task.rs:297-301 | `enabled()` is the boolean that `param()` sends under `enable` |
| TaskParams.NameIdentifiesKind | src/task.rs:285-289 | two task parameters have the same name exactly when they are of the same kind |
| TaskParams.AwardNamedByVariant | src/task.rs:306-315 | an award task serializes like a close-down task with the same record but is named `Award` |
| TaskParams.SerializedRenames | src/task.rs:62-77 | the Fight record is written under `DrGrandet`, never `dr_grandet`, and client type `Txwy` as `txwy` |
| TaskParams.StartUpJsonInjective | src/task.rs:22-27 | the JSON of a start-up record determines the record |
| TaskParams.FightJsonInjective | src/task.rs:62-77 | the JSON of a fight record determines the record |
| TaskParams.RecruitJsonInjective | src/task.rs:100-117 | the JSON of a recruit record determines the record |
| TaskParams.InfrastJsonInjective | src/task.rs:171-183 | the JSON of an infrastructure record determines the record |
| TaskParams.MallJsonInjective | src/task.rs:212-219 | the JSON of a mall record determines the record |
| TaskParams.RoguelikeJsonInjective | src/task.rs:237-252 | the JSON of a roguelike record determines the record |
| TaskParams.NameAndParamDetermineTask | src/task.rs:283-301 | two tasks have the same name and the same JSON parameters exactly when they are equal |

## Left out

- Payload text is taken already parsed. `serde_json::from_str` becomes "the text parses to this value, or it does not". The text grammar, duplicate keys, escapes and number syntax are not modelled.
- Which error a deserializer reports when a payload has several defects is not modelled. serde reads the keys in the order of the text and stops at the first mistyped field, reporting missing fields only afterwards; the models check the fields in declaration order. The contracts state whether decoding succeeds, the decoded values, and an error only for payloads whose sole defect determines it.
- serde's alternative input forms are not modelled: a struct given as a JSON array, a unit variant given as `{"Name": null}`, and an adjacently tagged enum given as a `[tag, content]` array.
- Code 20003 is read with `from_str`, which checks for trailing characters only after the hand-written deserializer has run. For text holding a valid value followed by other characters, the code panics when that leading value fails the envelope or leaf decoding, and returns a `JsonParseError` when it decodes. The model treats all such text as unparsable, so it returns the parse error in both cases.
- `Debug` formatting and the `Display` text of `MessageParseError` are not modelled. The `Display` of the enums (`enum_display!`) is modelled by the name functions.
- `param()` prints the JSON value to a string with `serde_json::to_string(..).unwrap()`. The model gives the JSON value, not the text.
- `InfrastParams.threshold` is an `f64`. The model holds it as a real number (0.3 by default). NaN, infinities and rounding are not represented.
- `HashMap` iteration order is not represented: maps are Dafny maps.
- `Decimal` covers only non-negative numbers, the only ones the recruit loop formats.
- src/lib.rs is not part of this model. It only wires modules together.
- SubTasks.DecodePayload: its contract names only the case chosen. The contents of each of the thirteen shapes are fixed by the leaf decoders and by `PayloadRoundTrip`, not by this contract.
- SubTasks.DecodeStageDrops and the other leaf decoders state when they succeed and the decoded values, but not which field a failure names.
