/**
 * The outbound side of the protocol: the parameter records a client hands
 * to MaaCore when it appends a task, their default values, and the three
 * accessors every task kind shares (`name`, `param`, `enabled`).
 *
 * `param` sends the record as JSON; the model gives the JSON value the
 * record serializes to (serde's derived `Serialize`: a struct becomes an
 * object keyed by its field names, `None` becomes null, a unit enum variant
 * becomes its name, a `Vec` an array and a `HashMap` an object).
 */
module TaskParams {
  import opened Json

  // ---------------------------------------------------------------------
  // Enumerations and their serialized names

  datatype ClientType = Official | Bilibili | Txwy | YoStarEN | YoStarJP | YoStarKR

  /** `Txwy` is the one variant serialized under another name. */
  function ClientTypeName(c: ClientType): string {
    match c
    case Official => "Official"
    case Bilibili => "Bilibili"
    case Txwy => "txwy"
    case YoStarEN => "YoStarEN"
    case YoStarJP => "YoStarJP"
    case YoStarKR => "YoStarKR"
  }

  lemma ClientTypeNameInjective()
    ensures forall c, d :: ClientTypeName(c) == ClientTypeName(d) ==> c == d
  {
  }

  datatype Server = CN | US | JP | KR

  function ServerName(s: Server): string {
    match s
    case CN => "CN"
    case US => "US"
    case JP => "JP"
    case KR => "KR"
  }

  lemma ServerNameInjective()
    ensures forall s, t :: ServerName(s) == ServerName(t) ==> s == t
  {
  }

  datatype InfrastFacility = Mfg | Trade | Power | Control | Reception | Office | Dorm

  function FacilityName(f: InfrastFacility): string {
    match f
    case Mfg => "Mfg"
    case Trade => "Trade"
    case Power => "Power"
    case Control => "Control"
    case Reception => "Reception"
    case Office => "Office"
    case Dorm => "Dorm"
  }

  /** Position of a facility in the enum's declaration. */
  function FacilityOrdinal(f: InfrastFacility): nat {
    match f
    case Mfg => 0
    case Trade => 1
    case Power => 2
    case Control => 3
    case Reception => 4
    case Office => 5
    case Dorm => 6
  }

  lemma FacilityNameInjective()
    ensures forall f, g :: FacilityName(f) == FacilityName(g) ==> f == g
  {
  }

  /** The first variant is declared `_NotUse` and is serialized under that identifier. */
  datatype DronesUsage = NotUse | Money | SyntheticJade | CombatRecord | PureGold | OriginStone | Chip

  function DronesUsageName(u: DronesUsage): string {
    match u
    case NotUse => "_NotUse"
    case Money => "Money"
    case SyntheticJade => "SyntheticJade"
    case CombatRecord => "CombatRecord"
    case PureGold => "PureGold"
    case OriginStone => "OriginStone"
    case Chip => "Chip"
  }

  lemma DronesUsageNameInjective()
    ensures forall u, w :: DronesUsageName(u) == DronesUsageName(w) ==> u == w
  {
  }

  // ---------------------------------------------------------------------
  // Parameter records and their defaults

  datatype StartUpParams = StartUpParams(enable: bool, clientType: Option<ClientType>, startGameEnabled: bool)

  /** Enabled; no client type is chosen and the game is not started. */
  function StartUpDefault(): (d: StartUpParams)
    ensures d.enable && d.clientType.None? && !d.startGameEnabled
  {
    StartUpParams(true, None, false)
  }

  datatype CloseDownParams = CloseDownParams(enable: bool)

  function CloseDownDefault(): (d: CloseDownParams)
    ensures d.enable
  {
    CloseDownParams(true)
  }

  /** The award task takes the close-down record unchanged. */
  type AwardParams = CloseDownParams

  datatype FightParams = FightParams(
    enable: bool,
    stage: Option<string>,
    medicine: Int32,
    expiringMedicine: Int32,
    stone: Int32,
    times: Int32,
    drops: map<string, Int32>,
    reportToPenguin: bool,
    penguinId: Option<string>,
    server: Option<Server>,
    clientType: Option<ClientType>,
    drGrandet: bool)

  /** Enabled, no stage chosen, no medicine or stone spent, and no limit on the number of runs. */
  function FightDefault(): (d: FightParams)
    ensures d.enable && d.stage.None? && d.medicine == 0 && d.expiringMedicine == 0 && d.stone == 0
    ensures d.times == I32Max && d.drops == map[]
  {
    FightParams(true, None, 0, 0, 0, I32Max, map[], false, None, None, None, false)
  }

  datatype RecruitParams = RecruitParams(
    enable: bool,
    refresh: bool,
    select: seq<Int32>,
    confirm: seq<Int32>,
    times: Int32,
    setTime: bool,
    expedite: bool,
    expediteTimes: Int32,
    skipRobot: bool,
    recruitmentTime: map<string, Int32>,
    reportToPenguin: bool,
    penguinId: Option<string>,
    reportToYituliu: bool,
    yituliuId: Option<string>,
    server: Option<Server>)

  /** `format!("{}", n)` for a non-negative integer: its decimal digits, most significant first. */
  function Decimal(n: nat): string {
    if n < 10 then [('0' as int + n) as char]
    else Decimal(n / 10) + [('0' as int + n % 10) as char]
  }

  /** The recruitment times present after the insert loop has run for the levels 3 up to `n - 1`. */
  function RecruitmentTimeUpTo(n: int): map<string, Int32>
    decreases n - 3
  {
    if n <= 3 then map[] else RecruitmentTimeUpTo(n - 1)[Decimal(n - 1) := 540]
  }

  /** The default recruit record; its recruitment times are those for levels 3 to 6. */
  function RecruitDefault(): (d: RecruitParams)
    ensures d.enable && !d.refresh && d.select == [] && d.confirm == [] && d.times == 0
    ensures d.setTime && !d.expedite && d.expediteTimes == I32Max && d.skipRobot
  {
    RecruitParams(
      true, false, [], [], 0, true, false, I32Max, true,
      RecruitmentTimeUpTo(7),
      false, None, false, None, None)
  }

  /** `RecruitParams::default`: fills the recruitment times in a loop, then builds the record. */
  method NewRecruitDefault() returns (p: RecruitParams)
    ensures p == RecruitDefault()
  {
    var recTime: map<string, Int32> := map[];
    // the levels 3..=6
    for i := 3 to 7
      invariant recTime == RecruitmentTimeUpTo(i)
    {
      recTime := recTime[Decimal(i) := 540];
    }
    p := RecruitParams(
      true, false, [], [], 0, true, false, I32Max, true,
      recTime,
      false, None, false, None, None);
  }

  datatype InfrastParams = InfrastParams(
    enable: bool,
    mode: Int32,
    facility: seq<InfrastFacility>,
    drones: DronesUsage,
    threshold: real,
    replenish: bool,
    dormNotstationedEnabled: bool,
    dormTrustEnabled: bool,
    filename: Option<string>,
    planIndex: Option<Int32>)

  function InfrastDefault(): (d: InfrastParams)
    ensures d.enable && d.mode == 0 && d.threshold == 0.3
  {
    InfrastParams(
      true, 0,
      [Mfg, Trade, Power, Control, Reception, Office, Dorm],
      NotUse, 0.3, false, false, false, None, None)
  }

  datatype MallParams = MallParams(
    enable: bool,
    shopping: bool,
    buyFirst: Option<seq<string>>,
    blacklist: Option<seq<string>>,
    forceShoppingIfCreditFull: bool)

  /** Enabled, credit is spent only when full, and there is no preference or blacklist. */
  function MallDefault(): (d: MallParams)
    ensures d.enable && !d.shopping && d.buyFirst.None? && d.blacklist.None? && d.forceShoppingIfCreditFull
  {
    MallParams(true, false, None, None, true)
  }

  datatype RoguelikeParams = RoguelikeParams(
    enable: bool,
    theme: Option<string>,
    mode: Int32,
    startsCount: Int32,
    investmentEnabled: bool,
    investmentsCount: Int32,
    stopWhenInvestmentFull: bool,
    squad: Option<string>,
    roles: Option<string>,
    coreChar: Option<string>,
    useSupport: bool,
    useNonfriendSupport: bool,
    refreshTraderWithDice: bool)

  /** Enabled, theme and squad left to the engine, with no limit on starts or investments. */
  function RoguelikeDefault(): (d: RoguelikeParams)
    ensures d.enable && d.theme.None? && d.mode == 0 && d.investmentEnabled
    ensures d.startsCount == I32Max && d.investmentsCount == I32Max
  {
    RoguelikeParams(true, None, 0, I32Max, true, I32Max, false, None, None, None, false, false, false)
  }

  // ---------------------------------------------------------------------
  // Serialization

  function StringJson(s: string): Value { Str(s) }
  function I32Json(n: Int32): Value { Int(n) }
  function ClientTypeJson(c: ClientType): Value { Str(ClientTypeName(c)) }
  function ServerJson(s: Server): Value { Str(ServerName(s)) }
  function FacilityJson(f: InfrastFacility): Value { Str(FacilityName(f)) }

  /** `None` is written as null, `Some(x)` as `x` itself. */
  function OptionJson<T>(o: Option<T>, encode: T -> Value): Value {
    match o
    case None => Null
    case Some(x) => encode(x)
  }

  function StartUpJson(p: StartUpParams): Value {
    Obj(map[
      "enable" := Bool(p.enable),
      "client_type" := OptionJson(p.clientType, ClientTypeJson),
      "start_game_enabled" := Bool(p.startGameEnabled)
    ])
  }

  function CloseDownJson(p: CloseDownParams): Value {
    Obj(map["enable" := Bool(p.enable)])
  }

  function FightJson(p: FightParams): Value {
    Obj(map[
      "enable" := Bool(p.enable),
      "stage" := OptionJson(p.stage, StringJson),
      "medicine" := Int(p.medicine),
      "expiring_medicine" := Int(p.expiringMedicine),
      "stone" := Int(p.stone),
      "times" := Int(p.times),
      "drops" := I32MapJson(p.drops),
      "report_to_penguin" := Bool(p.reportToPenguin),
      "penguin_id" := OptionJson(p.penguinId, StringJson),
      "server" := OptionJson(p.server, ServerJson),
      "client_type" := OptionJson(p.clientType, ClientTypeJson),
      "DrGrandet" := Bool(p.drGrandet)
    ])
  }

  function RecruitJson(p: RecruitParams): Value {
    Obj(map[
      "enable" := Bool(p.enable),
      "refresh" := Bool(p.refresh),
      "select" := ArrayJson(p.select, I32Json),
      "confirm" := ArrayJson(p.confirm, I32Json),
      "times" := Int(p.times),
      "set_time" := Bool(p.setTime),
      "expedite" := Bool(p.expedite),
      "expedite_times" := Int(p.expediteTimes),
      "skip_robot" := Bool(p.skipRobot),
      "recruitment_time" := I32MapJson(p.recruitmentTime),
      "report_to_penguin" := Bool(p.reportToPenguin),
      "penguin_id" := OptionJson(p.penguinId, StringJson),
      "report_to_yituliu" := Bool(p.reportToYituliu),
      "yituliu_id" := OptionJson(p.yituliuId, StringJson),
      "server" := OptionJson(p.server, ServerJson)
    ])
  }

  function InfrastJson(p: InfrastParams): Value {
    Obj(map[
      "enable" := Bool(p.enable),
      "mode" := Int(p.mode),
      "facility" := ArrayJson(p.facility, FacilityJson),
      "drones" := Str(DronesUsageName(p.drones)),
      "threshold" := Float(p.threshold),
      "replenish" := Bool(p.replenish),
      "dorm_notstationed_enabled" := Bool(p.dormNotstationedEnabled),
      "dorm_trust_enabled" := Bool(p.dormTrustEnabled),
      "filename" := OptionJson(p.filename, StringJson),
      "plan_index" := OptionJson(p.planIndex, I32Json)
    ])
  }

  function MallJson(p: MallParams): Value {
    Obj(map[
      "enable" := Bool(p.enable),
      "shopping" := Bool(p.shopping),
      "buy_first" := OptionJson(p.buyFirst, StringArrayJson),
      "blacklist" := OptionJson(p.blacklist, StringArrayJson),
      "force_shopping_if_credit_full" := Bool(p.forceShoppingIfCreditFull)
    ])
  }

  function RoguelikeJson(p: RoguelikeParams): Value {
    Obj(map[
      "enable" := Bool(p.enable),
      "theme" := OptionJson(p.theme, StringJson),
      "mode" := Int(p.mode),
      "starts_count" := Int(p.startsCount),
      "investment_enabled" := Bool(p.investmentEnabled),
      "investments_count" := Int(p.investmentsCount),
      "stop_when_investment_full" := Bool(p.stopWhenInvestmentFull),
      "squad" := OptionJson(p.squad, StringJson),
      "roles" := OptionJson(p.roles, StringJson),
      "core_char" := OptionJson(p.coreChar, StringJson),
      "use_support" := Bool(p.useSupport),
      "use_nonfriend_support" := Bool(p.useNonfriendSupport),
      "refresh_trader_with_dice" := Bool(p.refreshTraderWithDice)
    ])
  }

  // ---------------------------------------------------------------------
  // The task-parameter enum

  datatype AsstTaskParam =
    | StartUp(startUp: StartUpParams)
    | CloseDown(closeDown: CloseDownParams)
    | Fight(fight: FightParams)
    | Recruit(recruit: RecruitParams)
    | Infrast(infrast: InfrastParams)
    | Mall(mall: MallParams)
    | Award(award: AwardParams)
    | Roguelike(roguelike: RoguelikeParams)

  /** `name()`: the identifier of the variant, whatever record it carries. */
  function Name(p: AsstTaskParam): (n: string)
    ensures n in {"StartUp", "CloseDown", "Fight", "Recruit", "Infrast", "Mall", "Award", "Roguelike"}
  {
    match p
    case StartUp(_) => "StartUp"
    case CloseDown(_) => "CloseDown"
    case Fight(_) => "Fight"
    case Recruit(_) => "Recruit"
    case Infrast(_) => "Infrast"
    case Mall(_) => "Mall"
    case Award(_) => "Award"
    case Roguelike(_) => "Roguelike"
  }

  /** `param()`: the JSON form of the carried record, an object that always holds the boolean `enable`. */
  function Param(p: AsstTaskParam): (v: Value)
    ensures v.Obj? && "enable" in v.fields && v.fields["enable"].Bool?
  {
    match p
    case StartUp(c) => StartUpJson(c)
    case CloseDown(c) => CloseDownJson(c)
    case Fight(c) => FightEnableKey(c); FightJson(c)
    case Recruit(c) => RecruitEnableKey(c); RecruitJson(c)
    case Infrast(c) => InfrastEnableKey(c); InfrastJson(c)
    case Mall(c) => MallJson(c)
    case Award(c) => CloseDownJson(c)
    case Roguelike(c) => RoguelikeEnableKey(c); RoguelikeJson(c)
  }

  /** `enabled()`: the carried record's `enable` flag, which is what `param()` sends under `enable`. */
  function Enabled(p: AsstTaskParam): (b: bool)
    ensures Param(p).fields["enable"] == Bool(b)
  {
    match p
    case StartUp(c) => c.enable
    case CloseDown(c) => c.enable
    case Fight(c) => FightEnableKey(c); c.enable
    case Recruit(c) => RecruitEnableKey(c); c.enable
    case Infrast(c) => InfrastEnableKey(c); c.enable
    case Mall(c) => c.enable
    case Award(c) => c.enable
    case Roguelike(c) => RoguelikeEnableKey(c); c.enable
  }

  /** Two parameters are of the same task kind. */
  predicate SameKind(p: AsstTaskParam, q: AsstTaskParam) {
    match p
    case StartUp(_) => q.StartUp?
    case CloseDown(_) => q.CloseDown?
    case Fight(_) => q.Fight?
    case Recruit(_) => q.Recruit?
    case Infrast(_) => q.Infrast?
    case Mall(_) => q.Mall?
    case Award(_) => q.Award?
    case Roguelike(_) => q.Roguelike?
  }

  // ---------------------------------------------------------------------
  // Properties of the defaults

  /** The default recruitment times are 540 for the levels "3" to "6" and name no other level. */
  lemma RecruitmentTimeDefault()
    ensures RecruitDefault().recruitmentTime.Keys == {"3", "4", "5", "6"}
    ensures forall k | k in RecruitDefault().recruitmentTime :: RecruitDefault().recruitmentTime[k] == 540
  {
    assert Decimal(3) == "3" && Decimal(4) == "4" && Decimal(5) == "5" && Decimal(6) == "6";
  }

  /** The default facility list holds every facility once, in declaration order; drones are not used. */
  lemma InfrastDefaultFacilities()
    ensures |InfrastDefault().facility| == 7
    ensures forall i | 0 <= i < 7 :: FacilityOrdinal(InfrastDefault().facility[i]) == i
    ensures forall f: InfrastFacility :: f in InfrastDefault().facility
    ensures InfrastDefault().drones == NotUse
  {
    forall f: InfrastFacility
      ensures f in InfrastDefault().facility
    {
      assert InfrastDefault().facility[FacilityOrdinal(f)] == f;
    }
  }

  // ---------------------------------------------------------------------
  // Properties of the accessors

  /** The name identifies the task kind: equal names exactly for equal kinds. */
  lemma NameIdentifiesKind(p: AsstTaskParam, q: AsstTaskParam)
    ensures Name(p) == Name(q) <==> SameKind(p, q)
  {
  }

  /** An award task carries the close-down record and serializes it alike, yet is named `Award`. */
  lemma AwardNamedByVariant(c: CloseDownParams)
    ensures Param(Award(c)) == Param(CloseDown(c))
    ensures Name(Award(c)) == "Award" && Name(Award(c)) != Name(CloseDown(c))
  {
  }

  // The `enable` key of the records with many keys, one record at a time.

  lemma FightEnableKey(c: FightParams)
    ensures "enable" in FightJson(c).fields && FightJson(c).fields["enable"] == Bool(c.enable)
  {
  }

  lemma RecruitEnableKey(c: RecruitParams)
    ensures "enable" in RecruitJson(c).fields && RecruitJson(c).fields["enable"] == Bool(c.enable)
  {
  }

  lemma InfrastEnableKey(c: InfrastParams)
    ensures "enable" in InfrastJson(c).fields && InfrastJson(c).fields["enable"] == Bool(c.enable)
  {
  }

  lemma RoguelikeEnableKey(c: RoguelikeParams)
    ensures "enable" in RoguelikeJson(c).fields && RoguelikeJson(c).fields["enable"] == Bool(c.enable)
  {
  }

  /** Renamed keys and variants are written under their new names. */
  lemma SerializedRenames(p: FightParams)
    ensures "DrGrandet" in FightJson(p).fields && "dr_grandet" !in FightJson(p).fields
    ensures FightJson(p).fields["DrGrandet"] == Bool(p.drGrandet)
    ensures p.clientType == Some(Txwy) ==> FightJson(p).fields["client_type"] == Str("txwy")
  {
  }

  // Serialization loses nothing: the JSON form determines the record.

  lemma OptionJsonInjective<T>(a: Option<T>, b: Option<T>, encode: T -> Value)
    requires forall x :: encode(x) != Null
    requires forall x, y :: encode(x) == encode(y) ==> x == y
    ensures OptionJson(a, encode) == OptionJson(b, encode) <==> a == b
  {
  }

  lemma {:induction false} ArrayJsonInjective<T>(xs: seq<T>, ys: seq<T>, encode: T -> Value)
    requires forall x, y :: encode(x) == encode(y) ==> x == y
    ensures ArrayJson(xs, encode) == ArrayJson(ys, encode) <==> xs == ys
  {
    if ArrayJson(xs, encode) == ArrayJson(ys, encode) {
      var a, b := ArrayJson(xs, encode).items, ArrayJson(ys, encode).items;
      assert |xs| == |a| == |b| == |ys|;
      forall i | 0 <= i < |xs|
        ensures xs[i] == ys[i]
      {
        assert encode(xs[i]) == a[i] == b[i] == encode(ys[i]);
      }
    }
  }

  lemma I32MapJsonInjective(m: map<string, Int32>, n: map<string, Int32>)
    ensures I32MapJson(m) == I32MapJson(n) <==> m == n
  {
    I32MapRoundTrip(m);
    I32MapRoundTrip(n);
  }

  lemma EncodersInjective()
    ensures forall s, t :: StringJson(s) == StringJson(t) ==> s == t
    ensures forall s, t :: StringArrayJson(s) == StringArrayJson(t) ==> s == t
    ensures forall s :: StringArrayJson(s) != Null
    ensures forall c, d :: ClientTypeJson(c) == ClientTypeJson(d) ==> c == d
    ensures forall s, t :: ServerJson(s) == ServerJson(t) ==> s == t
    ensures forall f, g :: FacilityJson(f) == FacilityJson(g) ==> f == g
  {
    ClientTypeNameInjective();
    ServerNameInjective();
    FacilityNameInjective();
    forall s: seq<string>, t: seq<string> | StringArrayJson(s) == StringArrayJson(t)
      ensures s == t
    {
      ArrayJsonInjective(s, t, StringJson);
      assert StringArrayJson(s) == ArrayJson(s, StringJson);
      assert StringArrayJson(t) == ArrayJson(t, StringJson);
    }
  }

  lemma StartUpJsonInjective(p: StartUpParams, q: StartUpParams)
    requires StartUpJson(p) == StartUpJson(q)
    ensures p == q
  {
    EncodersInjective();
    var a, b := StartUpJson(p).fields, StartUpJson(q).fields;
    assert a["enable"] == b["enable"];
    assert a["start_game_enabled"] == b["start_game_enabled"];
    assert a["client_type"] == b["client_type"];
    OptionJsonInjective(p.clientType, q.clientType, ClientTypeJson);
  }

  // Each record's lemma reads the fields back out of equal objects, a few
  // keys at a time so that each proof stays small.

  lemma FightJsonCounts(p: FightParams, q: FightParams)
    requires FightJson(p) == FightJson(q)
    ensures p.enable == q.enable && p.medicine == q.medicine && p.expiringMedicine == q.expiringMedicine
  {
    var a, b := FightJson(p).fields, FightJson(q).fields;
    assert a["enable"] == b["enable"];
    assert a["medicine"] == b["medicine"];
    assert a["expiring_medicine"] == b["expiring_medicine"];
  }

  lemma FightJsonLimits(p: FightParams, q: FightParams)
    requires FightJson(p) == FightJson(q)
    ensures p.stone == q.stone && p.times == q.times && p.reportToPenguin == q.reportToPenguin
    ensures p.drGrandet == q.drGrandet
  {
    var a, b := FightJson(p).fields, FightJson(q).fields;
    assert a["stone"] == b["stone"];
    assert a["times"] == b["times"];
    assert a["report_to_penguin"] == b["report_to_penguin"];
    assert a["DrGrandet"] == b["DrGrandet"];
  }

  lemma FightJsonOptions(p: FightParams, q: FightParams)
    requires FightJson(p) == FightJson(q)
    ensures p.stage == q.stage && p.penguinId == q.penguinId && p.server == q.server
    ensures p.clientType == q.clientType && p.drops == q.drops
  {
    EncodersInjective();
    var a, b := FightJson(p).fields, FightJson(q).fields;
    assert a["stage"] == b["stage"];
    assert a["penguin_id"] == b["penguin_id"];
    OptionJsonInjective(p.stage, q.stage, StringJson);
    OptionJsonInjective(p.penguinId, q.penguinId, StringJson);
    assert a["server"] == b["server"];
    assert a["client_type"] == b["client_type"];
    OptionJsonInjective(p.server, q.server, ServerJson);
    OptionJsonInjective(p.clientType, q.clientType, ClientTypeJson);
    assert a["drops"] == b["drops"];
    I32MapJsonInjective(p.drops, q.drops);
  }

  lemma FightJsonInjective(p: FightParams, q: FightParams)
    requires FightJson(p) == FightJson(q)
    ensures p == q
  {
    FightJsonCounts(p, q);
    FightJsonLimits(p, q);
    FightJsonOptions(p, q);
  }

  lemma RecruitJsonCounts(p: RecruitParams, q: RecruitParams)
    requires RecruitJson(p) == RecruitJson(q)
    ensures p.enable == q.enable && p.refresh == q.refresh && p.times == q.times
  {
    RecruitEnableKey(p);
    RecruitEnableKey(q);
    var a, b := RecruitJson(p).fields, RecruitJson(q).fields;
    assert a["refresh"] == b["refresh"];
    assert a["times"] == b["times"];
  }

  lemma RecruitJsonTiming(p: RecruitParams, q: RecruitParams)
    requires RecruitJson(p) == RecruitJson(q)
    ensures p.setTime == q.setTime && p.expedite == q.expedite && p.expediteTimes == q.expediteTimes
  {
    var a, b := RecruitJson(p).fields, RecruitJson(q).fields;
    assert a["set_time"] == b["set_time"];
    assert a["expedite"] == b["expedite"];
    assert a["expedite_times"] == b["expedite_times"];
  }

  lemma RecruitJsonReports(p: RecruitParams, q: RecruitParams)
    requires RecruitJson(p) == RecruitJson(q)
    ensures p.skipRobot == q.skipRobot && p.reportToPenguin == q.reportToPenguin && p.reportToYituliu == q.reportToYituliu
  {
    var a, b := RecruitJson(p).fields, RecruitJson(q).fields;
    assert a["skip_robot"] == b["skip_robot"];
    assert a["report_to_penguin"] == b["report_to_penguin"];
    assert a["report_to_yituliu"] == b["report_to_yituliu"];
  }

  lemma RecruitJsonLists(p: RecruitParams, q: RecruitParams)
    requires RecruitJson(p) == RecruitJson(q)
    ensures p.select == q.select && p.confirm == q.confirm
  {
    var a, b := RecruitJson(p).fields, RecruitJson(q).fields;
    assert a["select"] == b["select"];
    assert a["confirm"] == b["confirm"];
    ArrayJsonInjective(p.select, q.select, I32Json);
    ArrayJsonInjective(p.confirm, q.confirm, I32Json);
  }

  lemma RecruitJsonTimes(p: RecruitParams, q: RecruitParams)
    requires RecruitJson(p) == RecruitJson(q)
    ensures p.recruitmentTime == q.recruitmentTime
  {
    var a, b := RecruitJson(p).fields, RecruitJson(q).fields;
    assert a["recruitment_time"] == b["recruitment_time"];
    I32MapJsonInjective(p.recruitmentTime, q.recruitmentTime);
  }

  lemma RecruitJsonOptions(p: RecruitParams, q: RecruitParams)
    requires RecruitJson(p) == RecruitJson(q)
    ensures p.penguinId == q.penguinId && p.yituliuId == q.yituliuId && p.server == q.server
  {
    EncodersInjective();
    var a, b := RecruitJson(p).fields, RecruitJson(q).fields;
    assert a["penguin_id"] == b["penguin_id"];
    assert a["yituliu_id"] == b["yituliu_id"];
    assert a["server"] == b["server"];
    OptionJsonInjective(p.penguinId, q.penguinId, StringJson);
    OptionJsonInjective(p.yituliuId, q.yituliuId, StringJson);
    OptionJsonInjective(p.server, q.server, ServerJson);
  }

  lemma RecruitJsonInjective(p: RecruitParams, q: RecruitParams)
    requires RecruitJson(p) == RecruitJson(q)
    ensures p == q
  {
    RecruitJsonCounts(p, q);
    RecruitJsonTiming(p, q);
    RecruitJsonReports(p, q);
    RecruitJsonLists(p, q);
    RecruitJsonTimes(p, q);
    RecruitJsonOptions(p, q);
  }

  lemma InfrastJsonScalars(p: InfrastParams, q: InfrastParams)
    requires InfrastJson(p) == InfrastJson(q)
    ensures p.enable == q.enable && p.mode == q.mode && p.threshold == q.threshold
    ensures p.replenish == q.replenish && p.dormNotstationedEnabled == q.dormNotstationedEnabled
    ensures p.dormTrustEnabled == q.dormTrustEnabled
  {
    var a, b := InfrastJson(p).fields, InfrastJson(q).fields;
    assert a["enable"] == b["enable"];
    assert a["mode"] == b["mode"];
    assert a["threshold"] == b["threshold"];
    assert a["replenish"] == b["replenish"];
    assert a["dorm_notstationed_enabled"] == b["dorm_notstationed_enabled"];
    assert a["dorm_trust_enabled"] == b["dorm_trust_enabled"];
  }

  lemma InfrastJsonChoices(p: InfrastParams, q: InfrastParams)
    requires InfrastJson(p) == InfrastJson(q)
    ensures p.facility == q.facility && p.drones == q.drones
    ensures p.filename == q.filename && p.planIndex == q.planIndex
  {
    EncodersInjective();
    DronesUsageNameInjective();
    var a, b := InfrastJson(p).fields, InfrastJson(q).fields;
    assert a["facility"] == b["facility"];
    ArrayJsonInjective(p.facility, q.facility, FacilityJson);
    assert a["drones"] == b["drones"];
    assert a["filename"] == b["filename"];
    assert a["plan_index"] == b["plan_index"];
    OptionJsonInjective(p.filename, q.filename, StringJson);
    OptionJsonInjective(p.planIndex, q.planIndex, I32Json);
  }

  lemma InfrastJsonInjective(p: InfrastParams, q: InfrastParams)
    requires InfrastJson(p) == InfrastJson(q)
    ensures p == q
  {
    InfrastJsonScalars(p, q);
    InfrastJsonChoices(p, q);
  }

  lemma MallJsonInjective(p: MallParams, q: MallParams)
    requires MallJson(p) == MallJson(q)
    ensures p == q
  {
    EncodersInjective();
    var a, b := MallJson(p).fields, MallJson(q).fields;
    assert a["enable"] == b["enable"];
    assert a["shopping"] == b["shopping"];
    assert a["force_shopping_if_credit_full"] == b["force_shopping_if_credit_full"];
    assert a["buy_first"] == b["buy_first"];
    assert a["blacklist"] == b["blacklist"];
    OptionJsonInjective(p.buyFirst, q.buyFirst, StringArrayJson);
    OptionJsonInjective(p.blacklist, q.blacklist, StringArrayJson);
  }

  lemma RoguelikeJsonStarts(p: RoguelikeParams, q: RoguelikeParams)
    requires RoguelikeJson(p) == RoguelikeJson(q)
    ensures p.enable == q.enable && p.mode == q.mode && p.startsCount == q.startsCount
  {
    var a, b := RoguelikeJson(p).fields, RoguelikeJson(q).fields;
    assert a["enable"] == b["enable"];
    assert a["mode"] == b["mode"];
    assert a["starts_count"] == b["starts_count"];
  }

  lemma RoguelikeJsonInvestments(p: RoguelikeParams, q: RoguelikeParams)
    requires RoguelikeJson(p) == RoguelikeJson(q)
    ensures p.investmentEnabled == q.investmentEnabled && p.investmentsCount == q.investmentsCount
  {
    var a, b := RoguelikeJson(p).fields, RoguelikeJson(q).fields;
    assert a["investment_enabled"] == b["investment_enabled"];
    assert a["investments_count"] == b["investments_count"];
  }

  lemma RoguelikeJsonFlags(p: RoguelikeParams, q: RoguelikeParams)
    requires RoguelikeJson(p) == RoguelikeJson(q)
    ensures p.stopWhenInvestmentFull == q.stopWhenInvestmentFull && p.useSupport == q.useSupport
    ensures p.useNonfriendSupport == q.useNonfriendSupport && p.refreshTraderWithDice == q.refreshTraderWithDice
  {
    var a, b := RoguelikeJson(p).fields, RoguelikeJson(q).fields;
    assert a["stop_when_investment_full"] == b["stop_when_investment_full"];
    assert a["use_support"] == b["use_support"];
    assert a["use_nonfriend_support"] == b["use_nonfriend_support"];
    assert a["refresh_trader_with_dice"] == b["refresh_trader_with_dice"];
  }

  lemma RoguelikeJsonOptions(p: RoguelikeParams, q: RoguelikeParams)
    requires RoguelikeJson(p) == RoguelikeJson(q)
    ensures p.theme == q.theme && p.squad == q.squad && p.roles == q.roles && p.coreChar == q.coreChar
  {
    EncodersInjective();
    var a, b := RoguelikeJson(p).fields, RoguelikeJson(q).fields;
    assert a["theme"] == b["theme"];
    assert a["squad"] == b["squad"];
    assert a["roles"] == b["roles"];
    assert a["core_char"] == b["core_char"];
    OptionJsonInjective(p.theme, q.theme, StringJson);
    OptionJsonInjective(p.squad, q.squad, StringJson);
    OptionJsonInjective(p.roles, q.roles, StringJson);
    OptionJsonInjective(p.coreChar, q.coreChar, StringJson);
  }

  lemma RoguelikeJsonInjective(p: RoguelikeParams, q: RoguelikeParams)
    requires RoguelikeJson(p) == RoguelikeJson(q)
    ensures p == q
  {
    RoguelikeJsonStarts(p, q);
    RoguelikeJsonInvestments(p, q);
    RoguelikeJsonFlags(p, q);
    RoguelikeJsonOptions(p, q);
  }

  /**
   * What the engine receives for a task, its name and its JSON parameters,
   * determines the task completely.
   */
  lemma NameAndParamDetermineTask(p: AsstTaskParam, q: AsstTaskParam)
    ensures Name(p) == Name(q) && Param(p) == Param(q) <==> p == q
  {
    if Name(p) == Name(q) && Param(p) == Param(q) {
      NameIdentifiesKind(p, q);
      match p
      case StartUp(c) => StartUpJsonInjective(c, q.startUp);
      case CloseDown(c) => assert CloseDownJson(c).fields["enable"] == CloseDownJson(q.closeDown).fields["enable"];
      case Fight(c) => FightJsonInjective(c, q.fight);
      case Recruit(c) => RecruitJsonInjective(c, q.recruit);
      case Infrast(c) => InfrastJsonInjective(c, q.infrast);
      case Mall(c) => MallJsonInjective(c, q.mall);
      case Award(c) => assert CloseDownJson(c).fields["enable"] == CloseDownJson(q.award).fields["enable"];
      case Roguelike(c) => RoguelikeJsonInjective(c, q.roguelike);
    }
  }
}
