/**
 * The report builder `_parse_json_data` (public_house/scraper.py): it reads
 * `DATA.applicationNumberMap`, `DATA.lowestQuotaMap` and `DATA.quota` from the
 * decoded document and reshapes them into a fixed nested report, every slot
 * one `.get(key, "")` lookup.  The only failure is a `.get` applied to a value
 * that is not an object, which the builder turns into a DataParseError.
 */
module Report {
  import opened Wrappers
  import opened Json
  import opened Config
  import opened Exceptions

  /** The two review stages of the household tables. */
  datatype Stage = DetailedReview | AllocationAccepted

  function StageLabel(s: Stage): string {
    match s
    case DetailedReview => "詳細資格審查"
    case AllocationAccepted => "已接受配房"
  }

  const StageLabels: set<string> := {"詳細資格審查", "已接受配房"}

  /** The single-person table names its review stage differently and holds one scalar there. */
  const SingleReviewLabel: string := "正獲安排詳細資格審查"
  const LowestScoreLabel: string := "最低分數"

  /**
   * The household sizes tabulated for each category: 2 to 7 for general
   * families, 1 to 3 for elderly priority, none for single persons.
   */
  predicate IsHouseholdSize(t: ApplicationType, n: nat) {
    match t
    case GeneralFamily => 2 <= n <= 7
    case ElderlyPriority => 1 <= n <= 3
    case SinglePerson => false
  }

  function Digit(n: nat): char
    requires n < 10
  {
    (('0' as int) + n) as char
  }

  /** "1人" to "6人"; the general-family row "7人或以上" (seven or more) is read from size 07. */
  function SizeLabel(n: nat): string
    requires 1 <= n <= 7
  {
    match n
    case 1 => "1人"
    case 2 => "2人"
    case 3 => "3人"
    case 4 => "4人"
    case 5 => "5人"
    case 6 => "6人"
    case 7 => "7人或以上"
  }

  /** The household size a size label names. */
  function SizeOfLabel(l: string): nat {
    if l == "1人" then 1
    else if l == "2人" then 2
    else if l == "3人" then 3
    else if l == "4人" then 4
    else if l == "5人" then 5
    else if l == "6人" then 6
    else 7
  }

  function SizeLabels(t: ApplicationType): set<string> {
    match t
    case GeneralFamily => {"2人", "3人", "4人", "5人", "6人", "7人或以上"}
    case ElderlyPriority => {"1人", "2人", "3人"}
    case SinglePerson => {}
  }

  // ---------------------------------------------------------------------------
  // Source key codes: <stage prefix><region code><two-digit household size>

  function RegionCode(r: Region): string {
    match r
    case Urban => "UB"
    case ExtendedUrban => "EB"
    case NewTerritories => "NT"
    case OutlyingIslands => "IS"
  }

  function KeyPrefix(t: ApplicationType, s: Stage): string
    requires t != SinglePerson
  {
    match (t, s)
    case (GeneralFamily, DetailedReview) => "GI"
    case (GeneralFamily, AllocationAccepted) => "GA"
    case (ElderlyPriority, DetailedReview) => "EI"
    case (ElderlyPriority, AllocationAccepted) => "EA"
  }

  function Pad2(n: nat): string
    requires n < 10
  {
    ['0', Digit(n)]
  }

  /** The `applicationNumberMap` key read for one household-table slot. */
  function AppKey(t: ApplicationType, s: Stage, n: nat, r: Region): string
    requires IsHouseholdSize(t, n)
  {
    KeyPrefix(t, s) + RegionCode(r) + Pad2(n)
  }

  /** One household-table slot: category, stage, household size, region. */
  datatype Slot = Slot(category: ApplicationType, stage: Stage, size: nat, region: Region)

  predicate ValidSlot(x: Slot) {
    IsHouseholdSize(x.category, x.size)
  }

  function ParsePrefix(p: string): Option<(ApplicationType, Stage)> {
    if p == "GI" then Some((GeneralFamily, DetailedReview))
    else if p == "GA" then Some((GeneralFamily, AllocationAccepted))
    else if p == "EI" then Some((ElderlyPriority, DetailedReview))
    else if p == "EA" then Some((ElderlyPriority, AllocationAccepted))
    else None
  }

  function RegionOfCode(c: string): Option<Region> {
    if c == "UB" then Some(Urban)
    else if c == "EB" then Some(ExtendedUrban)
    else if c == "NT" then Some(NewTerritories)
    else if c == "IS" then Some(OutlyingIslands)
    else None
  }

  /** The slot a six-character key code designates, if it designates one. */
  function ParseAppKey(k: string): (r: Option<Slot>)
    ensures r.Some? ==> ValidSlot(r.value)
    ensures r.Some? ==> AppKey(r.value.category, r.value.stage, r.value.size, r.value.region) == k
  {
    if |k| != 6 || k[4] != '0' || !('1' <= k[5] <= '9') then None
    else
      var n: nat := (k[5] as int) - ('0' as int);
      match (ParsePrefix(k[..2]), RegionOfCode(k[2..4]))
      case (Some((t, s)), Some(r)) =>
        if IsHouseholdSize(t, n) then
          assert Pad2(n) == k[4..];
          assert k == k[..2] + k[2..4] + k[4..];
          Some(Slot(t, s, n, r))
        else None
      case _ => None
  }

  /** Every household slot's key code is six characters and decodes back to that slot. */
  lemma AppKeyRoundTrip(x: Slot)
    requires ValidSlot(x)
    ensures |AppKey(x.category, x.stage, x.size, x.region)| == 6
    ensures ParseAppKey(AppKey(x.category, x.stage, x.size, x.region)) == Some(x)
  {
    var k := AppKey(x.category, x.stage, x.size, x.region);
    assert k[..2] == KeyPrefix(x.category, x.stage);
    assert k[2..4] == RegionCode(x.region);
    assert k[4] == '0' && k[5] == Digit(x.size);
  }

  /** Distinct slots read distinct keys: no source value lands in two slots. */
  lemma AppKeyInjective(x: Slot, y: Slot)
    requires ValidSlot(x) && ValidSlot(y)
    requires AppKey(x.category, x.stage, x.size, x.region) == AppKey(y.category, y.stage, y.size, y.region)
    ensures x == y
  {
    AppKeyRoundTrip(x);
    AppKeyRoundTrip(y);
  }

  // ---------------------------------------------------------------------------
  // Reading the decoded document

  /** The three inputs the builder reads. */
  datatype Status = Status(
    applicationNumbers: map<string, JsonValue>,
    lowestQuotas: map<string, JsonValue>,
    quota: JsonValue)

  predicate ObjectOrAbsent(m: map<string, JsonValue>, key: string) {
    key in m ==> m[key].JObject?
  }

  /**
   * The document admits every `.get` the builder performs: it is an object,
   * `DATA` is absent or an object, and inside it both maps are absent or objects.
   */
  predicate Readable(doc: JsonValue) {
    && doc.JObject?
    && ObjectOrAbsent(doc.fields, "DATA")
    && ("DATA" in doc.fields ==>
          && ObjectOrAbsent(doc.fields["DATA"].fields, "applicationNumberMap")
          && ObjectOrAbsent(doc.fields["DATA"].fields, "lowestQuotaMap"))
  }

  /** The fields of `DATA`, none when it is missing. */
  function DataFields(doc: JsonValue): map<string, JsonValue>
    requires Readable(doc)
  {
    if "DATA" in doc.fields then doc.fields["DATA"].fields else map[]
  }

  function ApplicationNumbers(doc: JsonValue): map<string, JsonValue>
    requires Readable(doc)
  {
    var d := DataFields(doc);
    if "applicationNumberMap" in d then d["applicationNumberMap"].fields else map[]
  }

  function LowestQuotas(doc: JsonValue): map<string, JsonValue>
    requires Readable(doc)
  {
    var d := DataFields(doc);
    if "lowestQuotaMap" in d then d["lowestQuotaMap"].fields else map[]
  }

  function Quota(doc: JsonValue): JsonValue
    requires Readable(doc)
  {
    var d := DataFields(doc);
    if "quota" in d then d["quota"] else EmptyString
  }

  /**
   * The lookups of `_parse_json_data`: `json_data.get("DATA", {})` and then
   * `.get` of the two maps (default `{}`) and of `quota` (default `""`).  None
   * stands for the AttributeError a `.get` on a non-object raises, here or at
   * the first `.get` on either map.
   */
  function ReadStatus(doc: JsonValue): (r: Option<Status>)
    ensures r.Some? <==> Readable(doc)
    ensures r.Some? ==> r.value == Status(ApplicationNumbers(doc), LowestQuotas(doc), Quota(doc))
  {
    if !doc.JObject? then None
    else
      var data := Get(doc.fields, "DATA", EmptyObject);
      if !data.JObject? then None
      else
        var app := Get(data.fields, "applicationNumberMap", EmptyObject);
        var lowest := Get(data.fields, "lowestQuotaMap", EmptyObject);
        var quota := Get(data.fields, "quota", EmptyString);
        if app.JObject? && lowest.JObject? then Some(Status(app.fields, lowest.fields, quota))
        else None
  }

  // ---------------------------------------------------------------------------
  // Assembling the report

  /** Which source key a region dictionary reads for each region. */
  datatype RegionKeys =
    | HouseholdKeys(slotCategory: ApplicationType, slotStage: Stage, slotSize: nat)  // applicationNumberMap codes
    | QuotaKeys                                                                       // lowestQuotaMap region codes

  predicate ValidKeys(k: RegionKeys) {
    k.HouseholdKeys? ==> IsHouseholdSize(k.slotCategory, k.slotSize)
  }

  function RegionKey(k: RegionKeys, r: Region): string
    requires ValidKeys(k)
  {
    match k
    case HouseholdKeys(t, s, n) => AppKey(t, s, n, r)
    case QuotaKeys => RegionCode(r)
  }

  /** A region dictionary: each region's label maps to `m.get(<its key>, "")`. */
  function ByRegion(m: map<string, JsonValue>, k: RegionKeys): map<string, JsonValue>
    requires ValidKeys(k)
  {
    map[
      RegionLabel(Urban) := Get(m, RegionKey(k, Urban), EmptyString),
      RegionLabel(ExtendedUrban) := Get(m, RegionKey(k, ExtendedUrban), EmptyString),
      RegionLabel(NewTerritories) := Get(m, RegionKey(k, NewTerritories), EmptyString),
      RegionLabel(OutlyingIslands) := Get(m, RegionKey(k, OutlyingIslands), EmptyString)]
  }

  function SizeRow(app: map<string, JsonValue>, t: ApplicationType, s: Stage, n: nat): JsonValue
    requires IsHouseholdSize(t, n)
  {
    JObject(ByRegion(app, HouseholdKeys(t, s, n)))
  }

  /** One stage of a household table: household-size label to region dictionary. */
  function SizeTable(app: map<string, JsonValue>, t: ApplicationType, s: Stage): map<string, JsonValue>
    requires t != SinglePerson
  {
    map l | l in SizeLabels(t) :: l := SizeRow(app, t, s, SizeOfLabel(l))
  }

  /** A household table (general family or elderly priority): stage label to size table. */
  function StageTable(app: map<string, JsonValue>, t: ApplicationType): map<string, JsonValue>
    requires t != SinglePerson
  {
    map[
      StageLabel(DetailedReview) := JObject(SizeTable(app, t, DetailedReview)),
      StageLabel(AllocationAccepted) := JObject(SizeTable(app, t, AllocationAccepted))]
  }

  /** The single-person table: the lowest score, and the lowest quota per region. */
  function SingleTable(st: Status): map<string, JsonValue> {
    map[
      SingleReviewLabel := JObject(map[LowestScoreLabel := st.quota]),
      StageLabel(AllocationAccepted) := JObject(ByRegion(st.lowestQuotas, QuotaKeys))]
  }

  /** The top-level report: one entry per application type. */
  function ByApplicationType(general: JsonValue, elderly: JsonValue, single: JsonValue): (m: map<string, JsonValue>)
    ensures m.Keys == TypeLabels
  {
    map[
      TypeLabel(GeneralFamily) := general,
      TypeLabel(ElderlyPriority) := elderly,
      TypeLabel(SinglePerson) := single]
  }

  function Assemble(st: Status): (r: JsonValue)
    ensures r.JObject? && r.fields.Keys == TypeLabels
  {
    JObject(ByApplicationType(
      JObject(StageTable(st.applicationNumbers, GeneralFamily)),
      JObject(StageTable(st.applicationNumbers, ElderlyPriority)),
      JObject(SingleTable(st))))
  }

  /**
   * `_parse_json_data`: the report for every readable document, and a
   * DataParseError, never another failure, for every other one.
   */
  function BuildReport(doc: JsonValue): (r: Result<JsonValue, ScrapeError>)
    ensures r.Success? <==> Readable(doc)
    ensures r.Failure? ==> r.error == DataParseError(MalformedStructure)
    ensures r.Success? ==> r.value.JObject? && r.value.fields.Keys == TypeLabels
    ensures r.Success? ==> Truthy(r.value)
  {
    match ReadStatus(doc)
    case None => Failure(DataParseError(MalformedStructure))
    case Some(st) =>
      Success(Assemble(st))
  }

  // ---------------------------------------------------------------------------
  // What each level of the report holds.  Paths are written as one-key
  // sequences joined by `+`, so that `AtConcat` follows them a step at a time.

  lemma ByRegionEntries(m: map<string, JsonValue>, k: RegionKeys, r: Region)
    requires ValidKeys(k)
    ensures ByRegion(m, k).Keys == RegionLabels
    ensures At(JObject(ByRegion(m, k)), [RegionLabel(r)]) == Some(Get(m, RegionKey(k, r), EmptyString))
  {
    AtSingle(JObject(ByRegion(m, k)), RegionLabel(r));
  }

  lemma SizeTableEntries(app: map<string, JsonValue>, t: ApplicationType, s: Stage, n: nat)
    requires IsHouseholdSize(t, n)
    ensures SizeTable(app, t, s).Keys == SizeLabels(t)
    ensures At(JObject(SizeTable(app, t, s)), [SizeLabel(n)]) == Some(SizeRow(app, t, s, n))
  {
    var l := SizeLabel(n);
    assert SizeOfLabel(l) == n && l in SizeLabels(t);
    assert SizeTable(app, t, s)[l] == SizeRow(app, t, s, n);
    AtSingle(JObject(SizeTable(app, t, s)), l);
  }

  lemma StageTableEntries(app: map<string, JsonValue>, t: ApplicationType, s: Stage)
    requires t != SinglePerson
    ensures StageTable(app, t).Keys == StageLabels
    ensures At(JObject(StageTable(app, t)), [StageLabel(s)]) == Some(JObject(SizeTable(app, t, s)))
  {
    AtSingle(JObject(StageTable(app, t)), StageLabel(s));
  }

  lemma AssembleEntries(st: Status, t: ApplicationType)
    ensures At(Assemble(st), [TypeLabel(t)])
         == Some(if t == SinglePerson then JObject(SingleTable(st))
                 else JObject(StageTable(st.applicationNumbers, t)))
  {
    AtSingle(Assemble(st), TypeLabel(t));
  }

  lemma SingleTableEntries(st: Status)
    ensures SingleTable(st).Keys == {SingleReviewLabel, StageLabel(AllocationAccepted)}
    ensures At(JObject(SingleTable(st)), [SingleReviewLabel]) == Some(JObject(map[LowestScoreLabel := st.quota]))
    ensures At(JObject(SingleTable(st)), [StageLabel(AllocationAccepted)])
         == Some(JObject(ByRegion(st.lowestQuotas, QuotaKeys)))
  {
    AtSingle(JObject(SingleTable(st)), SingleReviewLabel);
    AtSingle(JObject(SingleTable(st)), StageLabel(AllocationAccepted));
  }

  /** The path of a household slot: type, stage, size and region label. */
  function HouseholdPath(x: Slot): seq<string>
    requires ValidSlot(x)
  {
    [TypeLabel(x.category)] + [StageLabel(x.stage)] + [SizeLabel(x.size)] + [RegionLabel(x.region)]
  }

  /** The path of the single-person lowest score. */
  function LowestScorePath(): seq<string> {
    [TypeLabel(SinglePerson)] + [SingleReviewLabel] + [LowestScoreLabel]
  }

  /** The path of a single-person accepted-allocation region entry. */
  function SingleRegionPath(r: Region): seq<string> {
    [TypeLabel(SinglePerson)] + [StageLabel(AllocationAccepted)] + [RegionLabel(r)]
  }

  /** Type and stage label lead to that stage's size table. */
  lemma AssembledStage(st: Status, t: ApplicationType, s: Stage)
    requires t != SinglePerson
    ensures At(Assemble(st), [TypeLabel(t)] + [StageLabel(s)])
         == Some(JObject(SizeTable(st.applicationNumbers, t, s)))
  {
    AssembleEntries(st, t);
    StageTableEntries(st.applicationNumbers, t, s);
    AtConcat(Assemble(st), [TypeLabel(t)], [StageLabel(s)]);
  }

  /** Type, stage and size label lead to that size's region dictionary. */
  lemma AssembledRow(st: Status, t: ApplicationType, s: Stage, n: nat)
    requires IsHouseholdSize(t, n)
    ensures At(Assemble(st), [TypeLabel(t)] + [StageLabel(s)] + [SizeLabel(n)])
         == Some(SizeRow(st.applicationNumbers, t, s, n))
  {
    AssembledStage(st, t, s);
    SizeTableEntries(st.applicationNumbers, t, s, n);
    AtConcat(Assemble(st), [TypeLabel(t)] + [StageLabel(s)], [SizeLabel(n)]);
  }

  lemma AssembledHouseholdSlot(st: Status, x: Slot)
    requires ValidSlot(x)
    ensures At(Assemble(st), HouseholdPath(x))
         == Some(Get(st.applicationNumbers, AppKey(x.category, x.stage, x.size, x.region), EmptyString))
  {
    var t, s, n, r := x.category, x.stage, x.size, x.region;
    AssembledRow(st, t, s, n);
    ByRegionEntries(st.applicationNumbers, HouseholdKeys(t, s, n), r);
    AtConcat(Assemble(st), [TypeLabel(t)] + [StageLabel(s)] + [SizeLabel(n)], [RegionLabel(r)]);
  }

  /**
   * Key scheme and pass-through: the household slot (category, stage, size,
   * region) holds `applicationNumberMap.get(<prefix><region code><0n>, "")`,
   * the source value itself when the key is present and `""` when it is not.
   */
  lemma HouseholdSlotValue(doc: JsonValue, x: Slot)
    requires Readable(doc) && ValidSlot(x)
    ensures
      var key := AppKey(x.category, x.stage, x.size, x.region);
      var app := ApplicationNumbers(doc);
      At(BuildReport(doc).value, HouseholdPath(x)) == Some(if key in app then app[key] else EmptyString)
  {
    AssembledHouseholdSlot(ReadStatus(doc).value, x);
  }

  /** The single-person review entry holds the lowest score. */
  lemma AssembledLowestScore(st: Status)
    ensures At(Assemble(st), LowestScorePath()) == Some(st.quota)
  {
    var l1 := TypeLabel(SinglePerson);
    AssembleEntries(st, SinglePerson);
    SingleTableEntries(st);
    var w := JObject(map[LowestScoreLabel := st.quota]);
    AtConcat(Assemble(st), [l1], [SingleReviewLabel]);
    assert At(Assemble(st), [l1] + [SingleReviewLabel]) == Some(w);
    AtSingle(w, LowestScoreLabel);
    AtConcat(Assemble(st), [l1] + [SingleReviewLabel], [LowestScoreLabel]);
  }

  /** The single-person accepted-allocation entry holds the lowest-quota lookups. */
  lemma AssembledSingleRegion(st: Status, r: Region)
    ensures At(Assemble(st), SingleRegionPath(r)) == Some(Get(st.lowestQuotas, RegionCode(r), EmptyString))
  {
    var l1, l2 := TypeLabel(SinglePerson), StageLabel(AllocationAccepted);
    AssembleEntries(st, SinglePerson);
    SingleTableEntries(st);
    ByRegionEntries(st.lowestQuotas, QuotaKeys, r);
    AtConcat(Assemble(st), [l1], [l2]);
    AtConcat(Assemble(st), [l1] + [l2], [RegionLabel(r)]);
  }

  /**
   * Pass-through of the single-person table: the lowest score is `DATA.quota`
   * (default `""`), and each accepted-allocation region entry is
   * `lowestQuotaMap.get(<region code>, "")`.
   */
  lemma SingleSlotValues(doc: JsonValue, r: Region)
    requires Readable(doc)
    ensures At(BuildReport(doc).value, LowestScorePath()) == Some(Quota(doc))
    ensures
      var lowest := LowestQuotas(doc);
      At(BuildReport(doc).value, SingleRegionPath(r))
        == Some(if RegionCode(r) in lowest then lowest[RegionCode(r)] else EmptyString)
  {
    var st := ReadStatus(doc).value;
    AssembledLowestScore(st);
    AssembledSingleRegion(st, r);
  }

  /** When `DATA` is absent every slot of the report is `""`. */
  lemma MissingDataAllEmpty(doc: JsonValue)
    requires doc.JObject? && "DATA" !in doc.fields
    ensures BuildReport(doc).Success?
    ensures forall x :: ValidSlot(x) ==> At(BuildReport(doc).value, HouseholdPath(x)) == Some(EmptyString)
    ensures At(BuildReport(doc).value, LowestScorePath()) == Some(EmptyString)
    ensures forall r :: At(BuildReport(doc).value, SingleRegionPath(r)) == Some(EmptyString)
  {
    forall x | ValidSlot(x)
      ensures At(BuildReport(doc).value, HouseholdPath(x)) == Some(EmptyString)
    {
      HouseholdSlotValue(doc, x);
    }
    forall r
      ensures At(BuildReport(doc).value, SingleRegionPath(r)) == Some(EmptyString)
    {
      SingleSlotValues(doc, r);
    }
    SingleSlotValues(doc, Urban);
  }

  lemma AssembledStages(st: Status, t: ApplicationType)
    requires t != SinglePerson
    ensures KeysAt(Assemble(st), [TypeLabel(t)]) == Some(StageLabels)
  {
    AssembleEntries(st, t);
    StageTableEntries(st.applicationNumbers, t, DetailedReview);
  }

  lemma AssembledSizes(st: Status, t: ApplicationType, s: Stage)
    requires t != SinglePerson
    ensures KeysAt(Assemble(st), [TypeLabel(t)] + [StageLabel(s)]) == Some(SizeLabels(t))
  {
    var n: nat := if t == GeneralFamily then 2 else 1;
    assert IsHouseholdSize(t, n);
    AssembledStage(st, t, s);
    SizeTableEntries(st.applicationNumbers, t, s, n);
    var v := JObject(SizeTable(st.applicationNumbers, t, s));
    assert At(Assemble(st), [TypeLabel(t)] + [StageLabel(s)]) == Some(v);
  }

  lemma AssembledRegions(st: Status, t: ApplicationType, s: Stage, n: nat)
    requires IsHouseholdSize(t, n)
    ensures KeysAt(Assemble(st), [TypeLabel(t)] + [StageLabel(s)] + [SizeLabel(n)]) == Some(RegionLabels)
  {
    AssembledRow(st, t, s, n);
    ByRegionEntries(st.applicationNumbers, HouseholdKeys(t, s, n), Urban);
  }

  /**
   * Shape of a household table (general family, elderly priority): exactly the
   * two review stages, then exactly the category's household sizes (six for
   * general family, three for elderly priority), then exactly the four regions.
   */
  lemma HouseholdTableShape(doc: JsonValue, t: ApplicationType, s: Stage, n: nat)
    requires Readable(doc) && IsHouseholdSize(t, n)
    ensures KeysAt(BuildReport(doc).value, [TypeLabel(t)]) == Some(StageLabels)
    ensures KeysAt(BuildReport(doc).value, [TypeLabel(t)] + [StageLabel(s)]) == Some(SizeLabels(t))
    ensures KeysAt(BuildReport(doc).value, [TypeLabel(t)] + [StageLabel(s)] + [SizeLabel(n)]) == Some(RegionLabels)
  {
    var st := ReadStatus(doc).value;
    AssembledStages(st, t);
    AssembledSizes(st, t, s);
    AssembledRegions(st, t, s, n);
  }

  lemma AssembledSingleEntries(st: Status)
    ensures KeysAt(Assemble(st), [TypeLabel(SinglePerson)]) == Some({SingleReviewLabel, StageLabel(AllocationAccepted)})
  {
    AssembleEntries(st, SinglePerson);
    SingleTableEntries(st);
  }

  lemma AssembledLowestScoreEntry(st: Status)
    ensures KeysAt(Assemble(st), [TypeLabel(SinglePerson)] + [SingleReviewLabel]) == Some({LowestScoreLabel})
  {
    AssembleEntries(st, SinglePerson);
    SingleTableEntries(st);
    AtConcat(Assemble(st), [TypeLabel(SinglePerson)], [SingleReviewLabel]);
    assert map[LowestScoreLabel := st.quota].Keys == {LowestScoreLabel};
  }

  lemma AssembledSingleRegions(st: Status)
    ensures KeysAt(Assemble(st), [TypeLabel(SinglePerson)] + [StageLabel(AllocationAccepted)]) == Some(RegionLabels)
  {
    AssembleEntries(st, SinglePerson);
    SingleTableEntries(st);
    ByRegionEntries(st.lowestQuotas, QuotaKeys, Urban);
    AtConcat(Assemble(st), [TypeLabel(SinglePerson)], [StageLabel(AllocationAccepted)]);
  }

  /**
   * Shape of the single-person table: the review entry holding only the
   * lowest score, and the accepted-allocation entry holding the four regions.
   */
  lemma SingleTableShape(doc: JsonValue)
    requires Readable(doc)
    ensures KeysAt(BuildReport(doc).value, [TypeLabel(SinglePerson)])
         == Some({SingleReviewLabel, StageLabel(AllocationAccepted)})
    ensures KeysAt(BuildReport(doc).value, [TypeLabel(SinglePerson)] + [SingleReviewLabel]) == Some({LowestScoreLabel})
    ensures KeysAt(BuildReport(doc).value, [TypeLabel(SinglePerson)] + [StageLabel(AllocationAccepted)])
         == Some(RegionLabels)
  {
    var st := ReadStatus(doc).value;
    assert BuildReport(doc).value == Assemble(st);
    AssembledSingleEntries(st);
    AssembledLowestScoreEntry(st);
    AssembledSingleRegions(st);
  }

  /** The label sets are as large as the enumerations they name: no two entries collide. */
  lemma LabelCounts()
    ensures |TypeLabels| == 3 && |StageLabels| == 2 && |RegionLabels| == 4
    ensures |SizeLabels(GeneralFamily)| == 6 && |SizeLabels(ElderlyPriority)| == 3
  {
  }
}
