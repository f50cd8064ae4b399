/**
 * The scraper's configuration (public_house/config.py): the two string
 * enumerations whose values label the report, and the fixed request settings.
 * Both enumerations subclass `str`, so a member IS its label string; the report
 * is keyed by these labels.
 */
module Config {
  import opened Wrappers

  datatype ApplicationType = GeneralFamily | ElderlyPriority | SinglePerson

  datatype Region = Urban | ExtendedUrban | NewTerritories | OutlyingIslands

  const AllTypes: set<ApplicationType> := {GeneralFamily, ElderlyPriority, SinglePerson}

  const AllRegions: set<Region> := {Urban, ExtendedUrban, NewTerritories, OutlyingIslands}

  function TypeLabel(t: ApplicationType): string {
    match t
    case GeneralFamily => "一般家庭"
    case ElderlyPriority => "高齡人士優先"
    case SinglePerson => "一人公屋"
  }

  function RegionLabel(r: Region): string {
    match r
    case Urban => "市區"
    case ExtendedUrban => "擴展市區"
    case NewTerritories => "新界"
    case OutlyingIslands => "離島"
  }

  const TypeLabels: set<string> := {"一般家庭", "高齡人士優先", "一人公屋"}

  const RegionLabels: set<string> := {"市區", "擴展市區", "新界", "離島"}

  /** `ApplicationType(s)`: the member whose value is `s`, if any. */
  function TypeOfLabel(s: string): (r: Option<ApplicationType>)
    ensures r.Some? ==> TypeLabel(r.value) == s
    ensures r.None? <==> s !in TypeLabels
    ensures forall t :: TypeLabel(t) == s ==> r == Some(t)
  {
    if s == "一般家庭" then Some(GeneralFamily)
    else if s == "高齡人士優先" then Some(ElderlyPriority)
    else if s == "一人公屋" then Some(SinglePerson)
    else None
  }

  /** `Region(s)`: the member whose value is `s`, if any. */
  function RegionOfLabel(s: string): (r: Option<Region>)
    ensures r.Some? ==> RegionLabel(r.value) == s
    ensures r.None? <==> s !in RegionLabels
    ensures forall x :: RegionLabel(x) == s ==> r == Some(x)
  {
    if s == "市區" then Some(Urban)
    else if s == "擴展市區" then Some(ExtendedUrban)
    else if s == "新界" then Some(NewTerritories)
    else if s == "離島" then Some(OutlyingIslands)
    else None
  }

  /** ApplicationType has exactly three members, with three distinct labels. */
  lemma ApplicationTypeEnumeration()
    ensures forall t :: t in AllTypes
    ensures |AllTypes| == 3 && |TypeLabels| == 3
    ensures TypeLabels == set t | t in AllTypes :: TypeLabel(t)
    ensures forall t, u :: TypeLabel(t) == TypeLabel(u) ==> t == u
  {
    forall t: ApplicationType ensures t in AllTypes {
      assert t.GeneralFamily? || t.ElderlyPriority? || t.SinglePerson?;
    }
    assert TypeLabel(GeneralFamily) in (set t | t in AllTypes :: TypeLabel(t));
    assert TypeLabel(ElderlyPriority) in (set t | t in AllTypes :: TypeLabel(t));
    assert TypeLabel(SinglePerson) in (set t | t in AllTypes :: TypeLabel(t));
  }

  /** Region has exactly four members, with four distinct labels. */
  lemma RegionEnumeration()
    ensures forall r :: r in AllRegions
    ensures |AllRegions| == 4 && |RegionLabels| == 4
    ensures RegionLabels == set r | r in AllRegions :: RegionLabel(r)
    ensures forall r, q :: RegionLabel(r) == RegionLabel(q) ==> r == q
  {
    forall r: Region ensures r in AllRegions {
      assert r.Urban? || r.ExtendedUrban? || r.NewTerritories? || r.OutlyingIslands?;
    }
    assert RegionLabel(Urban) in (set r | r in AllRegions :: RegionLabel(r));
    assert RegionLabel(ExtendedUrban) in (set r | r in AllRegions :: RegionLabel(r));
    assert RegionLabel(NewTerritories) in (set r | r in AllRegions :: RegionLabel(r));
    assert RegionLabel(OutlyingIslands) in (set r | r in AllRegions :: RegionLabel(r));
  }

  // ScraperConfig: fixed request settings.  The HTTP request itself is outside
  // the model; these are kept as the values the scraper is configured with.
  const BaseUrl: string := "https://www.housingauthority.gov.hk"
  const StatusUrl: string := "https://www.housingauthority.gov.hk/tc/flat-application/allocation-status/index.html"
  const DataUrl: string := "https://www.housingauthority.gov.hk/tc/common/js/allocation-status-data.js"
  const RequestHeaders: map<string, string> :=
    map["User-Agent" := "Mozilla/5.0 (Windows NT 10.0; Win64; x64) AppleWebKit/537.36"]
  const RequestTimeout: nat := 30
}
