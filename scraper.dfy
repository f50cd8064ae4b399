/**
 * The scraper's entry points (public_house/scraper.py): the decode step and
 * error mapping of `_fetch_json_data`, and `crawl`.  The HTTP request is an
 * abstract outcome (the body text, or the RequestException's description),
 * `json.loads` is the function `decode`, and `datetime.now()` is the value
 * `now`.
 */
module Scraper {
  import opened Wrappers
  import opened Json
  import opened Config
  import opened Exceptions
  import opened Extractor
  import opened Report

  /** What `crawl` returns on success. */
  datatype FetchResult<Time> = FetchResult(fetchDate: Time, data: JsonValue, lastRevisionDate: JsonValue)

  /**
   * `_fetch_json_data` after the request: a RequestException becomes a
   * DataFetchError; a text without the assignment, and a captured literal that
   * does not decode, become a DataParseError; otherwise the decoded value.
   */
  function FetchJsonData(response: Result<string, string>, decode: string -> Option<JsonValue>)
    : (r: Result<JsonValue, ScrapeError>)
    ensures r.Failure? && r.error.DataFetchError? <==> response.Failure?
    ensures r == Failure(DataParseError(PatternNotFound))
        <==> response.Success? && forall i: nat, j: nat :: !MatchSpan(response.value, i, j)
    ensures r.Success? <==>
      && response.Success?
      && ExtractPayload(response.value).Some?
      && decode(ExtractPayload(response.value).value).Some?
    ensures r.Success? ==> r.value == decode(ExtractPayload(response.value).value).value
    ensures
      && response.Success?
      && ExtractPayload(response.value).Some?
      && decode(ExtractPayload(response.value).value).None?
      ==> r == Failure(DataParseError(InvalidJson))
  {
    match response
    case Failure(cause) => Failure(DataFetchError(cause))
    case Success(text) =>
      match ExtractPayload(text)
      case None => Failure(DataParseError(PatternNotFound))
      case Some(payload) =>
        match decode(payload)
        case None => Failure(DataParseError(InvalidJson))
        case Some(doc) => Success(doc)
  }

  /**
   * A response whose text embeds `var ALLOCATION_STATUS = <lit>;` decodes to
   * exactly what decoding `lit` directly gives, and fails as InvalidJson when
   * that does.
   */
  lemma EmbeddedLiteralDecoded(pre: string, lit: string, post: string, decode: string -> Option<JsonValue>)
    requires |lit| >= 1 && lit[0] == '{' && lit[|lit| - 1] == '}'
    requires forall k: nat :: k < |pre| ==> !OccursAt(pre + Prefix + lit + ";" + post, Anchor, k)
    requires forall k :: 0 <= k < |post| - 1 ==> !(post[k] == '}' && post[k + 1] == ';')
    ensures FetchJsonData(Success(pre + Prefix + lit + ";" + post), decode)
         == match decode(lit)
            case Some(doc) => Success(doc)
            case None => Failure(DataParseError(InvalidJson))
  {
    EmbeddedPayloadExtracted(pre, lit, post);
  }

  /**
   * The pattern needs `var ` before the name: a text holding only the bare
   * assignment is a DataParseError for want of a match.
   */
  lemma BareAssignmentNotFound(decode: string -> Option<JsonValue>)
    ensures FetchJsonData(Success("ALLOCATION_STATUS = {};"), decode) == Failure(DataParseError(PatternNotFound))
  {
    var text := "ALLOCATION_STATUS = {};";
    assert |text| < |Anchor|;
  }

  /**
   * `crawl`: fetch and decode, reject an empty (falsy) document, build the
   * report, and wrap it with the timestamp and `LastRevisionDate` (default
   * `""`).  Either error kind, and an empty document, give None.
   */
  function Crawl<Time>(response: Result<string, string>, decode: string -> Option<JsonValue>, now: Time)
    : Option<FetchResult<Time>>
  {
    match FetchJsonData(response, decode)
    case Failure(_) => None
    case Success(doc) =>
      if !Truthy(doc) then None
      else
        match BuildReport(doc)
        case Failure(_) => None
        case Success(report) =>
          if Truthy(report) then Some(FetchResult(now, report, Get(doc.fields, "LastRevisionDate", EmptyString)))
          else None
  }

  /**
   * The outcome of `crawl`: a result exactly when the fetch and decode
   * succeed, the document is non-empty and the builder accepts it; the result
   * holds the builder's report, the given timestamp and the document's
   * `LastRevisionDate` (default `""`).  In particular the branch for a
   * built but empty report never fires.
   */
  lemma CrawlOutcome<Time>(response: Result<string, string>, decode: string -> Option<JsonValue>, now: Time)
    ensures
      var fetched := FetchJsonData(response, decode);
      (Crawl(response, decode, now).Some? <==>
         fetched.Success? && Truthy(fetched.value) && Readable(fetched.value))
    ensures
      var fetched := FetchJsonData(response, decode);
      Crawl(response, decode, now).Some? ==>
        && fetched.value.JObject?
        && Crawl(response, decode, now).value
           == FetchResult(now, BuildReport(fetched.value).value,
                          Get(fetched.value.fields, "LastRevisionDate", EmptyString))
  {
  }

  // ---------------------------------------------------------------------------
  // A worked case: one known key, everything else missing

  /** The members of the scenario's JSON object, between its outer braces. */
  const ScenarioMembers: string :=
    "\"DATA\": {\"applicationNumberMap\": {\"GIUB02\": \"123\"}, \"lowestQuotaMap\": {}, \"quota\": \"\"}, \"LastRevisionDate\": \"2024-01-01\""

  const ScenarioLiteral: string := "{" + ScenarioMembers + "}"

  /** The value `json.loads` gives for ScenarioLiteral. */
  const ScenarioDocument: JsonValue :=
    JObject(map[
      "DATA" := JObject(map[
        "applicationNumberMap" := JObject(map["GIUB02" := JString("123")]),
        "lowestQuotaMap" := JObject(map[]),
        "quota" := JString("")]),
      "LastRevisionDate" := JString("2024-01-01")])

  /** The general-family, detailed-review, two-person, urban slot. */
  const ScenarioSlot: Slot := Slot(GeneralFamily, DetailedReview, 2, Urban)

  /** The scenario's response text fetches and decodes to the scenario document. */
  lemma ScenarioFetched(decode: string -> Option<JsonValue>)
    requires decode(ScenarioLiteral) == Some(ScenarioDocument)
    ensures FetchJsonData(Success(Prefix + ScenarioLiteral + ";"), decode) == Success(ScenarioDocument)
  {
    var lit := ScenarioLiteral;
    assert lit[0] == '{' && lit[|lit| - 1] == '}';
    assert Prefix + lit + ";" == "" + Prefix + lit + ";" + "";
    EmbeddedLiteralDecoded("", lit, "", decode);
  }

  /**
   * The scenario document's report: "123" in the one general-family slot
   * whose key is present, "" in every other one.
   */
  lemma ScenarioReport()
    ensures Readable(ScenarioDocument) && Truthy(ScenarioDocument)
    ensures At(BuildReport(ScenarioDocument).value, HouseholdPath(ScenarioSlot)) == Some(JString("123"))
    ensures forall x :: ValidSlot(x) && x.category == GeneralFamily && x != ScenarioSlot ==>
              At(BuildReport(ScenarioDocument).value, HouseholdPath(x)) == Some(EmptyString)
  {
    var doc := ScenarioDocument;
    assert Readable(doc);
    assert "DATA" in doc.fields;
    var app := ApplicationNumbers(doc);
    assert app == map["GIUB02" := JString("123")];
    assert AppKey(GeneralFamily, DetailedReview, 2, Urban) == "GIUB02";
    HouseholdSlotValue(doc, ScenarioSlot);
    forall x | ValidSlot(x) && x.category == GeneralFamily && x != ScenarioSlot
      ensures At(BuildReport(doc).value, HouseholdPath(x)) == Some(EmptyString)
    {
      HouseholdSlotValue(doc, x);
      if AppKey(x.category, x.stage, x.size, x.region) == "GIUB02" {
        AppKeyInjective(x, ScenarioSlot);
      }
    }
  }

  /**
   * Crawling a response that is exactly `var ALLOCATION_STATUS = <literal>;`
   * gives "123" in the one slot whose key is present, "" in every other
   * general-family slot, and the revision date "2024-01-01".
   */
  lemma ScenarioCrawl<Time>(decode: string -> Option<JsonValue>, now: Time)
    requires decode(ScenarioLiteral) == Some(ScenarioDocument)
    ensures Crawl(Success(Prefix + ScenarioLiteral + ";"), decode, now).Some?
    ensures
      var r := Crawl(Success(Prefix + ScenarioLiteral + ";"), decode, now).value;
      && r.fetchDate == now
      && r.lastRevisionDate == JString("2024-01-01")
      && At(r.data, HouseholdPath(ScenarioSlot)) == Some(JString("123"))
      && forall x :: ValidSlot(x) && x.category == GeneralFamily && x != ScenarioSlot ==>
           At(r.data, HouseholdPath(x)) == Some(EmptyString)
  {
    ScenarioFetched(decode);
    ScenarioReport();
    CrawlOutcome(Success(Prefix + ScenarioLiteral + ";"), decode, now);
  }
}
