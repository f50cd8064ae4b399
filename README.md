# Hong Kong public housing allocation scraper, modelled in Dafny

This project models the core of a scraper for the allocation status page of
the Hong Kong Housing Authority. The scraper downloads a JavaScript data file
and finds the assignment `var ALLOCATION_STATUS = {...};` in it. It decodes the
object literal as JSON and reshapes three inputs into a fixed nested report:
`DATA.applicationNumberMap`, `DATA.lowestQuotaMap` and `DATA.quota`. The
report has three tables:

- general family: stage → household size 2 to "7 or more" → region;
- elderly priority: stage → household size 1 to 3 → region;
- single person: the lowest score, and the accepted-allocation value per region.

Every slot of the report is one `dict.get(<key code>, "")` lookup. The
result is wrapped with a timestamp and the document's `LastRevisionDate`.

Modules:

- `Wrappers` (`wrappers.dfy`): the `Option` and `Result` types.
- `Exceptions` (`exceptions.dfy`): `DataFetchError` and `DataParseError`, with the cause of a parse error.
- `Json` (`json.dfy`): decoded JSON values, `dict.get`, Python truthiness, and lookup along a key path.
- `Config` (`config.dfy`): the `ApplicationType` and `Region` string enums, their inverse lookups, and the `ScraperConfig` constants.
- `Extractor` (`extractor.dfy`): what the regular expression `var ALLOCATION_STATUS = (\{.*\});` matches and captures under `re.DOTALL`. The model takes the leftmost start, then the longest (greedy) match at that start.
- `Report` (`report.dfy`): `_parse_json_data`. It defines the key-code scheme (prefix `GI`/`GA`/`EI`/`EA`, region code `UB`/`EB`/`NT`/`IS`, size `01`–`07`) and its inverse, reading the document, failure on a non-object, and assembly of the report.
- `Scraper` (`scraper.dfy`): the decode step and error mapping of `_fetch_json_data`, and `crawl`, plus a worked end-to-end case.

`crawl` catches both error kinds and returns either a result or nothing. The
model shows that its `else` branch for a built but empty report can never
run: a report that was built always has its three top-level entries.

The pattern requires `var ` before `ALLOCATION_STATUS`. A text that holds
only the bare assignment, such as `ALLOCATION_STATUS = {};`, fails with
`DataParseError(PatternNotFound)`.

## Model

| member | source | states |
|---|---|---|
| Config.TypeLabel | public_house/config.py:12-14 | Each application type's string value, which is its key in the report. `Config.ApplicationTypeEnumeration` states that the three values are distinct and make up `TypeLabels`. `Config.TypeOfLabel` states that it has an inverse. |
| Config.RegionLabel | public_house/config.py:20-23 | Each region's string value, which is its key in every region dictionary. `Config.RegionEnumeration` states that the four values are distinct and make up `RegionLabels`. `Config.RegionOfLabel` states that it has an inverse. |
| Config.TypeOfLabel | public_house/config.py:9-14 | `ApplicationType(s)`: returns the member whose value is `s`. None stands for the `ValueError` Python raises, and happens exactly when `s` is not one of the three values. It is the inverse of the value mapping in both directions. The scraper never calls it. |
| Config.RegionOfLabel | public_house/config.py:17-23 | `Region(s)`: returns the member whose value is `s`. None stands for the `ValueError` Python raises, and happens exactly when `s` is not one of the four values. It is the inverse of the value mapping in both directions. The scraper never calls it. |
| Config.ApplicationTypeEnumeration | public_house/config.py:9-14 | There are exactly three application types. Their values are distinct, and the value set is the image of the enum. |
| Config.RegionEnumeration | public_house/config.py:17-23 | There are exactly four regions. Their values are distinct, and the value set is the image of the enum. |
| Extractor.FindFrom | public_house/scraper.py:65-67 | Finds the first occurrence of the anchor at or after a position. None means there is no occurrence at or after that position. |
| Extractor.LastCloseBelow | public_house/scraper.py:65-67 | Finds the last `};` in a range, or None when the range contains none. This is the backtracking of the greedy `.*`. |
| Extractor.Search | public_house/scraper.py:65-68 | `re.search` finds no match exactly when the pattern matches nowhere. Otherwise it returns a match with no match starting earlier and no longer match from the same start. |
| Extractor.ExtractPayload | public_house/scraper.py:65-69 | `match.group(1)`: None exactly when there is no match. Otherwise it is the text from the anchor's `{` through the `}` of the closing `};`, so it begins with `{` and ends with `}`. |
| Extractor.PayloadOfMatch | public_house/scraper.py:65-69 | Any match with no anchor before it and no `};` after it is exactly the one captured. |
| Extractor.EmbeddedMatch | public_house/scraper.py:65-69 | An embedded `var ALLOCATION_STATUS = <lit>;` is a match, and its capture is `lit`. |
| Extractor.NoCloseAfterEmbedded | public_house/scraper.py:65-67 | If the text after an embedded assignment has no `};`, no `};` follows the assignment's own. |
| Extractor.EmbeddedPayloadExtracted | public_house/scraper.py:65-69 | Say a text embeds `var ALLOCATION_STATUS = <lit>;`, with no match starting earlier and no `};` after it. Then exactly `lit` is captured. |
| Json.Get | public_house/scraper.py:86-88 | `dict.get(key, default)`: the value under `key`, or the default. Its uses are stated by `Report.ReadStatus`, `Report.HouseholdSlotValue` and `Report.SingleSlotValues`. |
| Json.Truthy | public_house/scraper.py:34-37 | Python truth value: empty containers, `""`, `0`, `False` and `None` are false. Its uses are stated by `Report.BuildReport` (a built report is truthy) and `Scraper.CrawlOutcome`. |
| Report.StageLabel | public_house/scraper.py:97-135 | The two stage labels of the household tables. They are also the accepted-allocation key of the single-person table. `Report.StageTableEntries` and `Report.AssembledStages` state that they are exactly the keys of each household table. |
| Report.SizeLabel | public_house/scraper.py:98-128 | The household size labels, where "7人或以上" reads size 07. `Report.SizeTableEntries` and `Report.AssembledSizes` state that they are exactly each stage's keys. `Report.LabelCounts` states that they are distinct. |
| Report.RegionCode | public_house/scraper.py:224-227 | The region codes `UB`/`EB`/`NT`/`IS`. They are the `lowestQuotaMap` keys and the middle of every household key. `Report.AssembledSingleRegion` and `Report.SingleSlotValues` state their lookups. `Report.AppKeyRoundTrip` states that they are decoded back. |
| Report.KeyPrefix | public_house/scraper.py:99-214 | The key prefixes `GI`/`GA` for general families and `EI`/`EA` for elderly priority, by stage. `Report.AppKeyRoundTrip` and `Report.AppKeyInjective` state that they are decoded back and are distinct. |
| Report.AppKey | public_house/scraper.py:99-214 | The key code of a household slot: prefix `GI`/`GA`/`EI`/`EA`, region code `UB`/`EB`/`NT`/`IS`, size `01`–`07`. Its behaviour is stated by `Report.AppKeyRoundTrip` and `Report.AppKeyInjective`. |
| Report.ParseAppKey | public_house/scraper.py:96-216 | Decodes a key code such as `GIUB02`. Every slot it returns is a real slot of a household table, and that slot's key is the input. |
| Report.AppKeyRoundTrip | public_house/scraper.py:96-216 | Every household slot's key code is six characters long and decodes back to the same slot. |
| Report.AppKeyInjective | public_house/scraper.py:96-216 | Distinct household slots read distinct keys of `applicationNumberMap`. |
| Report.ReadStatus | public_house/scraper.py:86-88 | The three lookups succeed exactly when the document admits each `.get` the builder makes. When they succeed, they yield the two maps (default `{}`) and `quota` (default `""`). |
| Report.ByApplicationType | public_house/scraper.py:231-235 | The top-level report has exactly the three application-type values as keys. |
| Report.Assemble | public_house/scraper.py:231-235 | The assembled report is an object keyed by exactly the three application types. |
| Report.BuildReport | public_house/scraper.py:83-239 | Succeeds exactly when the document can be read. Every failure is a DataParseError. A success is a non-empty object keyed by the three application types. |
| Report.ByRegion | public_house/scraper.py:99-102 | The region dictionary literal. Its behaviour is stated by `Report.ByRegionEntries`. |
| Report.SizeTable | public_house/scraper.py:97-133 | The stage table literal: size label to region dictionary. Its behaviour is stated by `Report.SizeTableEntries`. |
| Report.StageTable | public_house/scraper.py:96-173 | The household table literal: stage label to size table. Its behaviour is stated by `Report.StageTableEntries`. |
| Report.SingleTable | public_house/scraper.py:219-229 | The single-person table literal. Its behaviour is stated by `Report.SingleTableEntries`. |
| Report.ByRegionEntries | public_house/scraper.py:99-102 | A region dictionary has exactly the four region values as keys. Each entry is `.get(<its key>, "")`. |
| Report.SizeTableEntries | public_house/scraper.py:97-133 | A stage table is keyed by exactly its category's size labels. Each label leads to the row of that size. |
| Report.StageTableEntries | public_house/scraper.py:96-173 | A household table is keyed by exactly the two stage labels. Each label leads to that stage's size table. |
| Report.AssembleEntries | public_house/scraper.py:231-235 | Each application-type entry leads to that type's table. |
| Report.AssembledStage | public_house/scraper.py:96-173 | A household type label, followed by a stage label, leads to that stage's size table. |
| Report.AssembledRow | public_house/scraper.py:96-217 | A household type, stage and size label lead to that size's region dictionary. |
| Report.AssembledHouseholdSlot | public_house/scraper.py:96-217 | For a given status, each household slot holds `applicationNumberMap.get(<its key code>, "")`. |
| Report.HouseholdSlotValue | public_house/scraper.py:96-217 | In a built report, each household slot holds the source value of its key when present, and `""` when absent. |
| Report.SingleTableEntries | public_house/scraper.py:219-228 | The single-person table has exactly its two entries. The review entry holds `{"最低分數": quota}`, and the accepted-allocation entry holds the region dictionary over `lowestQuotaMap`. |
| Report.AssembledLowestScore | public_house/scraper.py:219-222 | For a given status, the single-person lowest score holds `quota`. |
| Report.AssembledSingleRegion | public_house/scraper.py:223-228 | For a given status, each single-person accepted-allocation entry holds `lowestQuotaMap.get(<region code>, "")`. |
| Report.SingleSlotValues | public_house/scraper.py:219-228 | In a built report, the lowest score is `DATA.quota` (default `""`). Each accepted-allocation region entry is the `lowestQuotaMap` value for the region code, or `""`. |
| Report.MissingDataAllEmpty | public_house/scraper.py:86-228 | With no `DATA`, the build succeeds and leaves every slot of every table `""`. |
| Report.AssembledStages | public_house/scraper.py:96-217 | Both household tables are keyed by exactly the two stage labels. |
| Report.AssembledSizes | public_house/scraper.py:96-217 | Each household stage is keyed by exactly its category's size labels: 2 to "7 or more", or 1 to 3. |
| Report.AssembledRegions | public_house/scraper.py:96-217 | Each household size row is keyed by exactly the four regions. |
| Report.HouseholdTableShape | public_house/scraper.py:96-217 | In a built report, every level of both household tables has exactly the documented keys. |
| Report.AssembledSingleEntries | public_house/scraper.py:219-229 | The single-person table has exactly a review entry and an accepted-allocation entry. |
| Report.AssembledLowestScoreEntry | public_house/scraper.py:220-222 | The single-person review entry holds exactly the lowest score. |
| Report.AssembledSingleRegions | public_house/scraper.py:223-228 | The single-person accepted-allocation entry is keyed by exactly the four regions. |
| Report.SingleTableShape | public_house/scraper.py:219-228 | In a built report, every level of the single-person table has exactly the documented keys. |
| Report.LabelCounts | public_house/scraper.py:96-235 | The report has 3 types, 2 stages and 4 regions. The general-family table has 6 size rows and the elderly table has 3. |
| Scraper.FetchJsonData | public_house/scraper.py:55-81 | A request failure gives a DataFetchError, and only a request failure does. A text without the assignment gives `DataParseError(PatternNotFound)`, and one whose capture does not decode gives `DataParseError(InvalidJson)`. Success happens exactly when the capture decodes, and the value is the decoded capture. |
| Scraper.BareAssignmentNotFound | public_house/scraper.py:65-74 | A text holding `ALLOCATION_STATUS = {};` without `var ` gives `DataParseError(PatternNotFound)`. |
| Scraper.EmbeddedLiteralDecoded | public_house/scraper.py:65-81 | A text that embeds the assignment decodes exactly as its literal does. It fails as a DataParseError when the literal does not decode. |
| Scraper.Crawl | public_house/scraper.py:27-53 | `crawl`: fetch and decode, reject a falsy document, build the report, and wrap it. It has no contract of its own. Its behaviour is stated by `Scraper.CrawlOutcome` and `Scraper.ScenarioCrawl`. |
| Scraper.CrawlOutcome | public_house/scraper.py:27-53 | `crawl` returns a result exactly when fetch and decode succeed and the document is non-empty and readable. The result is the built report, the timestamp and `LastRevisionDate` (default `""`). |
| Scraper.ScenarioFetched | public_house/scraper.py:55-71 | A response with exactly one known key fetches and decodes to its document. |
| Scraper.ScenarioReport | public_house/scraper.py:83-239 | For that document, the slot of its one key holds "123", and every other general-family slot holds `""`. |
| Scraper.ScenarioCrawl | public_house/scraper.py:27-53 | Crawling that response gives the timestamp, the revision date "2024-01-01", "123" in its slot, and `""` elsewhere. |

## Left out

- The HTTP request is not modelled: headers, timeout, `raise_for_status` and forcing the encoding to UTF-8. The response is an abstract outcome, either the body text or the failure's description.
- `json.loads` is a function parameter `decode`, with None for a decode error. The model does not decode JSON itself.
- JSON numbers are integers in the model. Floating point is left out.
- `datetime.now()` is the parameter `now`, not a clock.
- Logging calls are left out. A DataFetchError keeps the request failure's description. A DataParseError keeps only its cause (no pattern, invalid JSON, malformed structure), not its message text.
- `HousingAllocationScraper.__init__` only copies the `ScraperConfig` constants. The model declares the constants at config.dfy:95-100, but no member reads them. The copies `__init__` makes are left out.
- The `ScraperConfig` constants are defined but have no contracts. `DATA_URL`, `REQUEST_HEADERS` and `REQUEST_TIMEOUT` feed the HTTP request (scraper.py:58-61), which is outside the model. `STATUS_URL` reaches only a log message (scraper.py:23, 29). `BASE_URL` is stored (scraper.py:22) and never read.
- `setup_logging` is left out (logging configuration).
- `app.py` is a separate Flask demo that never calls the scraper. It is not part of this model.
- The report's keys are the enum members' string values. Python compares and hashes a `str` enum member like its value, so the model treats them as the same key.
- Dictionary insertion order is left out. Reports are maps.
- Exceptions other than the ones the code raises or maps are left out, for example a decoder that exhausts the recursion limit.
