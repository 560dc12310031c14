# tiny-api rule sets in Dafny

tiny-api is the back end of a freight-brokerage demo. Carriers call it to
be verified against the FMCSA carrier registry, to search and be matched
with loads, and to negotiate a rate. Each call is logged for a dashboard.
This project models the decisions inside those endpoints, one module per
source file:

- `Fmcsa` (`app/services/fmcsa.py`) covers the reading of an FMCSA carrier
  payload:
  - locating the carrier block in a JSON tree;
  - trimming text fields;
  - expanding one-letter authority codes and interpreting the
    allowed-to-operate flag;
  - assembling the de-duplicated authority summary;
  - the eligibility cascade.
- `LoadSearch` (`app/services/loads.py`) filters the load list by
  equipment, origin substring and pickup time, ranks it by rate and keeps
  five.
- `LoadMatch` (`routers/loads.py`, and its copy in `app.py`) extracts the
  state of a "City, ST" origin, normalises equipment names, chooses a load
  and gives the 404 of `/loads/match`.
- `NegotiationEvents` (`app.py`) normalises a logged negotiation event to
  text, and reads stored rows back, skipping those that do not parse.
- `CarrierApi` (`app/main.py`) covers:
  - the counter-offer rule;
  - the two error handlers;
  - the MC, eligibility and empty-result guards;
  - the negotiation dashboard's counts.
- `Database` (`database.py`) generates the fifty seed loads from the
  per-state table.
- `Schemas` (`schemas.py`) holds the field validators and bounds of a
  negotiation record.
- `Auth` (`app/utils/auth.py`) is the API-key middleware: a class holding
  its key and excluded paths, with the 403 decision.
- `Security` (`security.py`) is the 401 API-key dependency.
- `LoadBoard` (`app/dashboard_cli.py`) builds the load-board snapshot and
  renders the text report line by line.

Shared helper modules:

- `Wrappers` has Option and Result.
- `Text` has Python's `strip`, `lower`, `split`, `join`, `isdigit`,
  `int()` and `str(int)`, on ASCII.
- `Json` has JSON values with ordered object members.
- `Http` has `HTTPException`.
- `Ranking` has the stable descending sort, `[:n]`, `map` and `filter`.
- `Tally` has `Counter` and `most_common`.

Code that is not pure becomes a parameter:

- the network call (`fetch_carrier_by_mc`) becomes a function from an MC
  number to found / not found / service failed;
- the recommender becomes a function;
- `float()` and `datetime.fromisoformat` become functions;
- the clock becomes an integer `now` or a `createdAt` string;
- `random.choice` becomes a `roll` number that picks the candidate at
  `roll % count`, so every candidate can be drawn;
- the three load-service helpers the load board imports
  (`load_board_snapshot`, `origin_state_for_load` and
  `pickup_date_for_load`) become fields of `LoadBoard.Helpers`;
- the number and date formatting of the report becomes
  `LoadBoard.Formats`.

Dates are whole days and times are minutes since 2024-05-01 08:00.

`routers/loads.py` and `app.py` hold the same `_extract_state`,
`_normalize_equipment`, `_select_load` and `match_load`. One model,
`LoadMatch`, serves both. The rows below cite one copy or the other.

## Model

| member | source | states |
|---|---|---|
| `Fmcsa.ExtractStr` | tiny-api/app/services/fmcsa.py:31-38 | Null gives None; a string gives its trimmed text; a result is never empty and is already trimmed |
| `Fmcsa.ExtractStrNoneIffBlank` | tiny-api/app/services/fmcsa.py:35-38 | a string field is absent exactly when it is empty or all whitespace |
| `Fmcsa.ExpandStatusCode` | tiny-api/app/services/fmcsa.py:41-56 | None exactly for a blank code; otherwise a non-empty text |
| `Fmcsa.ExpandOneLetterCode` | tiny-api/app/services/fmcsa.py:45-56 | a one-letter code, in either case and with any padding, becomes its table name (a→Active, i/n→Inactive, o→Out of Service, s→Suspended, v→Inactive (voluntary), p→Pending, r→Revoked); a letter not in the table comes back as itself |
| `Fmcsa.ExpandLongCode` | tiny-api/app/services/fmcsa.py:41-56 | a code longer than one letter is returned trimmed and otherwise unchanged |
| `Fmcsa.FlagWordsDisjoint` | tiny-api/app/services/fmcsa.py:64-65 | no word is both a yes-word and a no-word |
| `Fmcsa.InterpretAllowedFlag` | tiny-api/app/services/fmcsa.py:59-62 | None exactly for a blank flag; otherwise a non-empty text |
| `Fmcsa.InterpretAllowedFlagWords` | tiny-api/app/services/fmcsa.py:63-70 | "Allowed to operate" exactly for y/yes/true/1, "Not allowed to operate" exactly for n/no/false/0, case-insensitively; any other flag gives "Allowed to operate: " and its trimmed text |
| `Fmcsa.StatusCodes` | tiny-api/app/services/fmcsa.py:130-135 | the four status-code fields, in order |
| `Fmcsa.CodeFields` | tiny-api/app/services/fmcsa.py:99-104 | the same four fields with their Status/Common/Contract/Broker labels, in that order |
| `Fmcsa.FirstText` | tiny-api/app/services/fmcsa.py:87-97 | the text of the first non-blank field, every field before it blank; None exactly when every field is blank |
| `Fmcsa.CodeFragment` | tiny-api/app/services/fmcsa.py:106-108 | a labelled code fragment is never empty |
| `Fmcsa.CodeFragmentsNonEmpty` | tiny-api/app/services/fmcsa.py:105-108 | no labelled code fragment is empty |
| `Fmcsa.FragmentsOfNonEmpty` | tiny-api/app/services/fmcsa.py:85-112 | no fragment is empty: at most one descriptive text, the labelled codes, then the flag |
| `Fmcsa.Dedup` | tiny-api/app/services/fmcsa.py:114-117 | de-duplication never lengthens the list |
| `Fmcsa.DedupElements` | tiny-api/app/services/fmcsa.py:114-117 | a fragment is kept exactly when it occurs and is non-empty |
| `Fmcsa.DedupDistinct` | tiny-api/app/services/fmcsa.py:114-117 | each fragment is kept once |
| `Fmcsa.DedupFirstOccurrenceOrder` | tiny-api/app/services/fmcsa.py:114-117 | kept fragments appear in the order of their first occurrences |
| `Fmcsa.FirstDescriptive` | tiny-api/app/services/fmcsa.py:93-97 | the loop with `break` yields the first non-blank descriptive field, or nothing |
| `Fmcsa.LabelCodes` | tiny-api/app/services/fmcsa.py:105-108 | the loop yields one "<label>: <expanded>" per non-blank code, in field order |
| `Fmcsa.KeepFirstOccurrences` | tiny-api/app/services/fmcsa.py:114-117 | the loop yields the de-duplicated fragments |
| `Fmcsa.FragmentsOfParts` | tiny-api/app/services/fmcsa.py:110-112 | the flag's fragment, when there is one, is appended after the others |
| `Fmcsa.Summarize` | tiny-api/app/services/fmcsa.py:85-119 | the three loops and the join give the summary of the fragments |
| `Fmcsa.NormalizeAuthorityStatus` | tiny-api/app/services/fmcsa.py:84-119 | the method computes the authority summary of a carrier block |
| `Fmcsa.SummaryNoneIff` | tiny-api/app/services/fmcsa.py:119 | the joined summary is None exactly when there is no fragment |
| `Fmcsa.SummaryMentions` | tiny-api/app/services/fmcsa.py:114-119 | every fragment appears in the summary |
| `Fmcsa.AuthorityStatusNoneIff` | tiny-api/app/services/fmcsa.py:84-119 | a block's summary is None exactly when it yields no fragment |
| `Fmcsa.AuthorityStatusMentions` | tiny-api/app/services/fmcsa.py:84-119 | every fragment of the block is spelled out in its summary |
| `Fmcsa.FirstCodeVerdict` | tiny-api/app/services/fmcsa.py:136-146 | the status-code loop with early returns: the first code starting with "a" (or equal to "yes") accepts, the first starting with "i"/"r"/"s" rejects, others are skipped, default false |
| `Fmcsa.FirstVerdictWitness` | tiny-api/app/services/fmcsa.py:136-142 | an accepting cascade has an accepting code with only undecided codes before it |
| `Fmcsa.FirstVerdictFromWitness` | tiny-api/app/services/fmcsa.py:136-142 | conversely, such a code makes the cascade accept |
| `Fmcsa.DetermineEligibility` | tiny-api/app/services/fmcsa.py:122-146 | an active status text decides first, then a yes flag, then the code cascade, with the status-text test as written (see Findings) |
| `Fmcsa.FindCarrierBlock` | tiny-api/app/services/fmcsa.py:166-183 | a returned block is never empty |
| `Fmcsa.FindInItems` | tiny-api/app/services/fmcsa.py:178-182 | a block found in a list is never empty |
| `Fmcsa.FindInMembers` | tiny-api/app/services/fmcsa.py:174-177 | a block found among a dict's values is never empty |
| `Fmcsa.FindCarrierBlockSound` | tiny-api/app/services/fmcsa.py:166-177 | a returned block is a dict occurring inside the payload |
| `Fmcsa.FindInItemsSound` | tiny-api/app/services/fmcsa.py:178-182 | a block found in a list occurs inside one of its items |
| `Fmcsa.FindInMembersSound` | tiny-api/app/services/fmcsa.py:174-177 | a block found among a dict's values occurs inside one of them |
| `Fmcsa.FindCarrierBlockComplete` | tiny-api/app/services/fmcsa.py:149-183 | a payload holding a dict with a carrier key (lower-cased) anywhere always yields a block |
| `Fmcsa.FindInItemsComplete` | tiny-api/app/services/fmcsa.py:178-182 | a list with such a dict in some item yields a block |
| `Fmcsa.FindInMembersComplete` | tiny-api/app/services/fmcsa.py:174-177 | a dict with such a dict in some value yields a block |
| `Fmcsa.SearchRoot` | tiny-api/app/services/fmcsa.py:190 | the search starts at `content` when that is truthy, else at the payload |
| `Fmcsa.ParseCarrierPayload` | tiny-api/app/services/fmcsa.py:186-226 | CarrierNotFound with "No carrier details available for MC <mc>." exactly when no block is found; otherwise the record of the block, whose eligibility applies the as-written cascade to the block's own summary |
| `Fmcsa.ParseFindsCarrierLikeDict` | tiny-api/app/services/fmcsa.py:186-193 | a payload with a carrier-like dict under the search root always parses, and the block comes from the payload |
| `Fmcsa.NotAllowedReadAsActive` | tiny-api/app/services/fmcsa.py:73-81 | as written, "Not allowed to operate" counts as an active status text; corrected, it does not |
| `Fmcsa.OnlyNoFlagEligibleAsWritten` | tiny-api/app/services/fmcsa.py:110-146 | a block whose only field read is a no-flag is summarised "Not allowed to operate", eligible as written, ineligible when corrected |
| `Fmcsa.NotAllowedCarrierEligibleAsWritten` | tiny-api/app/services/fmcsa.py:122-124 | the carrier `{"allowedToOperate": "N"}` is eligible as written and not when corrected |
| `Fmcsa.NotAllowedDefersToCodes` | tiny-api/app/services/fmcsa.py:122-146 | corrected, a carrier with a no-flag is eligible exactly when its status-code cascade says so |
| `Fmcsa.CorrectionOnlyNarrows` | tiny-api/app/services/fmcsa.py:73-81 | the corrected decision accepts only carriers the written one accepts, and they part only on a status text mentioning both "not" and "allowed" |
| `LoadSearch.Matching` | tiny-api/app/services/loads.py:43 | every kept load is one of the loads and passes `matches`; every load that passes is kept |
| `LoadSearch.MatchingAppend` | tiny-api/app/services/loads.py:43 | the comprehension keeps list order: the matches of a joined list are the matches of each part, in turn |
| `LoadSearch.MatchingOne` | tiny-api/app/services/loads.py:43 | a single load is kept once exactly when it passes `matches` |
| `LoadSearch.Ranked` | tiny-api/app/services/loads.py:44 | the ranking is a permutation of the matches |
| `LoadSearch.SearchLoads` | tiny-api/app/services/loads.py:45 | at most five loads are returned |
| `LoadSearch.SearchLoadsSound` | tiny-api/app/services/loads.py:26-43 | every returned load is one of the loads and passes every test |
| `LoadSearch.SearchLoadsFilters` | tiny-api/app/services/loads.py:27-40 | a returned load has the equipment (case-insensitively), contains a non-empty origin query, and with `pickup_after` has a string pickup that parses to no earlier moment |
| `LoadSearch.EmptyOriginUnrestricted` | tiny-api/app/services/loads.py:24-29 | an empty origin restricts nothing, like an absent one |
| `LoadSearch.SearchLoadsSorted` | tiny-api/app/services/loads.py:44 | results come best rate first, a missing `loadboard_rate` key counting as 0 |
| `LoadSearch.RankedStable` | tiny-api/app/services/loads.py:44 | matches of equal rate keep list order |
| `LoadSearch.SearchLoadsTopRated` | tiny-api/app/services/loads.py:43-45 | no match left out has a better rate than a returned one |
| `LoadSearch.FewMatchesAllReturned` | tiny-api/app/services/loads.py:45 | with at most five matches, every match is returned |
| `LoadMatch.NonBlankPiecesEmpty` | tiny-api/routers/loads.py:18-19 | no segment survives exactly when every segment is blank |
| `LoadMatch.NonBlankPiecesLastNonEmpty` | tiny-api/routers/loads.py:18 | surviving segments are non-empty |
| `LoadMatch.LastStateEmpty` | tiny-api/routers/loads.py:19-21 | the state is "" exactly when every segment is blank |
| `LoadMatch.ExtractStateEmpty` | tiny-api/routers/loads.py:16-21 | `_extract_state` gives "" exactly when every comma-separated segment is blank |
| `LoadMatch.LastStateOfLastPiece` | tiny-api/routers/loads.py:18-21 | when the last segment is not blank, the state is that segment trimmed and upper-cased |
| `LoadMatch.ExtractStateOfOrigin` | tiny-api/app.py:112-117 | the state of "City, ST" is ST, whatever the city |
| `LoadMatch.NormalizeEquipment` | tiny-api/routers/loads.py:24-25 | normalising never lengthens the name |
| `LoadMatch.NormalizeEquipmentIdempotent` | tiny-api/app.py:120-121 | normalising twice is normalising once |
| `LoadMatch.StateMatches` | tiny-api/routers/loads.py:35 | exactly the loads whose origin state is the requested one |
| `LoadMatch.EquipmentMatches` | tiny-api/routers/loads.py:39-43 | exactly those with the carrier's normalised equipment |
| `LoadMatch.SelectLoad` | tiny-api/routers/loads.py:28-46 | a chosen load is one of the loads, from the requested state |
| `LoadMatch.SelectLoadNone` | tiny-api/app.py:128-133 | nothing is chosen exactly when the state is empty or no load starts there |
| `LoadMatch.SelectLoadPrefersEquipment` | tiny-api/app.py:135-142 | when a state match has the equipment, the chosen load has it too |
| `LoadMatch.SelectLoadReachesEveryCandidate` | tiny-api/routers/loads.py:45-46 | every candidate can be drawn |
| `LoadMatch.MatchLoad` | tiny-api/routers/loads.py:49-61 | the 404 "No loads available for the provided origin", or a stored load from the request's state |
| `LoadMatch.MatchLoadNotFound` | tiny-api/app.py:151-153 | the 404 comes exactly when `_select_load` finds nothing |
| `LoadMatch.SeedOriginState` | tiny-api/database.py:110 | matching on a seed load's origin recovers its table row's state |
| `NegotiationEvents.Dump` | tiny-api/app.py:170 | the payload has six items |
| `NegotiationEvents.NormalizedPayload` | tiny-api/app.py:169-176 | the loop stores each field under its own key as text: strings trimmed, booleans "true"/"false", others through `str` |
| `NegotiationEvents.NormalizeEvent` | tiny-api/app.py:169-179 | the loop, the lower-casing of load_accepted and the created_at stamp give the stored event |
| `NegotiationEvents.NormalizedEventKeys` | tiny-api/app.py:169-179 | every payload key is kept and created_at is added |
| `NegotiationEvents.StoredLoadAccepted` | tiny-api/app.py:178 | the stored load_accepted is the lower-cased normalised field |
| `NegotiationEvents.BoolTextReadsBack` | tiny-api/app.py:186-187 | `_as_bool` of "true"/"false" is the boolean |
| `NegotiationEvents.StoredBoolRoundTrip` | tiny-api/app.py:174-187 | a logged boolean reads back as itself |
| `NegotiationEvents.TextReadsAlike` | tiny-api/app.py:172-187 | trimming and lower-casing do not change what `_as_bool` says |
| `NegotiationEvents.StoredTextReadsAlike` | tiny-api/app.py:172-178 | logged text reads back as the text itself would |
| `NegotiationEvents.StoredTotalNegotiations` | tiny-api/app.py:176 | the stored round count is the normalised field |
| `NegotiationEvents.AsInt` | tiny-api/app.py:197-201 | only text with something besides whitespace parses |
| `NegotiationEvents.IntTextReadsBack` | tiny-api/app.py:197-201 | `_as_int(str(n))` is n |
| `NegotiationEvents.StoredCountRoundTrip` | tiny-api/app.py:176-201 | a logged integer round count reads back as itself |
| `NegotiationEvents.ReadRowCases` | tiny-api/app.py:212-229 | a row is skipped exactly when a price or the count fails to parse; otherwise its event holds the parsed values and the text columns unchanged |
| `NegotiationEvents.ReadRows` | tiny-api/app.py:210-232 | never more events than rows |
| `NegotiationEvents.ListNegotiationEvents` | tiny-api/app.py:204-232 | the loop with `continue` yields the events of the rows that parse |
| `NegotiationEvents.ReadRowsAppend` | tiny-api/app.py:211-230 | row order is kept: concatenated rows read as concatenated events |
| `NegotiationEvents.ReadRowsAllParse` | tiny-api/app.py:216-230 | when every row parses, every row yields its event, in place |
| `CarrierApi.NegotiateOffer` | tiny-api/app/main.py:295-307 | accepted exactly when counter ≤ 111%; accepted: final in [90%, 111%] and ≥ counter; refused: listed < final ≤ 111% and final < counter |
| `CarrierApi.AcceptedOffer` | tiny-api/app/main.py:302-304 | an accepted counter is met, or raised to 90% when below it |
| `CarrierApi.RefusedOffer` | tiny-api/app/main.py:306-307 | a refused counter is split down the middle, capped at 111% |
| `CarrierApi.OfferWithinBand` | tiny-api/app/main.py:299-307 | every final offer lies within 90% to 111% |
| `CarrierApi.OfferMonotoneWithinOutcome` | tiny-api/app/main.py:302-307 | within one outcome, a higher counter never lowers the final offer |
| `CarrierApi.OfferDropsPastCeiling` | tiny-api/app/main.py:302-306 | across the ceiling it does: at 100, a counter of 111 gets 111 and one of 112 gets 106 |
| `CarrierApi.HttpExceptionHandler` | tiny-api/app/main.py:171-174 | the exception's status; its detail when a string, else "Unexpected error" |
| `CarrierApi.RaisedMessageShown` | tiny-api/app/main.py:172-174 | a raised message reaches the client unchanged |
| `CarrierApi.ValidationExceptionHandler` | tiny-api/app/main.py:177-185 | the loop gives 422 with the "; "-joined lines, or "Invalid request payload" |
| `CarrierApi.ValidationDetailMentions` | tiny-api/app/main.py:180-184 | every error's line is in the detail, and its message (or "invalid value") in that line |
| `CarrierApi.SingleFieldError` | tiny-api/app/main.py:181-184 | one error at a field reads "<field>: <msg>" |
| `CarrierApi.NonNumericMcRefused` | tiny-api/app/main.py:204-205 | a non-digit MC, "" included, gets 400 "MC number must be numeric." before any lookup |
| `CarrierApi.VerifyFmcsaOutcomes` | tiny-api/app/main.py:207-214 | a numeric MC gets the record when found, 404 when not found, 502 when the service fails |
| `CarrierApi.RecommendLoadsSucceeds` | tiny-api/app/main.py:246-292 | recommendations come exactly for a numeric, found, eligible carrier with a non-empty recommendation list, and they are that list |
| `CarrierApi.RecommendLoadsRefusals` | tiny-api/app/main.py:249-278 | guards in order: lookup errors, then 409 for an ineligible carrier, then 404 for no recommendations |
| `CarrierApi.BookedCount` | tiny-api/app/main.py:350 | booked ≤ entries |
| `CarrierApi.BookedCountExtremes` | tiny-api/app/main.py:349-350 | booked = total exactly when all were booked, 0 exactly when none was |
| `CarrierApi.EquipmentTypes` | tiny-api/app/main.py:354 | one equipment type per entry, in order |
| `CarrierApi.CommodityTypes` | tiny-api/app/main.py:355 | one commodity per entry, in order |
| `CarrierApi.EquipmentCounts` | tiny-api/app/main.py:354 | the counter counts each type once per entry, totalling the entries |
| `CarrierApi.CommodityCounts` | tiny-api/app/main.py:355 | the same for commodities |
| `CarrierApi.MostCommonSize` | tiny-api/app/main.py:358 | `most_common(3)` has three entries, or all when fewer |
| `CarrierApi.FormatCounterSpec` | tiny-api/app/main.py:357-363 | the dash exactly for an empty counter; otherwise each of the top three appears as "<name> (<count>)" |
| `CarrierApi.NegotiationsDashboard` | tiny-api/app/main.py:329-355 | the placeholder page exactly when nothing was logged; otherwise booked ≤ total = rows = entries |
| `CarrierApi.DashboardShowsNames` | tiny-api/app/main.py:354-363 | with entries, neither counter cell is the dash |
| `Database.BuildLoads` | tiny-api/database.py:91-123 | the loop yields one load per row, in order, numbered from 1 |
| `Database.BuildSeedLoads` | tiny-api/database.py:85-125 | fifty loads, one per row of the state table |
| `Database.LoadIdDigits` | tiny-api/database.py:109 | ids are "L-" and the four digits of 2000 + index |
| `Database.LoadIdsDistinct` | tiny-api/database.py:91-109 | the fifty ids are pairwise distinct |
| `Database.SeedTimes` | tiny-api/database.py:88-95 | pickup is index days after the base; delivery is 2 days plus 0 to 12 hours later, so after pickup |
| `Database.SeedRanges` | tiny-api/database.py:96-101 | pieces in 10..21, rate ≥ 1765, miles ≥ 322, weight 18000 exactly for Power Only |
| `Database.SeedTeamNote` | tiny-api/database.py:103-105 | the note is the equipment note and the city, with the team-transit advice exactly on every seventh index |
| `Database.UnmappedEquipmentDefaults` | tiny-api/database.py:97-121 | unlisted equipment gets "53ft trailer", the note "No special handling required." and the index-based weight |
| `Schemas.WordListsDisjoint` | tiny-api/schemas.py:54-56 | no word is both true and false |
| `Schemas.ParseBoolKeepsBool` | tiny-api/schemas.py:50-51 | a bool passes unchanged |
| `Schemas.ParseBoolText` | tiny-api/schemas.py:52-58 | text is true exactly for true/1/yes/y and false exactly for false/0/no/n, after trimming and lower-casing; otherwise refused |
| `Schemas.ParseBoolRefusesOthers` | tiny-api/schemas.py:50-58 | non-bool, non-string values are refused with "load_accepted must be 'true' or 'false'" |
| `Schemas.RemoveCommas` | tiny-api/schemas.py:66 | removing commas never lengthens the text |
| `Schemas.RemoveCommasSpec` | tiny-api/schemas.py:66 | no comma remains; every other character keeps its count |
| `Schemas.RemoveCommasNone` | tiny-api/schemas.py:66 | a text without commas is unchanged |
| `Schemas.ParsePriceIgnoresCommas` | tiny-api/schemas.py:65-66 | a comma anywhere in a price text changes nothing |
| `Schemas.ParsePriceText` | tiny-api/schemas.py:65-66 | price text parses exactly when `float()` of its comma-free, trimmed form does, to that value |
| `Schemas.ParsePriceRefusals` | tiny-api/schemas.py:62-67 | only values that are neither numbers nor strings get "Price fields must be numeric" |
| `Schemas.ParseCountRoundTrip` | tiny-api/schemas.py:74-75 | `str(n)` with any whitespace padding parses back to n |
| `Schemas.ParseCountRefusesFloat` | tiny-api/schemas.py:71-76 | a float is refused with "total_negotiations must be an integer", even when whole |
| `Schemas.NormalizeStringSpec` | tiny-api/schemas.py:80-84 | refused exactly for blank text; kept text is trimmed and non-empty |
| `Schemas.NormalizeStringIdempotent` | tiny-api/schemas.py:78-84 | normalising twice is normalising once |
| `Schemas.Price` | tiny-api/schemas.py:39-40 | an accepted price is ≥ 0 |
| `Schemas.Count` | tiny-api/schemas.py:41-43 | an accepted count is ≥ 0 |
| `Schemas.PriceBound` | tiny-api/schemas.py:39-40 | a price passes exactly when it parses to a value ≥ 0 |
| `Schemas.CountBound` | tiny-api/schemas.py:41-43 | a count passes exactly when it parses to a value ≥ 0; a negative one fails the bound |
| `Schemas.FieldErrors` | tiny-api/schemas.py:35-45 | a field contributes one error exactly when it fails |
| `Schemas.ValidateAccepts` | tiny-api/schemas.py:35-84 | a body is accepted exactly when every field passes, with non-negative numbers and trimmed non-empty texts |
| `Schemas.ValidateReportsLoadAcceptedFirst` | tiny-api/schemas.py:38-58 | a bad load_accepted is reported first |
| `Auth.ExcludedSet` | tiny-api/app/utils/auth.py:25 | `set(excluded_paths or set())` holds exactly the given paths |
| `Auth.APIKeyMiddleware.Init` | tiny-api/app/utils/auth.py:23-25 | the middleware holds the key and the excluded paths |
| `Auth.APIKeyMiddleware.Create` | tiny-api/app/utils/auth.py:13-25 | construction fails with the APP_API_KEY message exactly for an empty key |
| `Auth.APIKeyMiddleware.IsExcluded` | tiny-api/app/utils/auth.py:38-45 | the loop finds an excluded path covering this one exactly when one exists |
| `Auth.APIKeyMiddleware.Dispatch` | tiny-api/app/utils/auth.py:27-36 | forwarded exactly when excluded or the key matches; otherwise 403 {"error": "Forbidden"}; since the key is never empty, a missing or empty header on a path that is not excluded is always refused |
| `Auth.NothingExcluded` | tiny-api/app/utils/auth.py:39-40 | with no excluded paths, nothing is excluded |
| `Auth.ExcludedSubtree` | tiny-api/app/utils/auth.py:43 | an excluded path covers itself and everything below it |
| `Auth.CoversAtSegment` | tiny-api/app/utils/auth.py:43 | a covered path other than p continues p with "/" |
| `Auth.HealthzNotHealth` | tiny-api/app/utils/auth.py:42-45 | "/health" does not exclude "/healthz" |
| `Security.ExpectedKey` | tiny-api/security.py:17 | DEMO_API_KEY when set (even to ""), otherwise "local-dev-api-key" |
| `Security.VerifyApiKeySpec` | tiny-api/security.py:15-23 | accepted exactly for a non-empty key equal to the expected one, and the key is returned unchanged; every refusal is 401 "Invalid or missing API key" |
| `Security.EmptyKeyLocksOut` | tiny-api/security.py:17-18 | with DEMO_API_KEY set to "", nobody gets in |
| `Security.DefaultKeyAccepted` | tiny-api/app.py:45-53 | without DEMO_API_KEY, exactly the development key gets in |
| `Tally.MostCommon` | tiny-api/app/dashboard_cli.py:27-28 | `most_common(n)` keeps at most n of the counter's entries |
| `Tally.MostCommonRanked` | tiny-api/app/main.py:358 | largest count first; no entry left out has a higher count than one kept |
| `Tally.MostCommonStable` | tiny-api/app/dashboard_cli.py:27-28 | entries with equal counts are listed in the order their keys were first counted: the listed entries of each count are a prefix of the counter's entries of that count |
| `LoadBoard.EquipmentLabelCases` | tiny-api/app/dashboard_cli.py:41 | missing or empty equipment counts as "Unknown", named equipment under its name |
| `LoadBoard.CollectSnapshot` | tiny-api/app/dashboard_cli.py:31-76 | the loops and sorts build the snapshot of the board's loads as of the reference date, or today when none is given |
| `LoadBoard.TallyLoads` | tiny-api/app/dashboard_cli.py:39-59 | the loop over the loads yields the equipment counts, the origin-state counts, the date groups and the rated loads of all the loads |
| `LoadBoard.CollectStep` | tiny-api/app/dashboard_cli.py:40-59 | one more load is counted under its label, under its state when it has one, appended to its date's group when it has a date, and rated |
| `LoadBoard.UpcomingGroups` | tiny-api/app/dashboard_cli.py:63-66 | the loop keeps the groups dated today or later, in group order, each with its loads by parsed rate, best first (see "## Left out") |
| `LoadBoard.UpcomingStep` | tiny-api/app/dashboard_cli.py:64-66 | one more group is listed exactly when its date is today or later |
| `LoadBoard.AddDepartureSpec` | tiny-api/app/dashboard_cli.py:49-50 | appending to a date's group adds that load to that date only |
| `LoadBoard.DeparturesGrouped` | tiny-api/app/dashboard_cli.py:37-50 | each date's group holds exactly the loads picking up that day, in list order; no date has two groups |
| `LoadBoard.GroupsAreDates` | tiny-api/app/dashboard_cli.py:48-50 | each group holds the loads of its date |
| `LoadBoard.UpcomingSpec` | tiny-api/app/dashboard_cli.py:63-66 | listed dates are today or later; each holds all its loads, by parsed rate, best first (see "## Left out") |
| `LoadBoard.UpcomingEntry` | tiny-api/app/dashboard_cli.py:64-66 | the same for one listed date |
| `LoadBoard.UpcomingAscending` | tiny-api/app/dashboard_cli.py:67 | dates come earliest first |
| `LoadBoard.UpcomingComplete` | tiny-api/app/dashboard_cli.py:63-67 | every date from today on with a pickup is listed |
| `LoadBoard.EquipmentMix` | tiny-api/app/dashboard_cli.py:40-42 | equipment counts total the loads, one label per load |
| `LoadBoard.OriginStates` | tiny-api/app/dashboard_cli.py:44-46 | state counts total at most the loads; "" is never counted; each state's count is the number of loads whose non-empty origin state it is |
| `LoadBoard.TopRatesSize` | tiny-api/app/dashboard_cli.py:74 | five loads, or all when fewer |
| `LoadBoard.TopRatesSpec` | tiny-api/app/dashboard_cli.py:52-61 | best parsed rate first; each entry is a board load with its rate, 0 when missing or unparseable |
| `LoadBoard.TopRatesBest` | tiny-api/app/dashboard_cli.py:61-74 | no load left out pays more than a listed one |
| `LoadBoard.AppendLines` | tiny-api/app/dashboard_cli.py:93-96 | one line per item is appended, in order |
| `LoadBoard.DateLines` | tiny-api/app/dashboard_cli.py:110-125 | a date's header, preview lines and "more" line |
| `LoadBoard.AppendDepartures` | tiny-api/app/dashboard_cli.py:109-125 | each date's block is appended in turn |
| `LoadBoard.RenderLines` | tiny-api/app/dashboard_cli.py:84-140 | the lines of the report: header, then the sections or the empty-board notice |
| `LoadBoard.RenderDashboard` | tiny-api/app/dashboard_cli.py:79-142 | the report is the lines of the board's snapshot joined by newlines |
| `LoadBoard.Underlined` | tiny-api/app/dashboard_cli.py:85-86 | the title is followed by as many "=" as it has characters |
| `LoadBoard.EmptyBoard` | tiny-api/app/dashboard_cli.py:138-140 | an empty board has the header and then only the notice, which ends the report |
| `LoadBoard.EquipmentSectionSize` | tiny-api/app/dashboard_cli.py:91-96 | every counted equipment type is listed |
| `LoadBoard.SectionBounds` | tiny-api/app/dashboard_cli.py:98-136 | at most five states and five loads are listed; a section is absent exactly when it has nothing to list |
| `LoadBoard.DateBlockShape` | tiny-api/app/dashboard_cli.py:110-125 | a date previews at most three loads; a "… k more load(s)" line, with k = count − 3, appears exactly when it has more than three |

## Left out

- Network, SQLite and file I/O are left out:
  - `fetch_carrier_by_mc`;
  - the database connection, schema and queries;
  - the JSON-lines log files;
  - the loads data file;
  - the dashboard HTML file.

  The fetch outcome and the lists the functions read are parameters.
- The framework is left out: FastAPI routing, dependency injection, the
  middleware base class and the registration of the handlers.
  `APIKeyMiddleware.Dispatch` returns forward or the 403 instead of calling
  the next handler.
- The catch-all 500 handler (`tiny-api/app/main.py:188-190`) is left out:
  it has no decision in it.
- `round(…, 2)` in the counter-offer rule is left out; the rule is stated
  over exact reals. The averages of the HTML dashboard, its HTML template,
  and the recommendation groups' fields are left out too.
- Several conversions become parameters: `float()` in `_parse_price` and
  `_as_float`, `str()` of a float, `datetime.fromisoformat`, and the date
  and number formats of the text report. The last are `LoadBoard.Formats`;
  only `_format_percentage`'s `whole <= 0` branch is modelled.
- `infer_equipment_preferences` and `recommend_loads_for_carrier` are not
  part of this model; the recommender is a parameter. `record.physical_state`
  is not a field of `CarrierRecord`: as written, `tiny-api/app/main.py:271`
  raises AttributeError for every eligible carrier, which the catch-all
  handler of lines 188-190 turns into a 500, so the Ok branch and the 404
  for an empty recommendation of `CarrierApi.RecommendLoads` describe the
  endpoint as intended, with the recommender as a parameter.
- `load_board_snapshot`, `origin_state_for_load` and `pickup_date_for_load`
  are not part of this model; they are the fields of `LoadBoard.Helpers`.
- The text functions cover ASCII only. `strip`, `lower`, `upper` and
  `isdigit` on other Unicode characters are left out.
- Python `int()` parsing is reduced to an optional sign and digits, after
  trimming. Underscores and non-ASCII digits are left out.
- JSON numbers are integers. Floats in payloads are left out; they only
  ever reach `str()` in `_extract_str`.
- In-place sorts (`filtered.sort`, `top_rates.sort`, `upcoming.sort`) are
  modelled as a stable sort on values. Aliasing of the sorted lists is left
  out.
- `LoadBoard.UpcomingSpec`, `LoadBoard.UpcomingEntry` and
  `LoadBoard.UpcomingGroups`: each date's loads are ordered by the parsed
  rate (`float()` of `loadboard_rate`, 0 when missing or unparseable).
  `tiny-api/app/dashboard_cli.py:66` instead compares the raw
  `loadboard_rate` values, a missing key counting as the integer 0. The two
  orders agree when every rate on a date is a number or missing. Python
  raises TypeError when a date mixes numbers (or a missing key) with text
  or `null`. When every rate on a date is text, Python does not raise: it
  orders them as text, so "900" comes before "1500" while the model puts
  1500 first. A date with a single load is never compared, so a `null`
  there raises nothing.
- `NegotiationEvents.NormalizeEvent`: pydantic's coercion of the request
  body into `NegotiationEventRequest` is left out. The model takes the
  fields already typed as text, bool, int or float.
- `Schemas.Validate`: pydantic runs `_normalize_strings` only after its own
  `str` check; a non-string sentiment or commodity is taken as rejected
  before the validator and is not modelled.
- `LoadSearch.Matches` and `LoadSearch.Ranked`: `Listing` holds a text
  equipment type and origin and a number or no rate, so these paths of
  `search_loads` are not modelled. An `equipment_type` or `origin` that is
  present but not text (`null`, a number, a list) has no `.lower()` and
  raises AttributeError (`tiny-api/app/services/loads.py:27-29`). A pickup
  without a time zone compared with an aware `pickup_after`, or the
  reverse, raises TypeError (line 39); the model maps both to one time
  line. At line 44 Python compares the raw `loadboard_rate` values, a
  missing key counting as 0: a mix of numbers with text or `null` raises
  TypeError, while rates that are all text are ordered as text ("900"
  before "1500") and a single match is never compared at all.
- `Json.Show`: a string nested in a list or object is always shown between
  single quotes, with nothing escaped. Python's `repr` uses double quotes
  when the string holds a `'` and no `"`, and escapes backslashes, the
  quote character and control characters. So `{"legalName": ["O'Neil"]}`
  gives `["O'Neil"]` in Python and `['O'Neil']` in the model. This
  reaches `Fmcsa.ExtractStr` (`tiny-api/app/services/fmcsa.py:31-38`),
  `LoadBoard.EquipmentLabel` (`tiny-api/app/dashboard_cli.py:41`) and
  `LoadBoard.FieldText` (`tiny-api/app/dashboard_cli.py:118-135`) whenever
  a field holds a list or an object.
- `Fmcsa.ParseCarrierPayload` takes the payload as a JSON object. The body
  of an FMCSA response is passed on unchecked
  (`tiny-api/app/services/fmcsa.py:252-267`), and the `isinstance` test at
  line 186 guards only a log line. For a list, string, number or `null`
  body, `payload.get("content")` at line 188 raises AttributeError. That is
  neither a carrier-not-found nor a service error, so `/verify_fmcsa`
  answers with the 500 of `tiny-api/app/main.py:188-190`. This path is not
  modelled.
- `LoadMatch.SeedOriginState` requires a two-letter upper-case state code.
  That every row of `Database.StateLoadDetails` has one is taken by
  inspection, not proved for the fifty rows.
- `Json.Get` takes the first member with a key, while a Python dict built
  from a JSON object keeps the last of repeated keys; the two agree on
  objects whose keys are distinct.
- `LoadMatch.SelectLoad`: `random.choice` is the candidate at
  `roll % count`. Any distribution over rolls is outside the model.
- `Database.SeedRanges` states lower bounds for rate and miles. The exact
  formulas (1700 + 65×index, 300 + 22×index, 26000 + 450×index) are in
  `Database.SeedLoad` itself.

## Findings

| source | as written | input that shows it | evidently intended | confidence | as-written member | corrected member |
|---|---|---|---|---|---|---|
| tiny-api/app/services/fmcsa.py:73-81 | the status-text test discounts "authorized" after "not" but not "allowed", so the summary fragment "Not allowed to operate", which `_interpret_allowed_flag` produces for a no-flag, counts as active and makes the carrier eligible at `_determine_eligibility`'s first step | a carrier block `{"allowedToOperate": "N"}`: its summary is "Not allowed to operate" and it is judged eligible | a "not" also negates "allowed", so a carrier not allowed to operate is decided by its status codes (here: ineligible) | not executed | `Fmcsa.NotAllowedCarrierEligibleAsWritten` | `Fmcsa.NotAllowedDefersToCodes` |

`Fmcsa.DetermineEligibility` and `Fmcsa.ParseCarrierPayload` follow the
code as written. The corrected test is `Fmcsa.StatusTextIndicatesActive`,
and `Fmcsa.Eligibility` decides with it; `Fmcsa.CorrectionOnlyNarrows`
relates the two decisions.
