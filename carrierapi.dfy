/**
 * The decisions of the carrier API service: the counter-offer rule, the two
 * error handlers that turn exceptions into {"error": ...} bodies, the guards
 * in front of the FMCSA lookup and the recommendations, and the counts shown
 * on the negotiation dashboard.
 *
 * The FMCSA lookup and the recommender are parameters: `fetch` gives the
 * outcome of `fetch_carrier_by_mc` for an MC number and `recommend` the
 * groups `recommend_loads_for_carrier` produces for a carrier record.
 */
module CarrierApi {
  import opened Wrappers
  import opened Text
  import opened Json
  import opened Http
  import opened Ranking
  import opened Tally
  import opened Fmcsa

  /** The JSON body {"error": ...} with its status code. */
  datatype ErrorResponse = ErrorResponse(statusCode: int, error: string)

  // ---------------------------------------------------------------------------
  // Counter offers

  datatype NegotiationResponse = NegotiationResponse(accepted: bool, finalOffer: real)

  function Floor(listed: real): real {
    0.9 * listed
  }

  function Ceiling(listed: real): real {
    1.11 * listed
  }

  /**
   * negotiate_offer: a counter up to 111% of the listed rate is accepted, at
   * no less than 90% of it; a higher counter is answered with the midpoint
   * of listed rate and counter, capped at 111%.
   */
  function NegotiateOffer(listed: real, counter: real): (r: NegotiationResponse)
    requires listed > 0.0 && counter > 0.0
    ensures r.accepted <==> counter <= Ceiling(listed)
    ensures r.accepted ==> Floor(listed) <= r.finalOffer <= Ceiling(listed) && r.finalOffer >= counter
    ensures !r.accepted ==> listed < r.finalOffer <= Ceiling(listed) && r.finalOffer < counter
  {
    var floor := Floor(listed);
    var ceiling := Ceiling(listed);
    if counter <= ceiling then
      NegotiationResponse(true, if floor >= counter then floor else counter)
    else
      var midpoint := (listed + counter) / 2.0;
      NegotiationResponse(false, if ceiling <= midpoint then ceiling else midpoint)
  }

  /** An accepted counter is met exactly, unless it is below 90%, which is raised to 90%. */
  lemma AcceptedOffer(listed: real, counter: real)
    requires listed > 0.0 && counter > 0.0 && counter <= Ceiling(listed)
    ensures counter >= Floor(listed) ==> NegotiateOffer(listed, counter).finalOffer == counter
    ensures counter < Floor(listed) ==> NegotiateOffer(listed, counter).finalOffer == Floor(listed)
  {
  }

  /** A refused counter is split down the middle, unless the middle is above 111%. */
  lemma RefusedOffer(listed: real, counter: real)
    requires listed > 0.0 && counter > Ceiling(listed)
    ensures counter <= 2.0 * Ceiling(listed) - listed ==>
      NegotiateOffer(listed, counter).finalOffer == (listed + counter) / 2.0
    ensures counter > 2.0 * Ceiling(listed) - listed ==>
      NegotiateOffer(listed, counter).finalOffer == Ceiling(listed)
  {
  }

  /** Whatever the counter, the final offer stays within 90% to 111% of the listed rate. */
  lemma OfferWithinBand(listed: real, counter: real)
    requires listed > 0.0 && counter > 0.0
    ensures Floor(listed) <= NegotiateOffer(listed, counter).finalOffer <= Ceiling(listed)
  {
  }

  /** Among accepted counters, and among refused ones, a higher counter never lowers the final offer. */
  lemma OfferMonotoneWithinOutcome(listed: real, low: real, high: real)
    requires listed > 0.0 && 0.0 < low <= high
    requires NegotiateOffer(listed, low).accepted == NegotiateOffer(listed, high).accepted
    ensures NegotiateOffer(listed, low).finalOffer <= NegotiateOffer(listed, high).finalOffer
  {
  }

  /**
   * Across the ceiling the final offer drops: at a listed rate of 100 a
   * counter of 111 is accepted at 111, one of 112 is answered with 106.
   */
  lemma OfferDropsPastCeiling()
    ensures NegotiateOffer(100.0, 111.0) == NegotiationResponse(true, 111.0)
    ensures NegotiateOffer(100.0, 112.0) == NegotiationResponse(false, 106.0)
  {
  }

  // ---------------------------------------------------------------------------
  // Error handlers

  const UnexpectedError := "Unexpected error"
  const InvalidPayload := "Invalid request payload"
  const InvalidValue := "invalid value"
  const ValidationStatus := 422

  /** http_exception_handler: the exception's status, and its detail when the detail is a string. */
  function HttpExceptionHandler(e: HttpException): (r: ErrorResponse)
    ensures r.statusCode == e.statusCode
    ensures e.detail.Str? ==> r.error == e.detail.s
    ensures !e.detail.Str? ==> r.error == UnexpectedError
  {
    ErrorResponse(e.statusCode, if e.detail.Str? then e.detail.s else UnexpectedError)
  }

  /** A message raised by a handler reaches the client unchanged, with its status. */
  lemma RaisedMessageShown(code: int, message: string)
    ensures HttpExceptionHandler(Raise(code, message)) == ErrorResponse(code, message)
  {
  }

  /** One element of an error's location: a field name or a list index. */
  datatype LocPart = Key(name: string) | Index(i: int)

  /** One entry of `exc.errors()`; a missing "loc" reads as [], a missing "msg" as None. */
  datatype ValidationIssue = ValidationIssue(loc: seq<LocPart>, msg: Option<string>)

  function ShowPart(part: LocPart): string {
    match part
    case Key(name) => name
    case Index(i) => IntToString(i)
  }

  /** `".".join(str(part) for part in loc)`. */
  function DottedLoc(loc: seq<LocPart>): string {
    Join(".", seq(|loc|, i requires 0 <= i < |loc| => ShowPart(loc[i])))
  }

  /** The line for one error: "<loc>: <msg>", or the message alone when the location prints empty. */
  function IssueMessage(issue: ValidationIssue): string {
    var loc := DottedLoc(issue.loc);
    var msg := issue.msg.GetOr(InvalidValue);
    if loc != [] then loc + ": " + msg else msg
  }

  function IssueMessages(issues: seq<ValidationIssue>): seq<string> {
    seq(|issues|, i requires 0 <= i < |issues| => IssueMessage(issues[i]))
  }

  /** The detail of a 422: the lines joined by "; ", or a fixed text when there are none. */
  function ValidationDetail(issues: seq<ValidationIssue>): string {
    if issues == [] then InvalidPayload else Join("; ", IssueMessages(issues))
  }

  /** validation_exception_handler: builds the lines one error at a time. */
  method ValidationExceptionHandler(issues: seq<ValidationIssue>) returns (r: ErrorResponse)
    ensures r == ErrorResponse(ValidationStatus, ValidationDetail(issues))
  {
    var messages: seq<string> := [];
    var i := 0;
    while i < |issues|
      invariant 0 <= i <= |issues|
      invariant messages == IssueMessages(issues[..i])
    {
      messages := messages + [IssueMessage(issues[i])];
      i := i + 1;
      assert issues[..i] == issues[..i - 1] + [issues[i - 1]];
    }
    assert issues[..i] == issues;
    var detail := if messages != [] then Join("; ", messages) else InvalidPayload;
    return ErrorResponse(ValidationStatus, detail);
  }

  /** Every error's line appears in the detail, and its message (or "invalid value") in that line. */
  lemma ValidationDetailMentions(issues: seq<ValidationIssue>, i: nat)
    requires i < |issues|
    ensures Contains(ValidationDetail(issues), IssueMessage(issues[i]))
    ensures Contains(IssueMessage(issues[i]), issues[i].msg.GetOr(InvalidValue))
  {
    JoinContainsPart("; ", IssueMessages(issues), i);
    var issue := issues[i];
    var loc := DottedLoc(issue.loc);
    var msg := issue.msg.GetOr(InvalidValue);
    if loc != [] {
      var line := loc + ": " + msg;
      assert line[|loc + ": "|..] == msg;
      ContainsAt(line, msg, |loc + ": "|);
    } else {
      ContainsAt(msg, msg, 0);
    }
  }

  /** A single error located at a field is reported as "<field>: <message>". */
  lemma SingleFieldError(field: string, msg: string)
    ensures ValidationDetail([ValidationIssue([Key(field)], Some(msg))]) ==
      if field == [] then msg else field + ": " + msg
  {
    var issue := ValidationIssue([Key(field)], Some(msg));
    assert seq(1, i requires 0 <= i < 1 => ShowPart([Key(field)][i])) == [field];
    assert DottedLoc(issue.loc) == field;
    assert IssueMessages([issue]) == [IssueMessage(issue)];
  }

  // ---------------------------------------------------------------------------
  // Guards

  const NonNumericMc := "MC number must be numeric."
  const CarrierMissing := "Carrier not found."
  const FmcsaUnreachable := "Unable to reach FMCSA service."
  const NotEligible := "Carrier is not eligible for load matching."
  const NothingMatched := "No loads matched the carrier profile."

  /** What `fetch_carrier_by_mc` does for one MC number. */
  datatype FetchOutcome =
    | Found(record: CarrierRecord)
    | NotFound        // CarrierNotFoundError
    | ServiceFailed   // FmcsaServiceError

  /** The lookup shared by both endpoints: the MC must be all digits before it is looked up. */
  function LookUpCarrier(mc: string, fetch: string -> FetchOutcome): Result<CarrierRecord, HttpException> {
    if !IsDigits(mc) then Err(Raise(400, NonNumericMc))
    else
      match fetch(mc)
      case NotFound => Err(Raise(404, CarrierMissing))
      case ServiceFailed => Err(Raise(502, FmcsaUnreachable))
      case Found(record) => Ok(record)
  }

  /** verify_fmcsa: the carrier's record, or the guard's error. */
  function VerifyFmcsa(mc: string, fetch: string -> FetchOutcome): Result<CarrierRecord, HttpException> {
    LookUpCarrier(mc, fetch)
  }

  /** A non-numeric MC, the empty one included, is refused with 400 whatever the lookup would say. */
  lemma NonNumericMcRefused(mc: string, fetch: string -> FetchOutcome)
    requires !IsDigits(mc)
    ensures VerifyFmcsa(mc, fetch) == Err(Raise(400, NonNumericMc))
    ensures forall other: string -> FetchOutcome :: VerifyFmcsa(mc, other) == VerifyFmcsa(mc, fetch)
  {
  }

  /** A numeric MC gets the record when found, 404 when not found and 502 when the service fails. */
  lemma VerifyFmcsaOutcomes(mc: string, fetch: string -> FetchOutcome)
    requires IsDigits(mc)
    ensures VerifyFmcsa(mc, fetch).Ok? <==> fetch(mc).Found?
    ensures VerifyFmcsa(mc, fetch).Ok? ==> VerifyFmcsa(mc, fetch).value == fetch(mc).record
    ensures fetch(mc).NotFound? ==> VerifyFmcsa(mc, fetch).error.statusCode == 404
    ensures fetch(mc).ServiceFailed? ==> VerifyFmcsa(mc, fetch).error.statusCode == 502
  {
  }

  /**
   * recommend_loads_endpoint: after the lookup, an ineligible carrier is
   * refused with 409 and an empty list of recommendations with 404.
   */
  function RecommendLoads<G>(mc: string, fetch: string -> FetchOutcome, recommend: CarrierRecord -> seq<G>)
    : Result<(CarrierRecord, seq<G>), HttpException>
  {
    var lookup := LookUpCarrier(mc, fetch);
    if lookup.Err? then Err(lookup.error)
    else if !lookup.value.eligible then Err(Raise(409, NotEligible))
    else
      var groups := recommend(lookup.value);
      if groups == [] then Err(Raise(404, NothingMatched)) else Ok((lookup.value, groups))
  }

  /**
   * Recommendations are given exactly to a numeric MC whose carrier is found
   * and eligible and for whom the recommender finds something; they are the
   * recommender's groups for that carrier.
   */
  lemma RecommendLoadsSucceeds<G>(mc: string, fetch: string -> FetchOutcome, recommend: CarrierRecord -> seq<G>)
    ensures RecommendLoads(mc, fetch, recommend).Ok? <==>
      IsDigits(mc) && fetch(mc).Found? && fetch(mc).record.eligible && recommend(fetch(mc).record) != []
    ensures RecommendLoads(mc, fetch, recommend).Ok? ==>
      RecommendLoads(mc, fetch, recommend).value == (fetch(mc).record, recommend(fetch(mc).record))
  {
  }

  /** The guards are tried in order: a lookup failure is reported before eligibility, eligibility before results. */
  lemma RecommendLoadsRefusals<G>(mc: string, fetch: string -> FetchOutcome, recommend: CarrierRecord -> seq<G>)
    ensures LookUpCarrier(mc, fetch).Err? ==> RecommendLoads(mc, fetch, recommend) == Err(LookUpCarrier(mc, fetch).error)
    ensures LookUpCarrier(mc, fetch).Ok? && !LookUpCarrier(mc, fetch).value.eligible ==>
      RecommendLoads(mc, fetch, recommend) == Err(Raise(409, NotEligible))
    ensures (LookUpCarrier(mc, fetch).Ok? && LookUpCarrier(mc, fetch).value.eligible &&
             recommend(LookUpCarrier(mc, fetch).value) == []) ==>
      RecommendLoads(mc, fetch, recommend) == Err(Raise(404, NothingMatched))
  {
  }

  // ---------------------------------------------------------------------------
  // Negotiation dashboard

  /** NegotiationLogEntry as read back from the log. */
  datatype LogEntry = LogEntry(
    negotiationRounds: nat,
    finalPrice: real,
    commodityType: string,
    loadBooked: bool,
    equipmentType: string,
    timestamp: string)

  /** `sum(1 for entry in entries if entry.load_booked)`. */
  function BookedCount(entries: seq<LogEntry>): (n: nat)
    ensures n <= |entries|
  {
    if entries == [] then 0
    else BookedCount(entries[..|entries| - 1]) + (if entries[|entries| - 1].loadBooked then 1 else 0)
  }

  /** The booked count reaches the total exactly when every entry was booked, and is zero exactly when none was. */
  lemma {:induction false} BookedCountExtremes(entries: seq<LogEntry>)
    ensures BookedCount(entries) == |entries| <==> forall i :: 0 <= i < |entries| ==> entries[i].loadBooked
    ensures BookedCount(entries) == 0 <==> forall i :: 0 <= i < |entries| ==> !entries[i].loadBooked
  {
    if entries != [] {
      var front := entries[..|entries| - 1];
      BookedCountExtremes(front);
      assert forall i :: 0 <= i < |front| ==> front[i] == entries[i];
    }
  }

  function EquipmentTypes(entries: seq<LogEntry>): (r: seq<string>)
    ensures |r| == |entries| && forall i :: 0 <= i < |entries| ==> r[i] == entries[i].equipmentType
  {
    seq(|entries|, i requires 0 <= i < |entries| => entries[i].equipmentType)
  }

  function CommodityTypes(entries: seq<LogEntry>): (r: seq<string>)
    ensures |r| == |entries| && forall i :: 0 <= i < |entries| ==> r[i] == entries[i].commodityType
  {
    seq(|entries|, i requires 0 <= i < |entries| => entries[i].commodityType)
  }

  /** `Counter(entry.equipment_type for entry in entries)`: each type counted once per entry. */
  lemma EquipmentCounts(entries: seq<LogEntry>, equipment: string)
    ensures Count(CountAll(EquipmentTypes(entries)), equipment) == multiset(EquipmentTypes(entries))[equipment]
    ensures Total(CountAll(EquipmentTypes(entries))) == |entries|
  {
    CountAllCount(EquipmentTypes(entries), equipment);
    CountAllTotal(EquipmentTypes(entries));
  }

  /** `Counter(entry.commodity_type for entry in entries)`: each commodity counted once per entry. */
  lemma CommodityCounts(entries: seq<LogEntry>, commodity: string)
    ensures Count(CountAll(CommodityTypes(entries)), commodity) == multiset(CommodityTypes(entries))[commodity]
    ensures Total(CountAll(CommodityTypes(entries))) == |entries|
  {
    CountAllCount(CommodityTypes(entries), commodity);
    CountAllTotal(CommodityTypes(entries));
  }

  const EmDash := "\U{2014}"

  /** "<name> (<count>)", with the name HTML-escaped. */
  function CounterItem(e: Entry): string {
    HtmlEscape(e.0) + " (" + NatToString(e.1) + ")"
  }

  /** _format_counter: the three most common names with their counts, or a dash when there are none. */
  function FormatCounter(c: Counter): string {
    var top := MostCommon(c, 3);
    if top == [] then EmDash
    else Join(", ", seq(|top|, i requires 0 <= i < |top| => CounterItem(top[i])))
  }

  lemma MostCommonSize(c: Counter, n: nat)
    ensures |MostCommon(c, n)| == if |c| <= n then |c| else n
  {
    assert |SortDesc(c, CountOf)| == |c|;
  }

  /**
   * A counter is shown as the dash exactly when it is empty; otherwise each
   * of its (at most three) most common entries is shown with its count.
   */
  lemma FormatCounterSpec(c: Counter)
    ensures FormatCounter(c) == EmDash <==> c == []
    ensures forall i :: 0 <= i < |MostCommon(c, 3)| ==> Contains(FormatCounter(c), CounterItem(MostCommon(c, 3)[i]))
  {
    var top := MostCommon(c, 3);
    MostCommonSize(c, 3);
    var items := seq(|top|, i requires 0 <= i < |top| => CounterItem(top[i]));
    forall i | 0 <= i < |top|
      ensures Contains(FormatCounter(c), CounterItem(top[i]))
    {
      JoinContainsPart(", ", items, i);
    }
    if c != [] {
      JoinContainsPart(", ", items, 0);
      var k := ContainsWitness(FormatCounter(c), items[0]);
      assert |items[0]| >= 2;
    }
  }

  /** The dashboard's figures, or the placeholder page when nothing has been logged. */
  datatype Dashboard =
    | NoEntriesPage
    | Figures(totalEntries: nat, bookedCount: nat, topEquipment: string, topCommodities: string, rows: nat)

  function NegotiationsDashboard(entries: seq<LogEntry>): (d: Dashboard)
    ensures d.NoEntriesPage? <==> entries == []
    ensures d.Figures? ==> d.bookedCount <= d.totalEntries == d.rows == |entries|
  {
    if entries == [] then NoEntriesPage
    else Figures(|entries|, BookedCount(entries),
                 FormatCounter(CountAll(EquipmentTypes(entries))),
                 FormatCounter(CountAll(CommodityTypes(entries))),
                 |entries|)
  }

  /** With entries logged, the equipment and commodity cells are never the dash. */
  lemma DashboardShowsNames(entries: seq<LogEntry>)
    requires entries != []
    ensures NegotiationsDashboard(entries).topEquipment != EmDash
    ensures NegotiationsDashboard(entries).topCommodities != EmDash
  {
    CountAllTotal(EquipmentTypes(entries));
    CountAllTotal(CommodityTypes(entries));
    FormatCounterSpec(CountAll(EquipmentTypes(entries)));
    FormatCounterSpec(CountAll(CommodityTypes(entries)));
  }
}
