/**
 * Negotiation events as the demo application records and lists them: an
 * incoming event has loosely typed fields that are normalised to text before
 * storage; the listing reads the stored text back, skipping rows whose
 * prices or round count do not parse.
 *
 * `str(float)` and `float(text)` are not part of this model: they are the
 * parameters `showFloat` and `parseFloat`. The creation timestamp, read from
 * the clock in the application, is the parameter `createdAt`.
 */
module NegotiationEvents {
  import opened Wrappers
  import opened Text
  import opened Ranking

  /** A field that accepts text or another scalar type. */
  datatype FieldValue =
    | TextValue(text: string)
    | BoolValue(b: bool)
    | IntValue(i: int)
    | FloatValue(f: real)

  /**
   * NegotiationEventRequest. loadAccepted holds text or a bool, the prices
   * text, a float or an int, totalNegotiations text or an int.
   */
  datatype EventRequest = EventRequest(
    loadAccepted: FieldValue,
    postedPrice: FieldValue,
    finalPrice: FieldValue,
    totalNegotiations: FieldValue,
    callSentiment: string,
    commodity: string)

  /** The keys of a stored event: the request's field names, then created_at. */
  datatype EventField =
    | LoadAccepted
    | PostedPrice
    | FinalPrice
    | TotalNegotiations
    | CallSentiment
    | Commodity
    | CreatedAt
  {
    /** The key as the stored dict spells it. */
    function Name(): string {
      match this
      case LoadAccepted => "load_accepted"
      case PostedPrice => "posted_price"
      case FinalPrice => "final_price"
      case TotalNegotiations => "total_negotiations"
      case CallSentiment => "call_sentiment"
      case Commodity => "commodity"
      case CreatedAt => "created_at"
    }
  }

  /** `payload.model_dump().items()`, in field order. */
  function Dump(request: EventRequest): (r: seq<(EventField, FieldValue)>)
    ensures |r| == 6
  {
    [(LoadAccepted, request.loadAccepted),
     (PostedPrice, request.postedPrice),
     (FinalPrice, request.finalPrice),
     (TotalNegotiations, request.totalNegotiations),
     (CallSentiment, TextValue(request.callSentiment)),
     (Commodity, TextValue(request.commodity))]
  }

  /** One value as text: strings trimmed, booleans "true"/"false", other values through str. */
  function NormalizeValue(v: FieldValue, showFloat: real -> string): string {
    match v
    case TextValue(s) => Strip(s)
    case BoolValue(b) => if b then "true" else "false"
    case IntValue(i) => IntToString(i)
    case FloatValue(f) => showFloat(f)
  }

  /** The dict a loop builds from the first n items: each key set to f of its value, later items winning. */
  function Updates<K, V, W>(items: seq<(K, V)>, n: nat, f: V -> W): (r: map<K, W>)
    requires n <= |items|
    ensures forall i :: 0 <= i < n ==> items[i].0 in r
  {
    if n == 0 then map[]
    else Updates(items, n - 1, f)[items[n - 1].0 := f(items[n - 1].1)]
  }

  /** One more item sets its key. */
  lemma UpdatesStep<K, V, W>(items: seq<(K, V)>, n: nat, f: V -> W)
    requires n < |items|
    ensures Updates(items, n + 1, f) == Updates(items, n, f)[items[n].0 := f(items[n].1)]
  {
  }

  /** The normalisation of one field value, as a function value. */
  function Normalizer(showFloat: real -> string): FieldValue -> string {
    (v: FieldValue) => NormalizeValue(v, showFloat)
  }

  /**
   * What log_negotiation_event stores: every payload field under its own key
   * as normalised text, load_accepted lower-cased, and created_at added.
   */
  function NormalizedEvent(request: EventRequest, showFloat: real -> string, createdAt: string): map<EventField, string> {
    map[
      LoadAccepted := Lower(NormalizeValue(request.loadAccepted, showFloat)),
      PostedPrice := NormalizeValue(request.postedPrice, showFloat),
      FinalPrice := NormalizeValue(request.finalPrice, showFloat),
      TotalNegotiations := NormalizeValue(request.totalNegotiations, showFloat),
      CallSentiment := Strip(request.callSentiment),
      Commodity := Strip(request.commodity),
      CreatedAt := createdAt]
  }

  /** The payload normalisation loop of log_negotiation_event. */
  method NormalizeEvent(request: EventRequest, showFloat: real -> string, createdAt: string)
    returns (normalized: map<EventField, string>)
    ensures normalized == NormalizedEvent(request, showFloat, createdAt)
  {
    var items := Dump(request);
    normalized := map[];
    var i := 0;
    while i < |items|
      invariant 0 <= i <= |items|
      invariant normalized == Updates(items, i, Normalizer(showFloat))
    {
      var (key, value) := items[i];
      var text;
      match value {
        case TextValue(s) =>
          text := Strip(s);
        case BoolValue(b) =>
          text := if b then "true" else "false";
        case IntValue(n) =>
          text := IntToString(n);
        case FloatValue(f) =>
          text := showFloat(f);
      }
      assert text == Normalizer(showFloat)(value);
      UpdatesStep(items, i, Normalizer(showFloat));
      normalized := normalized[key := text];
      i := i + 1;
    }
    NormalizedPayload(request, showFloat);
    normalized := normalized[LoadAccepted := Lower(normalized[LoadAccepted])];
    normalized := normalized[CreatedAt := createdAt];
    NormalizedEventUpdated(request, showFloat, createdAt);
  }

  /** Lower-casing load_accepted and adding created_at to the six-field dict gives the stored event. */
  lemma FinishEvent(m: map<EventField, string>, a: string, b: string, c: string, d: string, e: string, f: string, createdAt: string)
    requires m == map[LoadAccepted := a, PostedPrice := b, FinalPrice := c, TotalNegotiations := d, CallSentiment := e, Commodity := f]
    ensures m[LoadAccepted := Lower(m[LoadAccepted])][CreatedAt := createdAt] ==
      map[LoadAccepted := Lower(a), PostedPrice := b, FinalPrice := c, TotalNegotiations := d, CallSentiment := e, Commodity := f,
          CreatedAt := createdAt]
  {
  }

  /** The stored event is the loop's dict with load_accepted lower-cased and created_at set. */
  lemma NormalizedEventUpdated(request: EventRequest, showFloat: real -> string, createdAt: string)
    ensures var m := Updates(Dump(request), |Dump(request)|, Normalizer(showFloat));
      LoadAccepted in m &&
      NormalizedEvent(request, showFloat, createdAt) == m[LoadAccepted := Lower(m[LoadAccepted])][CreatedAt := createdAt]
  {
    NormalizedPayload(request, showFloat);
    FinishEvent(Updates(Dump(request), |Dump(request)|, Normalizer(showFloat)),
      NormalizeValue(request.loadAccepted, showFloat), NormalizeValue(request.postedPrice, showFloat),
      NormalizeValue(request.finalPrice, showFloat), NormalizeValue(request.totalNegotiations, showFloat),
      Strip(request.callSentiment), Strip(request.commodity), createdAt);
  }

  const EventKeys: set<EventField> :=
    {LoadAccepted, PostedPrice, FinalPrice, TotalNegotiations, CallSentiment, Commodity, CreatedAt}

  /** Six items, one after another, give the dict of their six values. */
  lemma UpdatesSix<K, V, W>(items: seq<(K, V)>, f: V -> W)
    requires |items| == 6
    ensures Updates(items, |items|, f) == map[
      items[0].0 := f(items[0].1),
      items[1].0 := f(items[1].1),
      items[2].0 := f(items[2].1),
      items[3].0 := f(items[3].1),
      items[4].0 := f(items[4].1),
      items[5].0 := f(items[5].1)]
  {
    assert Updates(items, 1, f) == map[items[0].0 := f(items[0].1)];
    assert Updates(items, 2, f) == Updates(items, 1, f)[items[1].0 := f(items[1].1)];
    assert Updates(items, 3, f) == Updates(items, 2, f)[items[2].0 := f(items[2].1)];
    assert Updates(items, 4, f) == Updates(items, 3, f)[items[3].0 := f(items[3].1)];
    assert Updates(items, 5, f) == Updates(items, 4, f)[items[4].0 := f(items[4].1)];
    assert Updates(items, |items|, f) == Updates(items, 5, f)[items[5].0 := f(items[5].1)];
  }

  /** The loop's dict for a request: each of the six fields under its own key. */
  lemma NormalizedPayload(request: EventRequest, showFloat: real -> string)
    ensures Updates(Dump(request), |Dump(request)|, Normalizer(showFloat)) == map[
      LoadAccepted := NormalizeValue(request.loadAccepted, showFloat),
      PostedPrice := NormalizeValue(request.postedPrice, showFloat),
      FinalPrice := NormalizeValue(request.finalPrice, showFloat),
      TotalNegotiations := NormalizeValue(request.totalNegotiations, showFloat),
      CallSentiment := Strip(request.callSentiment),
      Commodity := Strip(request.commodity)]
  {
    var items := Dump(request);
    UpdatesSix(items, Normalizer(showFloat));
    assert items[0] == (LoadAccepted, request.loadAccepted);
    assert items[4].1 == TextValue(request.callSentiment);
    assert items[5].1 == TextValue(request.commodity);
  }

  const TruthyWords: set<string> := {"true", "1", "yes", "y"}

  /** _as_bool: true exactly for "true", "1", "yes" or "y" after trimming and lower-casing. */
  predicate AsBool(value: string) {
    Lower(Strip(value)) in TruthyWords
  }

  /** _as_int: int() accepts surrounding whitespace. */
  function AsInt(value: string): (r: Option<int>)
    ensures r.Some? ==> Strip(value) != []
  {
    ParseInt(Strip(value))
  }

  /** Every payload key is kept and created_at is added. */
  lemma NormalizedEventKeys(request: EventRequest, showFloat: real -> string, createdAt: string)
    ensures NormalizedEvent(request, showFloat, createdAt).Keys == EventKeys
  {
  }

  /** The stored load_accepted is the lower-cased normalised field. */
  lemma StoredLoadAccepted(request: EventRequest, showFloat: real -> string, createdAt: string)
    ensures LoadAccepted in NormalizedEvent(request, showFloat, createdAt)
    ensures NormalizedEvent(request, showFloat, createdAt)[LoadAccepted] == Lower(NormalizeValue(request.loadAccepted, showFloat))
  {
    var flag := Lower(NormalizeValue(request.loadAccepted, showFloat));
    var e := NormalizedEvent(request, showFloat, createdAt);
    assert e == map[
      LoadAccepted := flag,
      PostedPrice := NormalizeValue(request.postedPrice, showFloat),
      FinalPrice := NormalizeValue(request.finalPrice, showFloat),
      TotalNegotiations := NormalizeValue(request.totalNegotiations, showFloat),
      CallSentiment := Strip(request.callSentiment),
      Commodity := Strip(request.commodity),
      CreatedAt := createdAt];
  }

  /** The text a boolean is stored as reads back as the boolean. */
  lemma BoolTextReadsBack(b: bool, showFloat: real -> string)
    ensures AsBool(Lower(NormalizeValue(BoolValue(b), showFloat))) == b
  {
    var stored := Lower(NormalizeValue(BoolValue(b), showFloat));
    if b {
      assert stored == "true";
    } else {
      assert stored == "false";
    }
    TrimLeftFixed(stored);
    TrimRightFixed(stored);
  }

  /** A stored boolean reads back as itself. */
  lemma StoredBoolRoundTrip(request: EventRequest, showFloat: real -> string, createdAt: string)
    requires request.loadAccepted.BoolValue?
    ensures LoadAccepted in NormalizedEvent(request, showFloat, createdAt)
    ensures AsBool(NormalizedEvent(request, showFloat, createdAt)[LoadAccepted]) == request.loadAccepted.b
  {
    StoredLoadAccepted(request, showFloat, createdAt);
    BoolTextReadsBack(request.loadAccepted.b, showFloat);
  }

  /** Lower-cased trimmed text reads as the text itself would. */
  lemma TextReadsAlike(text: string, showFloat: real -> string)
    ensures AsBool(Lower(NormalizeValue(TextValue(text), showFloat))) == AsBool(text)
  {
    var stripped := Strip(text);
    StripLower(stripped);
    StripIdempotent(text);
    LowerIdempotent(stripped);
  }

  /** Stored text reads back as the text it came from would have read. */
  lemma StoredTextReadsAlike(request: EventRequest, showFloat: real -> string, createdAt: string)
    requires request.loadAccepted.TextValue?
    ensures LoadAccepted in NormalizedEvent(request, showFloat, createdAt)
    ensures AsBool(NormalizedEvent(request, showFloat, createdAt)[LoadAccepted]) == AsBool(request.loadAccepted.text)
  {
    StoredLoadAccepted(request, showFloat, createdAt);
    TextReadsAlike(request.loadAccepted.text, showFloat);
  }

  /** The stored round count is the normalised field. */
  lemma StoredTotalNegotiations(request: EventRequest, showFloat: real -> string, createdAt: string)
    ensures TotalNegotiations in NormalizedEvent(request, showFloat, createdAt)
    ensures NormalizedEvent(request, showFloat, createdAt)[TotalNegotiations] == NormalizeValue(request.totalNegotiations, showFloat)
  {
  }

  /** The text an integer is stored as reads back as the integer. */
  lemma IntTextReadsBack(n: int, showFloat: real -> string)
    ensures AsInt(NormalizeValue(IntValue(n), showFloat)) == Some(n)
  {
    assert NormalizeValue(IntValue(n), showFloat) == IntToString(n);
    IntTextStripped(n);
    IntRoundTrip(n);
  }

  /** A stored integer round count reads back as itself. */
  lemma StoredCountRoundTrip(request: EventRequest, showFloat: real -> string, createdAt: string)
    requires request.totalNegotiations.IntValue?
    ensures TotalNegotiations in NormalizedEvent(request, showFloat, createdAt)
    ensures AsInt(NormalizedEvent(request, showFloat, createdAt)[TotalNegotiations]) == Some(request.totalNegotiations.i)
  {
    StoredTotalNegotiations(request, showFloat, createdAt);
    IntTextReadsBack(request.totalNegotiations.i, showFloat);
  }

  /** A row as stored: every column is text. */
  datatype StoredRow = StoredRow(
    loadAccepted: string,
    postedPrice: string,
    finalPrice: string,
    totalNegotiations: string,
    callSentiment: string,
    commodity: string,
    createdAt: string)

  /** NegotiationEvent, the typed event returned to clients. */
  datatype Event = Event(
    loadAccepted: bool,
    postedPrice: real,
    finalPrice: real,
    totalNegotiations: int,
    callSentiment: string,
    commodity: string,
    createdAt: string)

  /** The event a row reads as, or None when a price or the round count does not parse. */
  function ReadRow(row: StoredRow, parseFloat: string -> Option<real>): Option<Event> {
    var postedPrice := parseFloat(row.postedPrice);
    var finalPrice := parseFloat(row.finalPrice);
    var total := AsInt(row.totalNegotiations);
    if postedPrice.None? || finalPrice.None? || total.None? then None
    else Some(Event(AsBool(row.loadAccepted), postedPrice.value, finalPrice.value, total.value,
                    row.callSentiment, row.commodity, row.createdAt))
  }

  /**
   * A row is skipped exactly when a price or the round count fails to parse;
   * otherwise its event carries the parsed values and the text columns unchanged.
   */
  lemma ReadRowCases(row: StoredRow, parseFloat: string -> Option<real>)
    ensures ReadRow(row, parseFloat).None? <==>
      parseFloat(row.postedPrice).None? || parseFloat(row.finalPrice).None? || AsInt(row.totalNegotiations).None?
    ensures ReadRow(row, parseFloat).Some? ==>
      var e := ReadRow(row, parseFloat).value;
      && Some(e.postedPrice) == parseFloat(row.postedPrice)
      && Some(e.finalPrice) == parseFloat(row.finalPrice)
      && Some(e.totalNegotiations) == AsInt(row.totalNegotiations)
      && e.loadAccepted == AsBool(row.loadAccepted)
      && e.callSentiment == row.callSentiment && e.commodity == row.commodity && e.createdAt == row.createdAt
  {
  }

  /** The events the rows read as, in row order, unreadable rows left out. */
  function ReadRows(rows: seq<StoredRow>, parseFloat: string -> Option<real>): (r: seq<Event>)
    ensures |r| <= |rows|
  {
    FilterMap(rows, (row: StoredRow) => ReadRow(row, parseFloat))
  }

  /** Reading one more row adds its event, if any, at the end. */
  lemma ReadRowsStep(rows: seq<StoredRow>, i: nat, parseFloat: string -> Option<real>)
    requires i < |rows|
    ensures ReadRows(rows[..i + 1], parseFloat) ==
      ReadRows(rows[..i], parseFloat) + (if ReadRow(rows[i], parseFloat).Some? then [ReadRow(rows[i], parseFloat).value] else [])
  {
    FilterMapStep(rows, i, (row: StoredRow) => ReadRow(row, parseFloat));
  }

  /** list_negotiation_events: the loop that skips the rows that do not parse. */
  method ListNegotiationEvents(rows: seq<StoredRow>, parseFloat: string -> Option<real>) returns (events: seq<Event>)
    ensures events == ReadRows(rows, parseFloat)
  {
    events := [];
    var i := 0;
    while i < |rows|
      invariant 0 <= i <= |rows|
      invariant events == ReadRows(rows[..i], parseFloat)
    {
      var row := rows[i];
      ReadRowsStep(rows, i, parseFloat);
      var postedPrice := parseFloat(row.postedPrice);
      var finalPrice := parseFloat(row.finalPrice);
      var total := AsInt(row.totalNegotiations);
      if postedPrice.None? || finalPrice.None? || total.None? {
        i := i + 1;
        continue;
      }
      events := events + [Event(AsBool(row.loadAccepted), postedPrice.value, finalPrice.value, total.value,
                                row.callSentiment, row.commodity, row.createdAt)];
      i := i + 1;
    }
    assert rows[..i] == rows;
  }

  /** Reading keeps row order: the rows of a concatenation read as the concatenation of their events. */
  lemma ReadRowsAppend(a: seq<StoredRow>, b: seq<StoredRow>, parseFloat: string -> Option<real>)
    ensures ReadRows(a + b, parseFloat) == ReadRows(a, parseFloat) + ReadRows(b, parseFloat)
  {
    FilterMapAppend(a, b, (row: StoredRow) => ReadRow(row, parseFloat));
  }

  /** Exactly the unreadable rows are dropped: when every row parses, every row yields its event. */
  lemma ReadRowsAllParse(rows: seq<StoredRow>, parseFloat: string -> Option<real>)
    requires forall i :: 0 <= i < |rows| ==> ReadRow(rows[i], parseFloat).Some?
    ensures |ReadRows(rows, parseFloat)| == |rows|
    ensures forall i :: 0 <= i < |rows| ==> ReadRows(rows, parseFloat)[i] == ReadRow(rows[i], parseFloat).value
  {
    FilterMapAll(rows, (row: StoredRow) => ReadRow(row, parseFloat));
  }
}
