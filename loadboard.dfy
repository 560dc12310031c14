/**
 * The command-line load board dashboard: one pass over the board's loads
 * counts them by equipment and by origin state, groups them by pickup date
 * and ranks them by rate; the report then lists the equipment mix, the top
 * origin states, the upcoming departures (three loads previewed per date)
 * and the five best-paying loads.
 *
 * The load service's helpers are parameters (see Helpers), and so are the
 * clock and the number formatting. A date is a day number.
 */
module LoadBoard {
  import opened Wrappers
  import opened Text
  import opened Json
  import opened Ranking
  import opened Tally

  /** What the dashboard takes from the load service, and float(). */
  datatype Helpers = Helpers(
    boardSnapshot: Option<int> -> seq<Fields>,  // load_board_snapshot(reference_date=...)
    originStateOf: Fields -> Option<string>,    // origin_state_for_load
    pickupDateOf: Fields -> Option<int>,        // pickup_date_for_load
    toFloat: Value -> Option<real>)             // float(value), None where it raises

  /** A load with the rate it is ranked by. */
  datatype RatedLoad = RatedLoad(load: Fields, rateValue: real)

  /** The loads picking up on one date, in the order they were met. */
  type Departure = (int, seq<Fields>)

  datatype Snapshot = Snapshot(
    loads: seq<Fields>,
    byEquipment: Counter,
    byOriginState: Counter,
    upcoming: seq<Departure>,
    topRates: seq<RatedLoad>,
    referenceDate: int)

  /** What the pass over the loads accumulates, before the groups and the ranking are sorted. */
  datatype Tallies = Tallies(
    byEquipment: Counter,
    byOriginState: Counter,
    departures: seq<Departure>,
    rated: seq<RatedLoad>)

  const TopRatesShown := 5

  // ---------------------------------------------------------------------------
  // What one pass over the loads computes

  /** `str(load.get("equipment_type") or "Unknown")`. */
  function EquipmentLabel(load: Fields): string {
    Show(Or(Get(load, "equipment_type"), Str("Unknown")))
  }

  /** A load without equipment, or with an empty one, is counted as "Unknown"; a named one under its name. */
  lemma EquipmentLabelCases(load: Fields)
    ensures !Truthy(Get(load, "equipment_type")) ==> EquipmentLabel(load) == "Unknown"
    ensures Get(load, "equipment_type").Str? && Get(load, "equipment_type").s != [] ==>
      EquipmentLabel(load) == Get(load, "equipment_type").s
  {
  }

  function LabelKey(load: Fields): Option<string> {
    Some(EquipmentLabel(load))
  }

  /** The origin state of a load when it has a non-empty one. */
  function KnownState(h: Helpers, load: Fields): Option<string> {
    var state := h.originStateOf(load);
    if state.Some? && state.value != [] then state else None
  }

  function StateKey(h: Helpers): Fields -> Option<string> {
    (load: Fields) => KnownState(h, load)
  }

  /** The parsed rate, 0 when the rate is missing or does not parse. */
  function RateValue(h: Helpers, load: Fields): real {
    h.toFloat(Get(load, "loadboard_rate")).GetOr(0.0)
  }

  function LoadRate(h: Helpers): Fields -> real {
    (load: Fields) => RateValue(h, load)
  }

  function RatedKey(h: Helpers): Fields -> Option<RatedLoad> {
    (load: Fields) => Some(RatedLoad(load, RateValue(h, load)))
  }

  function RatedValue(r: RatedLoad): real {
    r.rateValue
  }

  /** `departures[pickup].append(load)`: a date met for the first time opens a new group at the end. */
  function AddDeparture(departures: seq<Departure>, date: int, load: Fields): seq<Departure> {
    if departures == [] then [(date, [load])]
    else if departures[0].0 == date then [(date, departures[0].1 + [load])] + departures[1..]
    else [departures[0]] + AddDeparture(departures[1..], date, load)
  }

  /** The groups by pickup date after all of loads, loads without a date left out. */
  function Departures(loads: seq<Fields>, pickupDateOf: Fields -> Option<int>): seq<Departure> {
    if loads == [] then []
    else
      var front := Departures(loads[..|loads| - 1], pickupDateOf);
      var load := loads[|loads| - 1];
      if pickupDateOf(load).Some? then AddDeparture(front, pickupDateOf(load).value, load) else front
  }

  /** A group on or after today, with its loads best rate first. */
  function UpcomingKey(today: int, h: Helpers): Departure -> Option<Departure> {
    (d: Departure) => if d.0 >= today then Some((d.0, SortDesc(d.1, LoadRate(h)))) else None
  }

  /** Sorting by this key, largest first, puts the earliest date first. */
  function DateKey(d: Departure): real {
    -(d.0 as real)
  }

  function Upcoming(departures: seq<Departure>, today: int, h: Helpers): seq<Departure> {
    SortDesc(FilterMap(departures, UpcomingKey(today, h)), DateKey)
  }

  function TopRates(rated: seq<RatedLoad>): seq<RatedLoad> {
    Take(SortDesc(rated, RatedValue), TopRatesShown)
  }

  /** The snapshot of the given loads as of today. */
  function SnapshotOf(loads: seq<Fields>, today: int, h: Helpers): Snapshot {
    Snapshot(
      loads,
      CountAll(FilterMap(loads, LabelKey)),
      CountAll(FilterMap(loads, StateKey(h))),
      Upcoming(Departures(loads, h.pickupDateOf), today, h),
      TopRates(FilterMap(loads, RatedKey(h))),
      today)
  }

  /**
   * _collect_snapshot: the loads of the board for the reference date (today
   * when none is given), counted, grouped and ranked in one loop, then the
   * groups from today on and the ranking sorted.
   */
  method CollectSnapshot(referenceDate: Option<int>, now: int, h: Helpers) returns (snapshot: Snapshot)
    ensures snapshot == SnapshotOf(h.boardSnapshot(referenceDate), referenceDate.GetOr(now), h)
  {
    var loads := h.boardSnapshot(referenceDate);
    var today := referenceDate.GetOr(now);
    var byEquipment, byOriginState, departures, rated := TallyLoads(loads, h);
    var upcoming := UpcomingGroups(departures, today, h);
    snapshot := Snapshot(loads, byEquipment, byOriginState, SortDesc(upcoming, DateKey), TopRates(rated), today);
  }

  /** The loop over the loads: each load counted, grouped by date and rated. */
  method TallyLoads(loads: seq<Fields>, h: Helpers)
    returns (byEquipment: Counter, byOriginState: Counter, departures: seq<Departure>, rated: seq<RatedLoad>)
    ensures Tallies(byEquipment, byOriginState, departures, rated) == TalliesOf(loads, h)
  {
    byEquipment, byOriginState, departures, rated := [], [], [], [];
    var i := 0;
    while i < |loads|
      invariant 0 <= i <= |loads|
      invariant Tallies(byEquipment, byOriginState, departures, rated) == TalliesOf(loads[..i], h)
    {
      var load := loads[i];
      CollectStep(loads, i, h);
      byEquipment := Increment(byEquipment, EquipmentLabel(load));
      var originState := h.originStateOf(load);
      if originState.Some? && originState.value != [] {
        byOriginState := Increment(byOriginState, originState.value);
      }
      var pickup := h.pickupDateOf(load);
      if pickup.Some? {
        departures := AddDeparture(departures, pickup.value, load);
      }
      rated := rated + [RatedLoad(load, RateValue(h, load))];
      i := i + 1;
    }
    assert loads[..i] == loads;
  }

  /** The loop over the date groups: those from today on, each best rate first. */
  method UpcomingGroups(departures: seq<Departure>, today: int, h: Helpers) returns (upcoming: seq<Departure>)
    ensures upcoming == FilterMap(departures, UpcomingKey(today, h))
  {
    upcoming := [];
    var k := 0;
    while k < |departures|
      invariant 0 <= k <= |departures|
      invariant upcoming == FilterMap(departures[..k], UpcomingKey(today, h))
    {
      var pickupDate := departures[k].0;
      if pickupDate >= today {
        upcoming := upcoming + [(pickupDate, SortDesc(departures[k].1, LoadRate(h)))];
      }
      UpcomingStep(departures, k, today, h);
      k := k + 1;
    }
    assert departures[..k] == departures;
  }

  /** The running results after the given loads. */
  function TalliesOf(loads: seq<Fields>, h: Helpers): Tallies {
    Tallies(
      CountAll(FilterMap(loads, LabelKey)),
      CountAll(FilterMap(loads, StateKey(h))),
      Departures(loads, h.pickupDateOf),
      FilterMap(loads, RatedKey(h)))
  }

  /** One pass of the loop body: the load counted, grouped by its date and rated. */
  function AddLoad(t: Tallies, load: Fields, h: Helpers): Tallies {
    Tallies(
      Increment(t.byEquipment, EquipmentLabel(load)),
      if KnownState(h, load).Some? then Increment(t.byOriginState, KnownState(h, load).value) else t.byOriginState,
      if h.pickupDateOf(load).Some? then AddDeparture(t.departures, h.pickupDateOf(load).value, load) else t.departures,
      t.rated + [RatedLoad(load, RateValue(h, load))])
  }

  /** What one more load does to each of the running results. */
  lemma CollectStep(loads: seq<Fields>, i: nat, h: Helpers)
    requires i < |loads|
    ensures TalliesOf(loads[..i + 1], h) == AddLoad(TalliesOf(loads[..i], h), loads[i], h)
  {
    FilterMapStep(loads, i, LabelKey);
    CountAllStep(FilterMap(loads[..i], LabelKey), EquipmentLabel(loads[i]));
    FilterMapStep(loads, i, StateKey(h));
    if KnownState(h, loads[i]).Some? {
      CountAllStep(FilterMap(loads[..i], StateKey(h)), KnownState(h, loads[i]).value);
    }
    FilterMapStep(loads, i, RatedKey(h));
    assert loads[..i + 1][..i] == loads[..i];
  }

  /** What one more group does to the upcoming departures. */
  lemma UpcomingStep(departures: seq<Departure>, k: nat, today: int, h: Helpers)
    requires k < |departures|
    ensures FilterMap(departures[..k + 1], UpcomingKey(today, h)) ==
      FilterMap(departures[..k], UpcomingKey(today, h)) +
      (if departures[k].0 >= today then [(departures[k].0, SortDesc(departures[k].1, LoadRate(h)))] else [])
  {
    FilterMapStep(departures, k, UpcomingKey(today, h));
  }

  // ---------------------------------------------------------------------------
  // Properties of the snapshot

  /** The loads picking up on date d, in list order. */
  function OnDate(loads: seq<Fields>, pickupDateOf: Fields -> Option<int>, d: int): seq<Fields> {
    if loads == [] then []
    else
      var load := loads[|loads| - 1];
      OnDate(loads[..|loads| - 1], pickupDateOf, d) + (if pickupDateOf(load) == Some(d) then [load] else [])
  }

  /** The dates of the groups. */
  function Dates(departures: seq<Departure>): set<int> {
    if departures == [] then {} else {departures[0].0} + Dates(departures[1..])
  }

  /** The loads of the first group on date d, none when there is no such group. */
  function ItemsOn(departures: seq<Departure>, d: int): seq<Fields> {
    if departures == [] then []
    else if departures[0].0 == d then departures[0].1
    else ItemsOn(departures[1..], d)
  }

  /** No date has two groups. */
  predicate DistinctDates(departures: seq<Departure>) {
    departures == [] || (departures[0].0 !in Dates(departures[1..]) && DistinctDates(departures[1..]))
  }

  lemma {:induction false} AddDepartureSpec(departures: seq<Departure>, date: int, load: Fields)
    ensures Dates(AddDeparture(departures, date, load)) == Dates(departures) + {date}
    ensures forall d ::
      ItemsOn(AddDeparture(departures, date, load), d) == ItemsOn(departures, d) + (if d == date then [load] else [])
    ensures DistinctDates(departures) ==> DistinctDates(AddDeparture(departures, date, load))
  {
    if departures != [] && departures[0].0 != date {
      AddDepartureSpec(departures[1..], date, load);
      var r := AddDeparture(departures, date, load);
      assert r[0] == departures[0] && r[1..] == AddDeparture(departures[1..], date, load);
    } else if departures != [] {
      var r := AddDeparture(departures, date, load);
      assert r[1..] == departures[1..];
    }
  }

  /**
   * Grouping: each date's group holds exactly the loads with that pickup
   * date, in list order; a date has a group exactly when some load picks up
   * on it; and no date has two groups.
   */
  lemma {:induction false} DeparturesGrouped(loads: seq<Fields>, pickupDateOf: Fields -> Option<int>)
    ensures DistinctDates(Departures(loads, pickupDateOf))
    ensures forall d :: ItemsOn(Departures(loads, pickupDateOf), d) == OnDate(loads, pickupDateOf, d)
    ensures forall d :: d in Dates(Departures(loads, pickupDateOf)) <==> OnDate(loads, pickupDateOf, d) != []
  {
    if loads != [] {
      var front := loads[..|loads| - 1];
      var load := loads[|loads| - 1];
      DeparturesGrouped(front, pickupDateOf);
      if pickupDateOf(load).Some? {
        AddDepartureSpec(Departures(front, pickupDateOf), pickupDateOf(load).value, load);
      }
    }
  }

  lemma {:induction false} DatesHas(departures: seq<Departure>, k: nat)
    requires k < |departures|
    ensures departures[k].0 in Dates(departures)
  {
    if k > 0 {
      DatesHas(departures[1..], k - 1);
    }
  }

  lemma {:induction false} DatesAt(departures: seq<Departure>, d: int) returns (k: nat)
    requires d in Dates(departures)
    ensures k < |departures| && departures[k].0 == d
  {
    if departures[0].0 == d {
      k := 0;
    } else {
      k := DatesAt(departures[1..], d);
      k := k + 1;
    }
  }

  /** With distinct dates, a group's loads are the loads found for its date. */
  lemma {:induction false} ItemsOnAt(departures: seq<Departure>, k: nat)
    requires DistinctDates(departures) && k < |departures|
    ensures ItemsOn(departures, departures[k].0) == departures[k].1
  {
    if k > 0 {
      DatesHas(departures[1..], k - 1);
      ItemsOnAt(departures[1..], k - 1);
    }
  }

  /** Each group holds exactly the loads picking up on its date. */
  lemma GroupsAreDates(loads: seq<Fields>, pickupDateOf: Fields -> Option<int>, k: nat)
    requires k < |Departures(loads, pickupDateOf)|
    ensures var d := Departures(loads, pickupDateOf)[k];
      d.1 == OnDate(loads, pickupDateOf, d.0)
  {
    DeparturesGrouped(loads, pickupDateOf);
    ItemsOnAt(Departures(loads, pickupDateOf), k);
  }

  /** A listed departure comes from a group on or after today, its loads sorted. */
  lemma UpcomingEntry(loads: seq<Fields>, today: int, h: Helpers, k: nat)
    requires k < |SnapshotOf(loads, today, h).upcoming|
    ensures var d := SnapshotOf(loads, today, h).upcoming[k];
      && d.0 >= today
      && SortedDesc(d.1, LoadRate(h))
      && multiset(d.1) == multiset(OnDate(loads, h.pickupDateOf, d.0))
  {
    var departures := Departures(loads, h.pickupDateOf);
    var f := UpcomingKey(today, h);
    var kept := FilterMap(departures, f);
    var up := SnapshotOf(loads, today, h).upcoming;
    assert up == SortDesc(kept, DateKey);
    assert up[k] in multiset(kept);
    var m :| 0 <= m < |kept| && kept[m] == up[k];
    FilterMapFrom(departures, f);
    var j :| 0 <= j < |departures| && f(departures[j]) == Some(kept[m]);
    GroupsAreDates(loads, h.pickupDateOf, j);
    SortDescSorted(departures[j].1, LoadRate(h));
  }

  /**
   * Upcoming departures: only dates from today on, each with all the loads
   * picking up on that date, best rate first.
   */
  lemma UpcomingSpec(loads: seq<Fields>, today: int, h: Helpers)
    ensures var up := SnapshotOf(loads, today, h).upcoming;
      forall k :: 0 <= k < |up| ==>
        && up[k].0 >= today
        && SortedDesc(up[k].1, LoadRate(h))
        && multiset(up[k].1) == multiset(OnDate(loads, h.pickupDateOf, up[k].0))
  {
    var up := SnapshotOf(loads, today, h).upcoming;
    forall k | 0 <= k < |up|
      ensures up[k].0 >= today
      ensures SortedDesc(up[k].1, LoadRate(h))
      ensures multiset(up[k].1) == multiset(OnDate(loads, h.pickupDateOf, up[k].0))
    {
      UpcomingEntry(loads, today, h, k);
    }
  }

  /** Upcoming departures come earliest first. */
  lemma UpcomingAscending(loads: seq<Fields>, today: int, h: Helpers)
    ensures var up := SnapshotOf(loads, today, h).upcoming;
      forall i, j :: 0 <= i < j < |up| ==> up[i].0 <= up[j].0
  {
    SortDescSorted(FilterMap(Departures(loads, h.pickupDateOf), UpcomingKey(today, h)), DateKey);
  }

  /** Every date from today on on which some load picks up is listed. */
  lemma UpcomingComplete(loads: seq<Fields>, today: int, h: Helpers, d: int)
    requires d >= today && OnDate(loads, h.pickupDateOf, d) != []
    ensures var up := SnapshotOf(loads, today, h).upcoming;
      exists k :: 0 <= k < |up| && up[k].0 == d
  {
    var departures := Departures(loads, h.pickupDateOf);
    var f := UpcomingKey(today, h);
    var up := SnapshotOf(loads, today, h).upcoming;
    DeparturesGrouped(loads, h.pickupDateOf);
    var j := DatesAt(departures, d);
    var entry := (d, SortDesc(departures[j].1, LoadRate(h)));
    assert f(departures[j]) == Some(entry);
    FilterMapKeeps(departures, j, f);
    assert entry in multiset(up);
    var k :| 0 <= k < |up| && up[k] == entry;
    assert up[k].0 == d;
  }

  /** The equipment counts add up to the number of loads, each load counted under its label. */
  lemma EquipmentMix(loads: seq<Fields>, today: int, h: Helpers, equipment: string)
    ensures Total(SnapshotOf(loads, today, h).byEquipment) == |loads|
    ensures Count(SnapshotOf(loads, today, h).byEquipment, equipment) ==
      multiset(FilterMap(loads, LabelKey))[equipment]
    ensures |FilterMap(loads, LabelKey)| == |loads|
    ensures forall i :: 0 <= i < |loads| ==> FilterMap(loads, LabelKey)[i] == EquipmentLabel(loads[i])
  {
    FilterMapAll(loads, LabelKey);
    CountAllTotal(FilterMap(loads, LabelKey));
    CountAllCount(FilterMap(loads, LabelKey), equipment);
  }

  /**
   * Only loads with a non-empty origin state are counted by state, so at most
   * one per load; each state is counted once per load whose origin it is.
   */
  lemma OriginStates(loads: seq<Fields>, today: int, h: Helpers, state: string)
    ensures Total(SnapshotOf(loads, today, h).byOriginState) <= |loads|
    ensures Count(SnapshotOf(loads, today, h).byOriginState, "") == 0
    ensures Count(SnapshotOf(loads, today, h).byOriginState, state) ==
      multiset(FilterMap(loads, StateKey(h)))[state]
  {
    var states := FilterMap(loads, StateKey(h));
    CountAllTotal(states);
    CountAllCount(states, "");
    CountAllCount(states, state);
    FilterMapFrom(loads, StateKey(h));
    assert "" !in states;
  }

  /** Highest paying loads: five, or all of them when there are fewer. */
  lemma TopRatesSize(loads: seq<Fields>, today: int, h: Helpers)
    ensures |SnapshotOf(loads, today, h).topRates| == if |loads| <= TopRatesShown then |loads| else TopRatesShown
  {
    var rated := FilterMap(loads, RatedKey(h));
    FilterMapAll(loads, RatedKey(h));
    assert |SortDesc(rated, RatedValue)| == |loads|;
  }

  /**
   * Highest paying loads: best parsed rate first, each a load of the board
   * with its parsed rate (0 when missing or unparseable).
   */
  lemma TopRatesSpec(loads: seq<Fields>, today: int, h: Helpers)
    ensures SortedDesc(SnapshotOf(loads, today, h).topRates, RatedValue)
    ensures var top := SnapshotOf(loads, today, h).topRates;
      forall k :: 0 <= k < |top| ==> top[k].load in loads && top[k].rateValue == RateValue(h, top[k].load)
  {
    var rated := FilterMap(loads, RatedKey(h));
    var ranked := SortDesc(rated, RatedValue);
    var top := SnapshotOf(loads, today, h).topRates;
    assert top == Take(ranked, TopRatesShown);
    SortDescSorted(rated, RatedValue);
    FilterMapFrom(loads, RatedKey(h));
    forall k | 0 <= k < |top|
      ensures top[k].load in loads && top[k].rateValue == RateValue(h, top[k].load)
    {
      assert top[k] == ranked[k];
      assert ranked[k] in multiset(rated);
      var m :| 0 <= m < |rated| && rated[m] == top[k];
      var j :| 0 <= j < |loads| && RatedKey(h)(loads[j]) == Some(rated[m]);
    }
  }

  /** No load left out of the highest paying ones pays more than one listed. */
  lemma TopRatesBest(loads: seq<Fields>, today: int, h: Helpers, i: nat, j: nat)
    requires i < |SnapshotOf(loads, today, h).topRates| && j < |loads|
    requires RatedLoad(loads[j], RateValue(h, loads[j])) !in SnapshotOf(loads, today, h).topRates
    ensures SnapshotOf(loads, today, h).topRates[i].rateValue >= RateValue(h, loads[j])
  {
    var rated := FilterMap(loads, RatedKey(h));
    var ranked := SortDesc(rated, RatedValue);
    var top := SnapshotOf(loads, today, h).topRates;
    FilterMapAll(loads, RatedKey(h));
    SortDescSorted(rated, RatedValue);
    TakeOutranksRest(ranked, RatedValue, TopRatesShown);
    assert rated[j] in multiset(ranked);
    var m :| 0 <= m < |ranked| && ranked[m] == rated[j];
    assert m >= |top|;
  }

  // ---------------------------------------------------------------------------
  // The report

  /** The number and date formatting the report uses. */
  datatype Formats = Formats(
    isoDate: int -> string,          // f"{d:%Y-%m-%d}"
    dayDate: int -> string,          // f"{d:%a %Y-%m-%d}"
    money: Value -> string,          // f"${value:,.0f}"
    percent: (int, int) -> string)   // f"{(part / whole) * 100:.1f}%"

  const Title := "HappyRobot Load Board Dashboard"
  const NoLoadsLine := "No loads are currently available."
  const PreviewSize := 3
  const TopStatesShown := 5

  /** _format_percentage: "0%" for an empty whole. */
  function FormatPercentage(part: int, whole: int, fmt: Formats): string {
    if whole <= 0 then "0%" else fmt.percent(part, whole)
  }

  /** _format_currency: "--" for a missing rate. */
  function FormatCurrency(value: Value, fmt: Formats): string {
    if value.Null? then "--" else fmt.money(value)
  }

  /** `load.get(key, default)` as printed. */
  function FieldText(load: Fields, key: string, default: string): string {
    if HasKey(load, key) then Show(Get(load, key)) else default
  }

  function CounterLineOf(total: int, unit: string, fmt: Formats): Entry -> string {
    (e: Entry) => "  - " + e.0 + ": " + NatToString(e.1) + unit + " (" + FormatPercentage(e.1, total, fmt) + ")"
  }

  function DateHeader(d: Departure, fmt: Formats): string {
    "  " + fmt.dayDate(d.0) + ": " + NatToString(|d.1|) + " load" + (if |d.1| != 1 then "s" else "")
  }

  function PreviewLineOf(fmt: Formats): Fields -> string {
    (load: Fields) =>
      "    \U{2022} " + FieldText(load, "load_id", "N/A") + " | " + FieldText(load, "origin", "Unknown") + " \U{2192} " +
      FieldText(load, "destination", "Unknown") + " | " + FieldText(load, "equipment_type", "Unknown") + " | " +
      FormatCurrency(Get(load, "loadboard_rate"), fmt)
  }

  function MoreLine(extra: nat): string {
    "      \U{2026} " + NatToString(extra) + " more load(s) on this date"
  }

  /** One date of the upcoming departures: its header, up to three loads, and how many more there are. */
  function DateBlock(d: Departure, fmt: Formats): seq<string> {
    var preview := Take(d.1, PreviewSize);
    [DateHeader(d, fmt)] + Map(preview, PreviewLineOf(fmt)) +
    (if |d.1| > |preview| then [MoreLine(|d.1| - |preview|)] else [])
  }

  function DateBlockOf(fmt: Formats): Departure -> seq<string> {
    (d: Departure) => DateBlock(d, fmt)
  }

  function TopLineOf(fmt: Formats): RatedLoad -> string {
    (r: RatedLoad) =>
      "  - " + FieldText(r.load, "load_id", "N/A") + " (" + FieldText(r.load, "equipment_type", "Unknown") + ") " +
      FormatCurrency(Get(r.load, "loadboard_rate"), fmt) + " from " + FieldText(r.load, "origin", "Unknown") +
      " to " + FieldText(r.load, "destination", "Unknown")
  }

  function HeaderLines(s: Snapshot, fmt: Formats): seq<string> {
    [Title, Repeat('=', |Title|), "Reference date: " + fmt.isoDate(s.referenceDate),
     "Total loads available: " + NatToString(|s.loads|)]
  }

  function EquipmentSection(s: Snapshot, fmt: Formats): seq<string> {
    ["", "Equipment mix:"] + Map(MostCommon(s.byEquipment, |s.byEquipment|), CounterLineOf(|s.loads|, "", fmt))
  }

  function OriginSection(s: Snapshot, fmt: Formats): seq<string> {
    if s.byOriginState == [] then []
    else ["", "Top origin states:"] + Map(MostCommon(s.byOriginState, TopStatesShown), CounterLineOf(|s.loads|, " loads", fmt))
  }

  function UpcomingSection(s: Snapshot, fmt: Formats): seq<string> {
    if s.upcoming == [] then []
    else ["", "Upcoming departures:"] + Flatten(Map(s.upcoming, DateBlockOf(fmt)))
  }

  function TopRatesSection(s: Snapshot, fmt: Formats): seq<string> {
    if s.topRates == [] then []
    else ["", "Highest paying loads:"] + Map(s.topRates, TopLineOf(fmt))
  }

  /** What follows the header: the sections, or the notice that the board is empty. */
  function Body(s: Snapshot, fmt: Formats): seq<string> {
    if |s.loads| > 0 then EquipmentSection(s, fmt) + OriginSection(s, fmt) + UpcomingSection(s, fmt) + TopRatesSection(s, fmt)
    else ["", NoLoadsLine]
  }

  /** The lines of the report. */
  function DashboardLines(s: Snapshot, fmt: Formats): seq<string> {
    HeaderLines(s, fmt) + Body(s, fmt)
  }

  /** Appends one line per item. */
  method AppendLines<T>(lines: seq<string>, items: seq<T>, line: T -> string) returns (out: seq<string>)
    ensures out == lines + Map(items, line)
  {
    out := lines;
    var i := 0;
    while i < |items|
      invariant 0 <= i <= |items|
      invariant out == lines + Map(items[..i], line)
    {
      MapStep(items, i, line);
      out := out + [line(items[i])];
      i := i + 1;
    }
    assert items[..i] == items;
  }

  /** The lines of one upcoming date. */
  method DateLines(d: Departure, fmt: Formats) returns (block: seq<string>)
    ensures block == DateBlock(d, fmt)
  {
    block := [DateHeader(d, fmt)];
    var preview := Take(d.1, PreviewSize);
    block := AppendLines(block, preview, PreviewLineOf(fmt));
    if |d.1| > |preview| {
      block := block + [MoreLine(|d.1| - |preview|)];
    }
  }

  /** Appends the block of each upcoming date. */
  method AppendDepartures(lines: seq<string>, upcoming: seq<Departure>, fmt: Formats) returns (out: seq<string>)
    ensures out == lines + Flatten(Map(upcoming, DateBlockOf(fmt)))
  {
    out := lines;
    var k := 0;
    while k < |upcoming|
      invariant 0 <= k <= |upcoming|
      invariant out == lines + Flatten(Map(upcoming[..k], DateBlockOf(fmt)))
    {
      var block := DateLines(upcoming[k], fmt);
      AppendBlockStep(lines, upcoming, k, DateBlockOf(fmt), out, block);
      out := out + block;
      k := k + 1;
    }
    assert upcoming[..k] == upcoming;
  }

  /** render_dashboard's lines: the header, then each section's lines appended in turn. */
  method RenderLines(s: Snapshot, fmt: Formats) returns (lines: seq<string>)
    ensures lines == DashboardLines(s, fmt)
  {
    lines := [Title];
    lines := lines + [Repeat('=', |lines[0]|)];
    lines := lines + ["Reference date: " + fmt.isoDate(s.referenceDate)];
    lines := lines + ["Total loads available: " + NatToString(|s.loads|)];
    assert lines == HeaderLines(s, fmt);
    var body: seq<string>;
    if |s.loads| > 0 {
      var equipment := AppendLines(["", "Equipment mix:"], MostCommon(s.byEquipment, |s.byEquipment|),
                                   CounterLineOf(|s.loads|, "", fmt));
      var origin: seq<string> := [];
      if s.byOriginState != [] {
        origin := AppendLines(["", "Top origin states:"], MostCommon(s.byOriginState, TopStatesShown),
                              CounterLineOf(|s.loads|, " loads", fmt));
      }
      var upcoming: seq<string> := [];
      if s.upcoming != [] {
        upcoming := AppendDepartures(["", "Upcoming departures:"], s.upcoming, fmt);
      }
      var top: seq<string> := [];
      if s.topRates != [] {
        top := AppendLines(["", "Highest paying loads:"], s.topRates, TopLineOf(fmt));
      }
      body := equipment + origin + upcoming + top;
    } else {
      body := ["", NoLoadsLine];
    }
    assert body == Body(s, fmt);
    lines := lines + body;
  }

  /** render_dashboard: the report for the board as of the reference date, one line after another. */
  method RenderDashboard(referenceDate: Option<int>, now: int, h: Helpers, fmt: Formats) returns (output: string)
    ensures output == Join("\n", DashboardLines(SnapshotOf(h.boardSnapshot(referenceDate), referenceDate.GetOr(now), h), fmt))
  {
    var snapshot := CollectSnapshot(referenceDate, now, h);
    var lines := RenderLines(snapshot, fmt);
    output := Join("\n", lines);
  }

  // ---------------------------------------------------------------------------
  // Properties of the report

  /** The title is underlined with as many "=" as it has characters. */
  lemma Underlined(s: Snapshot, fmt: Formats)
    ensures var lines := DashboardLines(s, fmt);
      |lines| > 1 && lines[0] == Title && |lines[1]| == |lines[0]| && forall i :: 0 <= i < |lines[1]| ==> lines[1][i] == '='
  {
    var header := HeaderLines(s, fmt);
    assert DashboardLines(s, fmt)[..4] == header;
  }

  /** An empty board ends with the notice right after the header, and has no sections. */
  lemma EmptyBoard(s: Snapshot, fmt: Formats)
    requires s.loads == []
    ensures DashboardLines(s, fmt) == HeaderLines(s, fmt) + ["", NoLoadsLine]
    ensures DashboardLines(s, fmt)[|DashboardLines(s, fmt)| - 1] == NoLoadsLine
  {
  }

  /** A board with loads lists every equipment type it counted, most common first. */
  lemma EquipmentSectionSize(s: Snapshot, fmt: Formats)
    ensures |EquipmentSection(s, fmt)| == 2 + |s.byEquipment|
  {
    assert |SortDesc(s.byEquipment, CountOf)| == |s.byEquipment|;
  }

  /** At most five origin states and five loads are listed. */
  lemma SectionBounds(s: Snapshot, fmt: Formats)
    requires |s.topRates| <= TopRatesShown
    ensures |OriginSection(s, fmt)| <= 2 + TopStatesShown
    ensures |TopRatesSection(s, fmt)| <= 2 + TopRatesShown
    ensures OriginSection(s, fmt) == [] <==> s.byOriginState == []
    ensures TopRatesSection(s, fmt) == [] <==> s.topRates == []
  {
  }

  /**
   * A date previews its first three loads at most; the "more" line, giving
   * how many are not shown, comes exactly when the date has more than three.
   */
  lemma DateBlockShape(d: Departure, fmt: Formats)
    ensures var block := DateBlock(d, fmt);
      block[0] == DateHeader(d, fmt)
      && (|d.1| <= PreviewSize ==>
            |block| == 1 + |d.1| && forall i :: 1 <= i < |block| ==> block[i] == PreviewLineOf(fmt)(d.1[i - 1]))
      && (|d.1| > PreviewSize ==>
            |block| == 2 + PreviewSize && block[|block| - 1] == MoreLine(|d.1| - PreviewSize)
            && forall i :: 1 <= i <= PreviewSize ==> block[i] == PreviewLineOf(fmt)(d.1[i - 1]))
  {
  }
}
