/**
 * Matching a carrier to a load by origin state, with an equipment
 * preference: the state is the last comma-separated part of a "City, ST"
 * location, and among the loads from that state one with the carrier's
 * equipment is preferred. The random pick among the candidates is a
 * parameter, `roll`, which selects candidate `roll % |candidates|`.
 */
module LoadMatch {
  import opened Wrappers
  import opened Text
  import opened Ranking
  import opened Http
  import opened Database

  /** A piece trimmed, when something is left of it. */
  function NonBlank(piece: string): Option<string> {
    var t := Strip(piece);
    if t == [] then None else Some(t)
  }

  /** The trimmed non-blank pieces, in order. */
  function NonBlankPieces(pieces: seq<string>): seq<string> {
    FilterMap(pieces, NonBlank)
  }

  /** Every piece is blank. */
  predicate AllBlank(pieces: seq<string>) {
    forall i :: 0 <= i < |pieces| ==> IsBlank(pieces[i])
  }

  /** No piece survives exactly when every piece is blank. */
  lemma NonBlankPiecesEmpty(pieces: seq<string>)
    ensures NonBlankPieces(pieces) == [] <==> AllBlank(pieces)
  {
    FilterMapEmpty(pieces, NonBlank);
    forall i | 0 <= i < |pieces|
      ensures NonBlank(pieces[i]).None? <==> IsBlank(pieces[i])
    {
      StripEmptyIffBlank(pieces[i]);
    }
  }

  /** Every surviving piece, and so the last, has something left in it. */
  lemma NonBlankPiecesLastNonEmpty(pieces: seq<string>)
    ensures var parts := NonBlankPieces(pieces); parts != [] ==> parts[|parts| - 1] != []
  {
    var parts := NonBlankPieces(pieces);
    if parts != [] {
      FilterMapFrom(pieces, NonBlank);
      var j :| 0 <= j < |pieces| && NonBlank(pieces[j]) == Some(parts[|parts| - 1]);
    }
  }

  /** The last of the non-blank pieces, upper-cased; "" when there is none. */
  function LastState(pieces: seq<string>): string {
    var parts := NonBlankPieces(pieces);
    if parts == [] then "" else Upper(parts[|parts| - 1])
  }

  /** _extract_state: the last non-blank comma-separated segment, trimmed and upper-cased. */
  function ExtractState(location: string): string {
    LastState(Split(location, ','))
  }

  /** No state is found exactly when every piece is blank. */
  lemma LastStateEmpty(pieces: seq<string>)
    ensures LastState(pieces) == [] <==> AllBlank(pieces)
  {
    NonBlankPiecesLastNonEmpty(pieces);
    NonBlankPiecesEmpty(pieces);
  }

  /** The state is "" exactly when every comma-separated segment is blank. */
  lemma ExtractStateEmpty(location: string)
    ensures ExtractState(location) == [] <==> AllBlank(Split(location, ','))
  {
    LastStateEmpty(Split(location, ','));
  }

  /** A two-letter upper-case state code. */
  predicate IsStateCode(s: string) {
    |s| == 2 && 'A' <= s[0] <= 'Z' && 'A' <= s[1] <= 'Z'
  }

  /** The last non-blank piece is the trimmed last piece when that is not blank. */
  lemma NonBlankPiecesLast(pieces: seq<string>)
    requires pieces != [] && Strip(pieces[|pieces| - 1]) != []
    ensures var r := NonBlankPieces(pieces); r != [] && r[|r| - 1] == Strip(pieces[|pieces| - 1])
  {
  }

  /** " ST" trims to ST. */
  lemma StripSpacedCode(state: string)
    requires IsStateCode(state)
    ensures Strip(" " + state) == state
  {
    StripLeadingSpace(' ', state);
    assert " " + state == [' '] + state;
    TrimLeftFixed(state);
    TrimRightFixed(state);
  }

  /** Splitting "City, ST" at commas ends in the piece " ST". */
  lemma OriginSplits(city: string, state: string)
    requires ',' !in state
    ensures var pieces := Split(city + ", " + state, ','); pieces[|pieces| - 1] == " " + state
  {
    assert city + ", " + state == city + [','] + (" " + state);
    assert ',' !in " " + state;
    SplitLastPiece(city, ',', " " + state);
  }

  /** A state code is upper case already. */
  lemma UpperStateCode(state: string)
    requires IsStateCode(state)
    ensures Upper(state) == state
  {
  }

  /** A state code holds no comma. */
  lemma StateCodeNoComma(state: string)
    requires IsStateCode(state)
    ensures ',' !in state
  {
    assert state == [state[0], state[1]];
  }

  /** When the last piece is not blank, the state is that piece trimmed and upper-cased. */
  lemma LastStateOfLastPiece(pieces: seq<string>, last: string)
    requires pieces != [] && Strip(pieces[|pieces| - 1]) == last && last != []
    ensures LastState(pieces) == Upper(last)
  {
    NonBlankPiecesLast(pieces);
  }

  /** The state of a "City, ST" origin is ST again, whatever the city. */
  lemma ExtractStateOfOrigin(city: string, state: string)
    requires IsStateCode(state)
    ensures ExtractState(city + ", " + state) == state
  {
    var pieces := Split(city + ", " + state, ',');
    StateCodeNoComma(state);
    OriginSplits(city, state);
    StripSpacedCode(state);
    LastStateOfLastPiece(pieces, state);
    UpperStateCode(state);
    assert ExtractState(city + ", " + state) == LastState(pieces);
  }

  /** _normalize_equipment: trimmed and lower-cased. */
  function NormalizeEquipment(equipment: string): (r: string)
    ensures |r| <= |equipment|
  {
    Lower(Strip(equipment))
  }

  /** Normalising a normalised equipment name changes nothing. */
  lemma NormalizeEquipmentIdempotent(equipment: string)
    ensures NormalizeEquipment(NormalizeEquipment(equipment)) == NormalizeEquipment(equipment)
  {
    var stripped := Strip(equipment);
    StripLower(stripped);
    StripIdempotent(equipment);
    LowerIdempotent(stripped);
  }

  predicate FromState(load: Load, originState: string) {
    ExtractState(load.origin) == originState
  }

  predicate HasEquipment(load: Load, equipment: string) {
    NormalizeEquipment(load.equipmentType) == NormalizeEquipment(equipment)
  }

  /** The loads whose origin lies in the state, in stored order. */
  function StateMatches(loads: seq<Load>, originState: string): (r: seq<Load>)
    ensures forall i :: 0 <= i < |r| ==> r[i] in loads && FromState(r[i], originState)
    ensures forall i :: 0 <= i < |loads| && FromState(loads[i], originState) ==> loads[i] in r
  {
    Filter(loads, (load: Load) => FromState(load, originState))
  }

  /** The loads, among these, with the carrier's equipment. */
  function EquipmentMatches(loads: seq<Load>, equipment: string): (r: seq<Load>)
    ensures forall i :: 0 <= i < |r| ==> r[i] in loads && HasEquipment(r[i], equipment)
    ensures forall i :: 0 <= i < |loads| && HasEquipment(loads[i], equipment) ==> loads[i] in r
  {
    Filter(loads, (load: Load) => HasEquipment(load, equipment))
  }

  /** `equipment_matches or state_matches`. */
  function Candidates(loads: seq<Load>, originState: string, equipment: string): seq<Load> {
    var stateMatches := StateMatches(loads, originState);
    var equipmentMatches := EquipmentMatches(stateMatches, equipment);
    if equipmentMatches != [] then equipmentMatches else stateMatches
  }

  /**
   * _select_load: nothing for an empty state or a state no load starts
   * from; otherwise the drawn candidate.
   */
  function SelectLoad(loads: seq<Load>, originState: string, equipment: string, roll: nat): (r: Option<Load>)
    ensures r.Some? ==> r.value in loads && FromState(r.value, originState)
  {
    if originState == [] then None
    else
      var candidates := Candidates(loads, originState, equipment);
      if candidates == [] then None
      else
        var pick := candidates[roll % |candidates|];
        assert pick in StateMatches(loads, originState);
        Some(pick)
  }

  /** No load is selected exactly when the state is empty or no load starts there. */
  lemma SelectLoadNone(loads: seq<Load>, originState: string, equipment: string, roll: nat)
    ensures SelectLoad(loads, originState, equipment, roll).None? <==>
      originState == [] || forall i :: 0 <= i < |loads| ==> !FromState(loads[i], originState)
  {
    var stateMatches := StateMatches(loads, originState);
    if stateMatches != [] {
      assert stateMatches[0] in loads;
    }
  }

  /** When some load from the state has the carrier's equipment, the selected one has it too. */
  lemma SelectLoadPrefersEquipment(loads: seq<Load>, originState: string, equipment: string, roll: nat, i: nat)
    requires originState != [] && i < |loads|
    requires FromState(loads[i], originState) && HasEquipment(loads[i], equipment)
    ensures SelectLoad(loads, originState, equipment, roll).Some?
    ensures HasEquipment(SelectLoad(loads, originState, equipment, roll).value, equipment)
  {
    var stateMatches := StateMatches(loads, originState);
    var k :| 0 <= k < |stateMatches| && stateMatches[k] == loads[i];
    var equipmentMatches := EquipmentMatches(stateMatches, equipment);
    assert loads[i] in equipmentMatches;
    assert Candidates(loads, originState, equipment) == equipmentMatches;
    var pick := equipmentMatches[roll % |equipmentMatches|];
    assert SelectLoad(loads, originState, equipment, roll) == Some(pick);
  }

  /** Every candidate can be drawn: roll k picks candidate k. */
  lemma SelectLoadReachesEveryCandidate(loads: seq<Load>, originState: string, equipment: string, k: nat)
    requires originState != [] && k < |Candidates(loads, originState, equipment)|
    ensures SelectLoad(loads, originState, equipment, k) == Some(Candidates(loads, originState, equipment)[k])
  {
    var candidates := Candidates(loads, originState, equipment);
    assert SelectLoad(loads, originState, equipment, k) == Some(candidates[k % |candidates|]);
    ModSmall(k, |candidates|);
  }

  lemma ModSmall(k: nat, n: nat)
    requires k < n
    ensures k % n == k
  {
  }

  datatype CarrierRequest = CarrierRequest(origin: string, equipmentType: string)

  const NoLoadsDetail := "No loads available for the provided origin"

  /**
   * match_load: select among the stored loads for the request's state and
   * equipment; 404 when there is no candidate.
   */
  function MatchLoad(request: CarrierRequest, loads: seq<Load>, roll: nat): (r: Result<Load, HttpException>)
    ensures r.Err? ==> r.error == Raise(404, NoLoadsDetail)
    ensures r.Ok? ==> r.value in loads && FromState(r.value, ExtractState(request.origin))
  {
    match SelectLoad(loads, ExtractState(request.origin), request.equipmentType, roll)
    case None => Err(Raise(404, NoLoadsDetail))
    case Some(load) => Ok(load)
  }

  /** The 404 is raised exactly when the request names no state or no stored load starts there. */
  lemma MatchLoadNotFound(request: CarrierRequest, loads: seq<Load>, roll: nat)
    ensures MatchLoad(request, loads, roll).Err? <==>
      (ExtractState(request.origin) == [] ||
       forall i :: 0 <= i < |loads| ==> !FromState(loads[i], ExtractState(request.origin)))
  {
    SelectLoadNone(loads, ExtractState(request.origin), request.equipmentType, roll);
  }

  /**
   * Matching on a seed load's origin finds the state of its table row. The
   * requirement holds for every row of `Database.StateLoadDetails` by
   * inspection: each state is a two-letter upper-case postal code.
   */
  lemma SeedOriginState(index: nat, row: SeedRow)
    requires IsStateCode(row.state)
    ensures ExtractState(SeedLoad(index, row).origin) == row.state
  {
    ExtractStateOfOrigin(row.city, row.state);
  }
}
