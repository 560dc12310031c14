/**
 * Interpretation of a carrier-authority lookup (the FMCSA "QC" service's
 * JSON answer): trimming, status-code expansion, the allowed-to-operate flag,
 * the authority-status summary, the eligibility decision and the search for
 * the carrier block inside the payload.
 */
module Fmcsa {
  import opened Wrappers
  import opened Text
  import opened Json
  import opened Ranking

  datatype CarrierRecord = CarrierRecord(
    mc: string,
    dotNumber: Option<string>,
    carrierName: Option<string>,
    authorityStatus: Option<string>,
    eligible: bool)

  /** CarrierNotFoundError, carrying its message. */
  datatype LookupError = CarrierNotFound(message: string)

  // ---------------------------------------------------------------------------
  // Text of a field

  /**
   * _extract_str: None for a missing value, otherwise the trimmed text of the
   * value (its str() when it is not a string), and None again when that text
   * is empty. The result is never the empty string and is already trimmed.
   */
  function ExtractStr(v: Value): (r: Option<string>)
    ensures v == Null ==> r == None
    ensures v.Str? && r.Some? ==> r.value == Strip(v.s)
    ensures r.Some? ==> r.value != [] && Strip(r.value) == r.value
  {
    if v == Null then None
    else
      var raw := if v.Str? then v.s else Show(v);
      var text := Strip(raw);
      StripIdempotent(raw);
      if text == [] then None else Some(text)
  }

  /** A string field is absent exactly when it is blank: empty or only whitespace. */
  lemma ExtractStrNoneIffBlank(s: string)
    ensures ExtractStr(Str(s)).None? <==> IsBlank(s)
  {
    StripEmptyIffBlank(s);
  }

  // ---------------------------------------------------------------------------
  // One-letter status codes

  /** The one-letter authority codes (lower case) and the words they stand for. */
  function StatusCodeName(code: char): (r: Option<string>)
    ensures r.Some? ==> |r.value| >= 6
  {
    match code
    case 'a' => Some("Active")
    case 'i' => Some("Inactive")
    case 'n' => Some("Inactive")
    case 'o' => Some("Out of Service")
    case 's' => Some("Suspended")
    case 'v' => Some("Inactive (voluntary)")
    case 'p' => Some("Pending")
    case 'r' => Some("Revoked")
    case _ => None
  }

  /** The name a trimmed, lower-cased code has in the table, if any. */
  function KnownCode(normalized: string): (r: Option<string>)
    ensures r.Some? ==> |normalized| == 1 && r == StatusCodeName(normalized[0])
  {
    if |normalized| == 1 then StatusCodeName(normalized[0]) else None
  }

  /**
   * _expand_status_code: a known code, in either case and with any
   * surrounding whitespace, becomes its name; any other non-blank code is
   * returned trimmed and otherwise unchanged; a blank code gives None.
   */
  function ExpandStatusCode(code: Value): (r: Option<string>)
    ensures r.None? <==> ExtractStr(code).None?
    ensures r.Some? ==> r.value != []
  {
    match ExtractStr(code)
    case None => None
    case Some(extracted) =>
      var known := KnownCode(Lower(extracted));
      if known.Some? then known else Some(extracted)
  }

  /**
   * A one-letter code, in either case and padded with any whitespace, is
   * named by the table entry of its lower-case letter; a letter the table
   * lacks comes back as itself.
   */
  lemma ExpandOneLetterCode(s: string, c: char)
    requires Strip(s) == [c]
    ensures ExpandStatusCode(Str(s)) == if StatusCodeName(LowerChar(c)).Some?
                                        then StatusCodeName(LowerChar(c)) else Some([c])
  {
    assert Lower([c]) == [LowerChar(c)];
  }

  /** A code longer than one letter is never looked up: it comes back trimmed. */
  lemma ExpandLongCode(s: string)
    requires |Strip(s)| > 1
    ensures ExpandStatusCode(Str(s)) == Some(Strip(s))
  {
  }

  // ---------------------------------------------------------------------------
  // The allowed-to-operate flag

  const TruthyFlags: set<string> := {"y", "yes", "true", "1"}
  const FalsyFlags: set<string> := {"n", "no", "false", "0"}

  /** The flag's trimmed, lower-cased text is one of the yes-words. */
  predicate FlagIsTruthy(flag: Value) {
    ExtractStr(flag).Some? && Lower(ExtractStr(flag).value) in TruthyFlags
  }

  /** The flag's trimmed, lower-cased text is one of the no-words. */
  predicate FlagIsFalsy(flag: Value) {
    ExtractStr(flag).Some? && Lower(ExtractStr(flag).value) in FalsyFlags
  }

  lemma FlagWordsDisjoint(word: string)
    ensures word in TruthyFlags ==> word !in FalsyFlags
  {
  }

  const AllowedText := "Allowed to operate"
  const NotAllowedText := "Not allowed to operate"

  /**
   * _interpret_allowed_flag: yes-words give "Allowed to operate", no-words
   * "Not allowed to operate", any other non-blank text "Allowed to operate:
   * <text>", and a blank flag None.
   */
  function InterpretAllowedFlag(flag: Value): (r: Option<string>)
    ensures r.None? <==> ExtractStr(flag).None?
    ensures r.Some? ==> r.value != []
  {
    match ExtractStr(flag)
    case None => None
    case Some(extracted) =>
      var normalized := Lower(extracted);
      if normalized in TruthyFlags then Some(AllowedText)
      else if normalized in FalsyFlags then Some(NotAllowedText)
      else Some(AllowedText + ": " + extracted)
  }

  /**
   * Which text the flag gets: "Allowed to operate" exactly for a yes-word,
   * "Not allowed to operate" exactly for a no-word, and for any other
   * non-blank flag its trimmed text behind "Allowed to operate: ".
   */
  lemma InterpretAllowedFlagWords(flag: Value)
    ensures InterpretAllowedFlag(flag) == Some(AllowedText) <==> FlagIsTruthy(flag)
    ensures InterpretAllowedFlag(flag) == Some(NotAllowedText) <==> FlagIsFalsy(flag)
    ensures InterpretAllowedFlag(flag).Some? && !FlagIsTruthy(flag) && !FlagIsFalsy(flag) ==>
              InterpretAllowedFlag(flag).value == AllowedText + ": " + ExtractStr(flag).value
  {
    if ExtractStr(flag).Some? {
      var extracted := ExtractStr(flag).value;
      FlagWordsDisjoint(Lower(extracted));
      var text := AllowedText + ": " + extracted;
      assert text[0] == 'A' && NotAllowedText[0] == 'N';
      assert |text| > |AllowedText|;
    }
  }

  // ---------------------------------------------------------------------------
  // Does a status text mean "active"?

  /**
   * _status_text_indicates_active exactly as written: false for a missing or
   * empty text and for a text mentioning "inactive" or "revoked" or both
   * "not" and "authorized"; otherwise true when it mentions "active",
   * "authorized" or "allowed". A "not" before "allowed" is not looked for.
   */
  predicate StatusTextIndicatesActiveAsWritten(status: Option<string>) {
    status.Some? && status.value != [] &&
    var normalized := Lower(status.value);
    !(Contains(normalized, "inactive") || Contains(normalized, "revoked")) &&
    !(Contains(normalized, "not") && Contains(normalized, "authorized")) &&
    (Contains(normalized, "active") || Contains(normalized, "authorized") || Contains(normalized, "allowed"))
  }

  /**
   * The same test with the negation applied to "allowed" as well as to
   * "authorized", so that the "Not allowed to operate" fragment this module
   * itself produces is not read as an authorisation.
   */
  predicate StatusTextIndicatesActive(status: Option<string>) {
    status.Some? && status.value != [] &&
    var normalized := Lower(status.value);
    !(Contains(normalized, "inactive") || Contains(normalized, "revoked")) &&
    !(Contains(normalized, "not") && (Contains(normalized, "authorized") || Contains(normalized, "allowed"))) &&
    (Contains(normalized, "active") || Contains(normalized, "authorized") || Contains(normalized, "allowed"))
  }

  // ---------------------------------------------------------------------------
  // The authority-status summary

  /** The descriptive fields, most specific first. */
  function DescriptiveFields(carrier: Fields): seq<Value> {
    [Get(carrier, "operatingStatus"), Get(carrier, "authorityStatus"),
     Get(carrier, "authorityDescription"), Get(carrier, "operatingStatusDesc")]
  }

  /** The status-code fields, in the order the summary and the eligibility cascade read them. */
  function StatusCodes(carrier: Fields): (r: seq<Value>)
    ensures |r| == 4
  {
    [Get(carrier, "statusCode"), Get(carrier, "commonAuthorityStatus"),
     Get(carrier, "contractAuthorityStatus"), Get(carrier, "brokerAuthorityStatus")]
  }

  /** The same fields, each with the label the summary gives it. */
  function CodeFields(carrier: Fields): (r: seq<(string, Value)>)
    ensures |r| == 4 && forall i :: 0 <= i < 4 ==> r[i].1 == StatusCodes(carrier)[i]
  {
    var codes := StatusCodes(carrier);
    [("Status", codes[0]), ("Common", codes[1]), ("Contract", codes[2]), ("Broker", codes[3])]
  }

  /** values[i] is the first of the values with a non-blank text. */
  predicate FirstNonBlankAt(values: seq<Value>, i: int) {
    0 <= i < |values| && ExtractStr(values[i]).Some? &&
    forall j :: 0 <= j < i ==> ExtractStr(values[j]).None?
  }

  /** The first of the values with a non-blank text, trimmed. */
  function FirstText(values: seq<Value>): (r: Option<string>)
    ensures r.Some? ==> r.value != []
    ensures r.Some? ==> exists i :: FirstNonBlankAt(values, i) && ExtractStr(values[i]) == r
    ensures r.None? ==> forall i :: 0 <= i < |values| ==> ExtractStr(values[i]).None?
  {
    if values == [] then None
    else if ExtractStr(values[0]).Some? then
      assert FirstNonBlankAt(values, 0);
      ExtractStr(values[0])
    else
      var rest := FirstText(values[1..]);
      if rest.Some? then
        var k :| FirstNonBlankAt(values[1..], k) && ExtractStr(values[1..][k]) == rest;
        FirstNonBlankAfterBlank(values, k);
        rest
      else
        rest
  }

  /** A first non-blank value after a blank head is the first one of the whole. */
  lemma FirstNonBlankAfterBlank(values: seq<Value>, k: int)
    requires values != [] && ExtractStr(values[0]).None?
    requires FirstNonBlankAt(values[1..], k)
    ensures FirstNonBlankAt(values, k + 1) && values[k + 1] == values[1..][k]
  {
    forall j | 0 <= j < k + 1
      ensures ExtractStr(values[j]).None?
    {
      if j > 0 {
        assert values[j] == values[1..][j - 1];
      }
    }
  }

  /** "<label>: <expanded code>" for a code field whose code is not blank. */
  function CodeFragment(field: (string, Value)): (r: Option<string>)
    ensures r.Some? ==> r.value != []
  {
    match ExpandStatusCode(field.1)
    case Some(expanded) => Some(field.0 + ": " + expanded)
    case None => None
  }

  /** The labelled codes, one per code field whose code is not blank. */
  function CodeFragments(fields: seq<(string, Value)>): seq<string> {
    FilterMap(fields, CodeFragment)
  }

  function OptionToSeq(o: Option<string>): (r: seq<string>)
    ensures |r| <= 1
    ensures o.Some? ==> r == [o.value]
    ensures o.None? ==> r == []
  {
    if o.Some? then [o.value] else []
  }

  /**
   * The fragments a summary is built from: at most one descriptive text,
   * then the labelled codes, then the allowed-to-operate interpretation.
   */
  function FragmentsOf(descriptive: seq<Value>, codeFields: seq<(string, Value)>, allowedFlag: Value): seq<string> {
    OptionToSeq(FirstText(descriptive)) + CodeFragments(codeFields) + OptionToSeq(InterpretAllowedFlag(allowedFlag))
  }

  /** The fragments of a carrier block. */
  function Fragments(carrier: Fields): seq<string> {
    FragmentsOf(DescriptiveFields(carrier), CodeFields(carrier), Get(carrier, "allowedToOperate"))
  }

  predicate AllNonEmpty(s: seq<string>) {
    forall k :: 0 <= k < |s| ==> s[k] != []
  }

  /** No labelled code is empty. */
  lemma CodeFragmentsNonEmpty(codeFields: seq<(string, Value)>)
    ensures AllNonEmpty(CodeFragments(codeFields))
  {
    var codes := CodeFragments(codeFields);
    FilterMapFrom(codeFields, CodeFragment);
    forall k | 0 <= k < |codes|
      ensures codes[k] != []
    {
      var j :| 0 <= j < |codeFields| && CodeFragment(codeFields[j]) == Some(codes[k]);
    }
  }

  lemma OptionNonEmpty(o: Option<string>)
    requires o.Some? ==> o.value != []
    ensures AllNonEmpty(OptionToSeq(o))
  {
  }

  /** No fragment is empty. */
  lemma FragmentsOfNonEmpty(descriptive: seq<Value>, codeFields: seq<(string, Value)>, allowedFlag: Value)
    ensures AllNonEmpty(FragmentsOf(descriptive, codeFields, allowedFlag))
  {
    var first := OptionToSeq(FirstText(descriptive));
    var codes := CodeFragments(codeFields);
    var allowed := OptionToSeq(InterpretAllowedFlag(allowedFlag));
    OptionNonEmpty(FirstText(descriptive));
    OptionNonEmpty(InterpretAllowedFlag(allowedFlag));
    CodeFragmentsNonEmpty(codeFields);
    AllNonEmptyConcat(first, codes);
    AllNonEmptyConcat(first + codes, allowed);
    assert FragmentsOf(descriptive, codeFields, allowedFlag) == first + codes + allowed;
  }

  lemma AllNonEmptyConcat(a: seq<string>, b: seq<string>)
    requires AllNonEmpty(a) && AllNonEmpty(b)
    ensures AllNonEmpty(a + b)
  {
    assert forall k :: 0 <= k < |a + b| ==> (a + b)[k] == if k < |a| then a[k] else b[k - |a|];
  }

  /** Keep the first occurrence of every non-empty fragment, in order. */
  function Dedup(s: seq<string>): (r: seq<string>)
    ensures |r| <= |s|
  {
    if s == [] then []
    else
      var kept := Dedup(s[..|s| - 1]);
      var last := s[|s| - 1];
      if last == [] || last in kept then kept else kept + [last]
  }

  /** The kept fragments joined by "; ", or None when that is empty. */
  function Summary(fragments: seq<string>): Option<string> {
    var joined := Join("; ", Dedup(fragments));
    if joined == [] then None else Some(joined)
  }

  /** _normalize_authority_status, as a value. */
  function AuthorityStatus(carrier: Fields): Option<string> {
    Summary(Fragments(carrier))
  }

  /** The descriptive loop of _normalize_authority_status: stop at the first non-blank field. */
  method FirstDescriptive(descriptive: seq<Value>) returns (fragments: seq<string>)
    ensures fragments == OptionToSeq(FirstText(descriptive))
  {
    fragments := [];
    var i := 0;
    while i < |descriptive|
      invariant 0 <= i <= |descriptive|
      invariant FirstText(descriptive) == FirstText(descriptive[i..])
    {
      var extracted := ExtractStr(descriptive[i]);
      if extracted.Some? {
        fragments := [extracted.value];
        return;
      }
      assert descriptive[i..][1..] == descriptive[i + 1..];
      i := i + 1;
    }
  }

  /** The code loop of _normalize_authority_status: label every non-blank code. */
  method LabelCodes(fields: seq<(string, Value)>) returns (fragments: seq<string>)
    ensures fragments == CodeFragments(fields)
  {
    fragments := [];
    for j := 0 to |fields|
      invariant fragments == FilterMap(fields[..j], CodeFragment)
    {
      FilterMapStep(fields, j, CodeFragment);
      var fieldLabel := fields[j].0;
      var expanded := ExpandStatusCode(fields[j].1);
      if expanded.Some? {
        fragments := fragments + [fieldLabel + ": " + expanded.value];
      }
    }
    assert fields[..|fields|] == fields;
  }

  /** The final loop of _normalize_authority_status: drop repeated (and empty) fragments. */
  method KeepFirstOccurrences(fragments: seq<string>) returns (unique: seq<string>)
    ensures unique == Dedup(fragments)
  {
    unique := [];
    var k := 0;
    while k < |fragments|
      invariant 0 <= k <= |fragments|
      invariant unique == Dedup(fragments[..k])
    {
      assert fragments[..k + 1][..k] == fragments[..k];
      if fragments[k] != [] && fragments[k] !in unique {
        unique := unique + [fragments[k]];
      }
      k := k + 1;
    }
    assert fragments[..k] == fragments;
  }

  /**
   * The body of _normalize_authority_status: the first non-blank descriptive
   * field, the labelled non-blank codes, then the flag's interpretation;
   * repeats dropped, the rest joined by "; ", None when nothing is left.
   */
  method Summarize(descriptive: seq<Value>, codeFields: seq<(string, Value)>, allowedFlag: Value)
    returns (status: Option<string>)
    ensures status == Summary(FragmentsOf(descriptive, codeFields, allowedFlag))
  {
    var first := FirstDescriptive(descriptive);
    var labelled := LabelCodes(codeFields);
    var fragments := first + labelled;
    var allowed := InterpretAllowedFlag(allowedFlag);
    if allowed.Some? {
      fragments := fragments + [allowed.value];
    }
    FragmentsOfParts(descriptive, codeFields, allowedFlag, first + labelled, fragments);
    var unique := KeepFirstOccurrences(fragments);
    var joined := Join("; ", unique);
    status := if joined == [] then None else Some(joined);
  }

  /** The fragments are those before the flag, then the flag's text when there is one. */
  lemma FragmentsOfParts(descriptive: seq<Value>, codeFields: seq<(string, Value)>, allowedFlag: Value,
                         before: seq<string>, fragments: seq<string>)
    requires before == OptionToSeq(FirstText(descriptive)) + CodeFragments(codeFields)
    requires fragments == if InterpretAllowedFlag(allowedFlag).Some?
                          then before + [InterpretAllowedFlag(allowedFlag).value] else before
    ensures fragments == FragmentsOf(descriptive, codeFields, allowedFlag)
  {
  }

  /** _normalize_authority_status: the summary of a carrier block's fields. */
  method NormalizeAuthorityStatus(carrier: Fields) returns (status: Option<string>)
    ensures status == AuthorityStatus(carrier)
  {
    status := Summarize(DescriptiveFields(carrier), CodeFields(carrier), Get(carrier, "allowedToOperate"));
  }

  /** Dedup keeps exactly the non-empty fragments. */
  lemma {:induction false} DedupElements(s: seq<string>, x: string)
    ensures x in Dedup(s) <==> x in s && x != []
    decreases |s|
  {
    if s != [] {
      DedupElements(s[..|s| - 1], x);
      assert s == s[..|s| - 1] + [s[|s| - 1]];
    }
  }

  /** Dedup keeps each fragment once. */
  lemma {:induction false} DedupDistinct(s: seq<string>)
    ensures forall i, j :: 0 <= i < j < |Dedup(s)| ==> Dedup(s)[i] != Dedup(s)[j]
    decreases |s|
  {
    if s != [] {
      DedupDistinct(s[..|s| - 1]);
    }
  }

  /** The position of the first occurrence of x in s. */
  function FirstIndex(s: seq<string>, x: string): (k: nat)
    requires x in s
    ensures k < |s| && s[k] == x && x !in s[..k]
  {
    if s[0] == x then 0 else 1 + FirstIndex(s[1..], x)
  }

  /** The first occurrence is the one index holding x with no x before it. */
  lemma {:induction false} FirstIndexUnique(s: seq<string>, x: string, k: nat)
    requires k < |s| && s[k] == x && x !in s[..k]
    ensures FirstIndex(s, x) == k
  {
    if k > 0 {
      assert s[..k][0] == s[0];
      assert s[1..][..k - 1] == s[..k][1..];
      FirstIndexUnique(s[1..], x, k - 1);
    }
  }

  lemma FirstIndexInPrefix(s: seq<string>, n: nat, x: string)
    requires n <= |s| && x in s[..n]
    ensures x in s && FirstIndex(s, x) == FirstIndex(s[..n], x)
  {
    var k := FirstIndex(s[..n], x);
    assert s[..n][..k] == s[..k];
    FirstIndexUnique(s, x, k);
  }

  /** The elements of d occur in s, ordered by where they first occur there. */
  predicate InFirstOccurrenceOrder(s: seq<string>, d: seq<string>) {
    && (forall x :: x in d ==> x in s)
    && (forall i, j :: 0 <= i < j < |d| ==> d[i] in s && d[j] in s && FirstIndex(s, d[i]) < FirstIndex(s, d[j]))
  }

  /** Lengthening s keeps the order of elements that already occur in its front. */
  lemma InFirstOccurrenceOrderExtend(s: seq<string>, n: nat, d: seq<string>)
    requires n <= |s| && InFirstOccurrenceOrder(s[..n], d)
    ensures InFirstOccurrenceOrder(s, d)
    ensures forall x :: x in d ==> FirstIndex(s, x) < n
  {
    forall x | x in d
      ensures x in s && FirstIndex(s, x) == FirstIndex(s[..n], x)
    {
      FirstIndexInPrefix(s, n, x);
    }
  }

  /** An element first occurring after every element of d can follow them. */
  lemma InFirstOccurrenceOrderAppend(s: seq<string>, d: seq<string>, last: string)
    requires InFirstOccurrenceOrder(s, d) && last in s
    requires forall x :: x in d ==> FirstIndex(s, x) < FirstIndex(s, last)
    ensures InFirstOccurrenceOrder(s, d + [last])
  {
    var e := d + [last];
    forall i, j | 0 <= i < j < |e|
      ensures e[i] in s && e[j] in s && FirstIndex(s, e[i]) < FirstIndex(s, e[j])
    {
      assert e[i] == d[i];
      if j < |d| {
        assert e[j] == d[j];
      }
    }
  }

  /** Dedup lists the fragments in the order of their first occurrences. */
  lemma {:induction false} DedupFirstOccurrenceOrder(s: seq<string>)
    ensures InFirstOccurrenceOrder(s, Dedup(s))
    decreases |s|
  {
    if s != [] {
      var n := |s| - 1;
      var kept := Dedup(s[..n]);
      var last := s[n];
      DedupFirstOccurrenceOrder(s[..n]);
      InFirstOccurrenceOrderExtend(s, n, kept);
      if !(last == [] || last in kept) {
        DedupElements(s[..n], last);
        FirstIndexUnique(s, last, n);
        InFirstOccurrenceOrderAppend(s, kept, last);
      }
    }
  }

  /** A summary is absent exactly when there is no fragment at all. */
  lemma SummaryNoneIff(fragments: seq<string>)
    requires AllNonEmpty(fragments)
    ensures Summary(fragments).None? <==> fragments == []
  {
    var unique := Dedup(fragments);
    if fragments != [] {
      DedupElements(fragments, fragments[0]);
      var i :| 0 <= i < |unique| && unique[i] == fragments[0];
      JoinNonEmpty("; ", unique);
    }
  }

  /** Every fragment is spelled out in the summary. */
  lemma SummaryMentions(fragments: seq<string>, k: nat)
    requires AllNonEmpty(fragments)
    requires k < |fragments|
    ensures Summary(fragments).Some?
    ensures Contains(Summary(fragments).value, fragments[k])
  {
    var unique := Dedup(fragments);
    SummaryNoneIff(fragments);
    DedupElements(fragments, fragments[k]);
    var i :| 0 <= i < |unique| && unique[i] == fragments[k];
    JoinContainsPart("; ", unique, i);
  }

  /** The summary is absent exactly when the block yields no fragment at all. */
  lemma AuthorityStatusNoneIff(carrier: Fields)
    ensures AuthorityStatus(carrier).None? <==> Fragments(carrier) == []
  {
    FragmentsOfNonEmpty(DescriptiveFields(carrier), CodeFields(carrier), Get(carrier, "allowedToOperate"));
    SummaryNoneIff(Fragments(carrier));
  }

  /** Every fragment of the block is spelled out in its summary. */
  lemma AuthorityStatusMentions(carrier: Fields, k: nat)
    requires k < |Fragments(carrier)|
    ensures AuthorityStatus(carrier).Some?
    ensures Contains(AuthorityStatus(carrier).value, Fragments(carrier)[k])
  {
    FragmentsOfNonEmpty(DescriptiveFields(carrier), CodeFields(carrier), Get(carrier, "allowedToOperate"));
    SummaryMentions(Fragments(carrier), k);
  }

  // ---------------------------------------------------------------------------
  // Eligibility

  /**
   * What one status code says on its own: a code starting with "a" (or the
   * word "yes") accepts, one starting with "i", "r" or "s" rejects, anything
   * else (including a blank code) is skipped.
   */
  function CodeVerdict(code: Value): Option<bool> {
    match ExtractStr(code)
    case None => None
    case Some(extracted) =>
      var normalized := Lower(extracted);
      if StartsWith(normalized, "a") || normalized == "yes" then Some(true)
      else if StartsWith(normalized, "i") || StartsWith(normalized, "r") || StartsWith(normalized, "s") then Some(false)
      else None
  }

  /** The verdict of the first code that has one, or false when none has. */
  function FirstVerdict(codes: seq<Value>): bool {
    if codes == [] then false
    else match CodeVerdict(codes[0])
      case Some(verdict) => verdict
      case None => FirstVerdict(codes[1..])
  }

  /** The cascade, given the outcome of the status-text test. */
  predicate EligibleGiven(textIsActive: bool, carrier: Fields) {
    textIsActive || FlagIsTruthy(Get(carrier, "allowedToOperate")) || FirstVerdict(StatusCodes(carrier))
  }

  /** _determine_eligibility as the source writes it. */
  predicate EligibilityAsWritten(carrier: Fields, statusText: Option<string>) {
    EligibleGiven(StatusTextIndicatesActiveAsWritten(statusText), carrier)
  }

  /** _determine_eligibility with the corrected status-text test. */
  predicate Eligibility(carrier: Fields, statusText: Option<string>) {
    EligibleGiven(StatusTextIndicatesActive(statusText), carrier)
  }

  /** The status-code loop of _determine_eligibility: the first decisive code wins. */
  method FirstCodeVerdict(codes: seq<Value>) returns (eligible: bool)
    ensures eligible == FirstVerdict(codes)
  {
    var i := 0;
    while i < |codes|
      invariant 0 <= i <= |codes|
      invariant FirstVerdict(codes) == FirstVerdict(codes[i..])
    {
      assert codes[i..][1..] == codes[i + 1..];
      var extracted := ExtractStr(codes[i]);
      if extracted.None? {
        i := i + 1;
        continue;
      }
      var normalized := Lower(extracted.value);
      if StartsWith(normalized, "a") || normalized == "yes" {
        return true;
      }
      if StartsWith(normalized, "i") || StartsWith(normalized, "r") || StartsWith(normalized, "s") {
        return false;
      }
      i := i + 1;
    }
    return false;
  }

  /**
   * _determine_eligibility: an active status text decides first, then a yes
   * flag, then the first status code that accepts or rejects; default false.
   */
  method DetermineEligibility(carrier: Fields, statusText: Option<string>) returns (eligible: bool)
    ensures eligible == EligibilityAsWritten(carrier, statusText)
  {
    if StatusTextIndicatesActiveAsWritten(statusText) {
      return true;
    }
    var allowedFlag := ExtractStr(Get(carrier, "allowedToOperate"));
    if allowedFlag.Some? && Lower(allowedFlag.value) in TruthyFlags {
      return true;
    }
    eligible := FirstCodeVerdict(StatusCodes(carrier));
  }

  // ---------------------------------------------------------------------------
  // Locating the carrier block

  const CarrierKeys: set<string> := {
    "usdotnumber", "usdornumber", "dotnumber", "legalname", "carriername", "dba",
    "operatingstatus", "authoritystatus", "authoritydescription", "operatingstatusdesc"
  }

  /** _looks_like_carrier_block: some key, lower-cased, is a carrier key. */
  predicate LooksLikeCarrierBlock(d: Fields) {
    exists i :: 0 <= i < |d| && Lower(d[i].key) in CarrierKeys
  }

  /**
   * _find_carrier_block: in a dict, a non-empty "carrier" dict wins, then the
   * dict itself if it looks like a carrier block, then its values in order;
   * in a list, its items in order; anything else has no block.
   */
  function FindCarrierBlock(v: Value): (r: Option<Fields>)
    ensures r.Some? ==> r.value != []
    decreases v
  {
    match v
    case Obj(members) =>
      var carrier := Get(members, "carrier");
      if carrier.Obj? && carrier.members != [] then Some(carrier.members)
      else if LooksLikeCarrierBlock(members) then Some(members)
      else FindInMembers(members)
    case Arr(items) => FindInItems(items)
    case _ => None
  }

  function FindInItems(items: seq<Value>): (r: Option<Fields>)
    ensures r.Some? ==> r.value != []
    decreases items
  {
    if items == [] then None
    else
      var found := FindCarrierBlock(items[0]);
      if found.Some? then found else FindInItems(items[1..])
  }

  function FindInMembers(members: seq<Member>): (r: Option<Fields>)
    ensures r.Some? ==> r.value != []
    decreases members
  {
    if members == [] then None
    else
      var found := FindCarrierBlock(members[0].value);
      if found.Some? then found else FindInMembers(members[1..])
  }

  /** The dict d is v itself or sits somewhere inside v. */
  ghost predicate OccursIn(d: Fields, v: Value)
    decreases v
  {
    match v
    case Obj(members) => d == members || exists i :: 0 <= i < |members| && OccursInMember(d, members[i])
    case Arr(items) => exists i :: 0 <= i < |items| && OccursIn(d, items[i])
    case _ => false
  }

  ghost predicate OccursInMember(d: Fields, m: Member)
    decreases m
  {
    OccursIn(d, m.value)
  }

  /** Some dict inside v (v included) looks like a carrier block. */
  ghost predicate HasCarrierLikeDict(v: Value)
    decreases v
  {
    match v
    case Obj(members) => LooksLikeCarrierBlock(members) || exists i :: 0 <= i < |members| && MemberHasCarrierLikeDict(members[i])
    case Arr(items) => exists i :: 0 <= i < |items| && HasCarrierLikeDict(items[i])
    case _ => false
  }

  ghost predicate MemberHasCarrierLikeDict(m: Member)
    decreases m
  {
    HasCarrierLikeDict(m.value)
  }

  /** Whatever the search returns is a non-empty dict taken from the payload. */
  lemma {:induction false} FindCarrierBlockSound(v: Value)
    ensures FindCarrierBlock(v).Some? ==> OccursIn(FindCarrierBlock(v).value, v)
    decreases v
  {
    match v
    case Obj(members) =>
      var carrier := Get(members, "carrier");
      if carrier.Obj? && carrier.members != [] {
        GetPresent(members, "carrier");
        GetIsMember(members, "carrier");
        var i :| 0 <= i < |members| && members[i].key == "carrier" && members[i].value == carrier;
        assert OccursInMember(carrier.members, members[i]);
      } else if !LooksLikeCarrierBlock(members) {
        FindInMembersSound(members);
      }
    case Arr(items) => FindInItemsSound(items);
    case _ =>
  }

  lemma {:induction false} FindInItemsSound(items: seq<Value>)
    ensures FindInItems(items).Some? ==>
      exists i :: 0 <= i < |items| && OccursIn(FindInItems(items).value, items[i])
    decreases items
  {
    if items != [] {
      FindCarrierBlockSound(items[0]);
      if FindCarrierBlock(items[0]).None? {
        FindInItemsSound(items[1..]);
        if FindInItems(items[1..]).Some? {
          var i :| 0 <= i < |items| - 1 && OccursIn(FindInItems(items[1..]).value, items[1..][i]);
          assert OccursIn(FindInItems(items).value, items[i + 1]);
        }
      }
    }
  }

  lemma {:induction false} FindInMembersSound(members: seq<Member>)
    ensures FindInMembers(members).Some? ==>
      exists i :: 0 <= i < |members| && OccursInMember(FindInMembers(members).value, members[i])
    decreases members
  {
    if members != [] {
      FindCarrierBlockSound(members[0].value);
      if FindCarrierBlock(members[0].value).Some? {
        assert OccursInMember(FindInMembers(members).value, members[0]);
      } else {
        FindInMembersSound(members[1..]);
        if FindInMembers(members[1..]).Some? {
          var i :| 0 <= i < |members| - 1 && OccursInMember(FindInMembers(members[1..]).value, members[1..][i]);
          assert OccursInMember(FindInMembers(members).value, members[i + 1]);
        }
      }
    }
  }

  /** The search misses nothing: a payload holding a carrier-like dict anywhere yields a block. */
  lemma {:induction false} FindCarrierBlockComplete(v: Value)
    ensures HasCarrierLikeDict(v) ==> FindCarrierBlock(v).Some?
    decreases v
  {
    match v
    case Obj(members) =>
      if !LooksLikeCarrierBlock(members) {
        FindInMembersComplete(members);
      }
    case Arr(items) => FindInItemsComplete(items);
    case _ =>
  }

  lemma {:induction false} FindInItemsComplete(items: seq<Value>)
    ensures (exists i :: 0 <= i < |items| && HasCarrierLikeDict(items[i])) ==> FindInItems(items).Some?
    decreases items
  {
    if items != [] {
      FindCarrierBlockComplete(items[0]);
      if FindCarrierBlock(items[0]).None? {
        FindInItemsComplete(items[1..]);
        if exists i :: 0 <= i < |items| && HasCarrierLikeDict(items[i]) {
          var i :| 0 <= i < |items| && HasCarrierLikeDict(items[i]);
          assert HasCarrierLikeDict(items[1..][i - 1]);
        }
      }
    }
  }

  lemma {:induction false} FindInMembersComplete(members: seq<Member>)
    ensures (exists i :: 0 <= i < |members| && MemberHasCarrierLikeDict(members[i])) ==> FindInMembers(members).Some?
    decreases members
  {
    if members != [] {
      FindCarrierBlockComplete(members[0].value);
      if FindCarrierBlock(members[0].value).None? {
        FindInMembersComplete(members[1..]);
        if exists i :: 0 <= i < |members| && MemberHasCarrierLikeDict(members[i]) {
          var i :| 0 <= i < |members| && MemberHasCarrierLikeDict(members[i]);
          assert MemberHasCarrierLikeDict(members[1..][i - 1]);
        }
      }
    }
  }

  // ---------------------------------------------------------------------------
  // Eligibility, stated without the loop

  /** The verdicts of the codes, one per code. */
  function Verdicts(codes: seq<Value>): (r: seq<Option<bool>>)
    ensures |r| == |codes|
    ensures forall i :: 0 <= i < |codes| ==> r[i] == CodeVerdict(codes[i])
  {
    seq(|codes|, i requires 0 <= i < |codes| => CodeVerdict(codes[i]))
  }

  /** The cascade, on verdicts: the first decided verdict, or false. */
  function FirstDecided(verdicts: seq<Option<bool>>): bool {
    if verdicts == [] then false
    else if verdicts[0].Some? then verdicts[0].value
    else FirstDecided(verdicts[1..])
  }

  lemma {:induction false} FirstVerdictIsFirstDecided(codes: seq<Value>)
    ensures FirstVerdict(codes) == FirstDecided(Verdicts(codes))
  {
    if codes != [] {
      assert Verdicts(codes)[1..] == Verdicts(codes[1..]);
      FirstVerdictIsFirstDecided(codes[1..]);
    }
  }

  lemma {:induction false} FirstDecidedWitness(verdicts: seq<Option<bool>>) returns (i: nat)
    requires FirstDecided(verdicts)
    ensures i < |verdicts| && verdicts[i] == Some(true)
    ensures forall j :: 0 <= j < i ==> verdicts[j].None?
  {
    if verdicts[0].Some? {
      i := 0;
    } else {
      var k := FirstDecidedWitness(verdicts[1..]);
      i := k + 1;
      assert forall j :: 1 <= j < i ==> verdicts[j] == verdicts[1..][j - 1];
    }
  }

  lemma {:induction false} FirstDecidedFromWitness(verdicts: seq<Option<bool>>, i: nat)
    requires i < |verdicts| && verdicts[i] == Some(true)
    requires forall j :: 0 <= j < i ==> verdicts[j].None?
    ensures FirstDecided(verdicts)
  {
    if i > 0 {
      assert verdicts[1..][i - 1] == verdicts[i];
      FirstDecidedFromWitness(verdicts[1..], i - 1);
    }
  }

  /** An accepting cascade has an accepting code with only undecided codes before it. */
  lemma FirstVerdictWitness(codes: seq<Value>) returns (i: nat)
    requires FirstVerdict(codes)
    ensures i < |codes| && CodeVerdict(codes[i]) == Some(true)
    ensures forall j :: 0 <= j < i ==> CodeVerdict(codes[j]).None?
  {
    FirstVerdictIsFirstDecided(codes);
    i := FirstDecidedWitness(Verdicts(codes));
  }

  /** Conversely, an accepting code with only undecided codes before it makes the cascade accept. */
  lemma FirstVerdictFromWitness(codes: seq<Value>, i: nat)
    requires i < |codes| && CodeVerdict(codes[i]) == Some(true)
    requires forall j :: 0 <= j < i ==> CodeVerdict(codes[j]).None?
    ensures FirstVerdict(codes)
  {
    FirstVerdictIsFirstDecided(codes);
    FirstDecidedFromWitness(Verdicts(codes), i);
  }

  /** Lower-cased, the no-flag's text starts with "not" and carries "allowed". */
  lemma NotAllowedTextMentions()
    ensures Contains(Lower(NotAllowedText), "not") && Contains(Lower(NotAllowedText), "allowed")
  {
    var lowered := Lower(NotAllowedText);
    var notWord, allowedWord := Lower(NotAllowedText[0..3]), Lower(NotAllowedText[4..11]);
    assert NotAllowedText[0..3] == "Not" && NotAllowedText[4..11] == "allowed";
    assert notWord == "not" by {
      assert notWord[0] == 'n' && notWord[1] == 'o' && notWord[2] == 't';
    }
    assert allowedWord == "allowed";
    LowerSlice(NotAllowedText, 0, 3);
    LowerSlice(NotAllowedText, 4, 11);
    ContainsAt(lowered, "not", 0);
    ContainsAt(lowered, "allowed", 4);
  }

  /** A pattern occurs only in a text that holds each of its characters. */
  lemma ContainsOnlyPresentChars(s: string, pattern: string, c: char)
    requires Contains(s, pattern) && c in pattern
    ensures c in s
  {
    var k := ContainsWitness(s, pattern);
    var i :| 0 <= i < |pattern| && pattern[i] == c;
    assert s[k + i] == s[k..k + |pattern|][i];
  }

  /** Lower-cased, the no-flag's text has no 'i', 'v' or 'z'. */
  lemma NotAllowedTextLacks()
    ensures 'i' !in Lower(NotAllowedText) && 'v' !in Lower(NotAllowedText) && 'z' !in Lower(NotAllowedText)
  {
  }

  /**
   * As written, the status text "Not allowed to operate" (the summary of a
   * block whose only field is allowedToOperate = "N") counts as active.
   */
  lemma NotAllowedReadAsActive()
    ensures StatusTextIndicatesActiveAsWritten(Some(NotAllowedText))
    ensures !StatusTextIndicatesActive(Some(NotAllowedText))
  {
    NotAllowedTextMentions();
    NotAllowedTextLacks();
    var lowered := Lower(NotAllowedText);
    if Contains(lowered, "inactive") { ContainsOnlyPresentChars(lowered, "inactive", 'i'); }
    if Contains(lowered, "revoked") { ContainsOnlyPresentChars(lowered, "revoked", 'v'); }
    if Contains(lowered, "authorized") { ContainsOnlyPresentChars(lowered, "authorized", 'z'); }
  }

  lemma {:induction false} FirstTextNone(values: seq<Value>)
    requires forall i :: 0 <= i < |values| ==> values[i] == Null
    ensures FirstText(values) == None
  {
    if values != [] {
      FirstTextNone(values[1..]);
    }
  }

  lemma {:induction false} FirstVerdictNone(codes: seq<Value>)
    requires forall i :: 0 <= i < |codes| ==> codes[i] == Null
    ensures !FirstVerdict(codes)
  {
    if codes != [] {
      FirstVerdictNone(codes[1..]);
    }
  }

  /** A single non-empty fragment is the whole summary. */
  lemma SummarySingle(fragment: string)
    requires fragment != []
    ensures Summary([fragment]) == Some(fragment)
  {
    assert [fragment][..0] == [];
    assert Dedup([fragment]) == [fragment];
  }

  /** With every descriptive field and every code null, a no-flag is the only fragment. */
  lemma NoFlagOnlyFragment(descriptive: seq<Value>, codeFields: seq<(string, Value)>, flag: Value)
    requires forall i :: 0 <= i < |descriptive| ==> descriptive[i] == Null
    requires forall i :: 0 <= i < |codeFields| ==> codeFields[i].1 == Null
    requires FlagIsFalsy(flag)
    ensures FragmentsOf(descriptive, codeFields, flag) == [NotAllowedText]
  {
    NullDescriptiveNoFragment(descriptive);
    NullCodesNoFragment(codeFields);
    NoFlagFragment(flag);
  }

  lemma NullDescriptiveNoFragment(descriptive: seq<Value>)
    requires forall i :: 0 <= i < |descriptive| ==> descriptive[i] == Null
    ensures OptionToSeq(FirstText(descriptive)) == []
  {
    FirstTextNone(descriptive);
  }

  lemma NullCodesNoFragment(codeFields: seq<(string, Value)>)
    requires forall i :: 0 <= i < |codeFields| ==> codeFields[i].1 == Null
    ensures CodeFragments(codeFields) == []
  {
    FilterMapEmpty(codeFields, CodeFragment);
  }

  lemma NoFlagFragment(flag: Value)
    requires FlagIsFalsy(flag)
    ensures OptionToSeq(InterpretAllowedFlag(flag)) == [NotAllowedText]
  {
    InterpretAllowedFlagWords(flag);
  }

  /** Every field the summary reads is null but for a no-flag. */
  predicate OnlyNoFlag(carrier: Fields) {
    && DescriptiveFields(carrier) == [Null, Null, Null, Null]
    && StatusCodes(carrier) == [Null, Null, Null, Null]
    && FlagIsFalsy(Get(carrier, "allowedToOperate"))
  }

  lemma AllNull(values: seq<Value>)
    requires values == [Null, Null, Null, Null]
    ensures forall i :: 0 <= i < |values| ==> values[i] == Null
  {
  }

  lemma OnlyNoFlagStatus(carrier: Fields)
    requires OnlyNoFlag(carrier)
    ensures AuthorityStatus(carrier) == Some(NotAllowedText)
  {
    AllNull(DescriptiveFields(carrier));
    AllNull(StatusCodes(carrier));
    NoFlagOnlyFragment(DescriptiveFields(carrier), CodeFields(carrier), Get(carrier, "allowedToOperate"));
    SummarySingle(NotAllowedText);
  }

  lemma OnlyNoFlagDecisions(carrier: Fields, status: Option<string>)
    requires OnlyNoFlag(carrier) && status == Some(NotAllowedText)
    ensures EligibilityAsWritten(carrier, status)
    ensures !Eligibility(carrier, status)
  {
    var flag := Get(carrier, "allowedToOperate");
    FlagWordsDisjoint(Lower(ExtractStr(flag).value));
    AllNull(StatusCodes(carrier));
    FirstVerdictNone(StatusCodes(carrier));
    NotAllowedReadAsActive();
  }

  /**
   * A block whose only non-null field among those the summary and the
   * cascade read is a no-flag: as written it is eligible, corrected it is not.
   */
  lemma OnlyNoFlagEligibleAsWritten(carrier: Fields)
    requires OnlyNoFlag(carrier)
    ensures AuthorityStatus(carrier) == Some(NotAllowedText)
    ensures EligibilityAsWritten(carrier, AuthorityStatus(carrier))
    ensures !Eligibility(carrier, AuthorityStatus(carrier))
  {
    OnlyNoFlagStatus(carrier);
    OnlyNoFlagDecisions(carrier, AuthorityStatus(carrier));
  }

  /** The carrier of the counterexample: only allowedToOperate = "N". */
  const NotAllowedCarrier: Fields := [Member("allowedToOperate", Str("N"))]

  lemma GetOther(key: string, value: Value, other: string)
    requires other != key
    ensures Get([Member(key, value)], other) == Null
  {
  }

  /** "N" is a no-word. */
  lemma LetterNIsFalsy()
    ensures FlagIsFalsy(Str("N"))
  {
    var n := "N";
    assert !IsSpace(n[0]);
    assert TrimLeft(n) == n;
    assert TrimRight(n) == n;
    assert ExtractStr(Str(n)) == Some(n);
    assert Lower(n) == "n" by {
      assert |Lower(n)| == 1 && Lower(n)[0] == 'n';
    }
  }

  /** Of the fields the summary reads, the counterexample carrier has only its no-flag. */
  lemma NotAllowedCarrierOnlyNoFlag()
    ensures OnlyNoFlag(NotAllowedCarrier)
  {
    var key := "allowedToOperate";
    var flag := Str("N");
    assert NotAllowedCarrier == [Member(key, flag)];
    GetOther(key, flag, "operatingStatus");
    GetOther(key, flag, "authorityStatus");
    GetOther(key, flag, "authorityDescription");
    GetOther(key, flag, "operatingStatusDesc");
    assert DescriptiveFields(NotAllowedCarrier) == [Null, Null, Null, Null];
    GetOther(key, flag, "statusCode");
    GetOther(key, flag, "commonAuthorityStatus");
    GetOther(key, flag, "contractAuthorityStatus");
    GetOther(key, flag, "brokerAuthorityStatus");
    assert StatusCodes(NotAllowedCarrier) == [Null, Null, Null, Null];
    assert Get(NotAllowedCarrier, key) == flag;
    LetterNIsFalsy();
  }


  /**
   * The eligibility decision as written accepts the carrier that the
   * authority says is not allowed to operate; the corrected one rejects it.
   */
  lemma NotAllowedCarrierEligibleAsWritten()
    ensures AuthorityStatus(NotAllowedCarrier) == Some(NotAllowedText)
    ensures EligibilityAsWritten(NotAllowedCarrier, AuthorityStatus(NotAllowedCarrier))
    ensures !Eligibility(NotAllowedCarrier, AuthorityStatus(NotAllowedCarrier))
  {
    NotAllowedCarrierOnlyNoFlag();
    OnlyNoFlagEligibleAsWritten(NotAllowedCarrier);
  }

  /**
   * With the corrected test, a no-flag never makes a carrier eligible
   * through its own summary: the decision falls to the status codes.
   */
  lemma NotAllowedDefersToCodes(carrier: Fields)
    requires FlagIsFalsy(Get(carrier, "allowedToOperate"))
    ensures Eligibility(carrier, AuthorityStatus(carrier)) == FirstVerdict(StatusCodes(carrier))
  {
    var flag := Get(carrier, "allowedToOperate");
    InterpretAllowedFlagWords(flag);
    var fragments := Fragments(carrier);
    assert fragments[|fragments| - 1] == NotAllowedText;
    AuthorityStatusMentions(carrier, |fragments| - 1);
    var status := AuthorityStatus(carrier).value;
    ContainsLower(status, NotAllowedText);
    NotAllowedTextMentions();
    ContainsInside(Lower(status), Lower(NotAllowedText), "not");
    ContainsInside(Lower(status), Lower(NotAllowedText), "allowed");
  }

  /**
   * The correction only narrows the decision: whatever it accepts is
   * accepted as written, and the two part only on a status text that
   * mentions both "not" and "allowed".
   */
  lemma CorrectionOnlyNarrows(carrier: Fields, statusText: Option<string>)
    ensures Eligibility(carrier, statusText) ==> EligibilityAsWritten(carrier, statusText)
    ensures EligibilityAsWritten(carrier, statusText) && !Eligibility(carrier, statusText) ==>
      statusText.Some? && Contains(Lower(statusText.value), "not") && Contains(Lower(statusText.value), "allowed")
  {
  }

  // ---------------------------------------------------------------------------
  // The whole payload

  /** Where the search starts: payload["content"] when truthy, else the payload. */
  function SearchRoot(payload: Fields): (r: Value)
    ensures r == Get(payload, "content") || r == Obj(payload)
    ensures Truthy(Get(payload, "content")) ==> r == Get(payload, "content")
  {
    Or(Get(payload, "content"), Obj(payload))
  }

  /** The DOT number: the first truthy of the four spellings, trimmed. */
  function DotNumber(block: Fields): Option<string> {
    ExtractStr(Or(Or(Or(Get(block, "usdotNumber"), Get(block, "usDotNumber")),
                     Get(block, "dotNumber")), Get(block, "US_DOT")))
  }

  /** The carrier name: legal name, else carrier name, else DBA name, trimmed. */
  function CarrierName(block: Fields): Option<string> {
    ExtractStr(Or(Or(Get(block, "legalName"), Get(block, "carrierName")), Get(block, "dbaName")))
  }

  function NotFoundMessage(mc: string): string {
    "No carrier details available for MC " + mc + "."
  }

  /**
   * _parse_carrier_payload: locate the carrier block (CarrierNotFound when
   * there is none) and build the record from it; the eligibility decision
   * reads the summary this very block produced, with the status-text test as
   * written, so a carrier summarised "Not allowed to operate" is accepted.
   */
  method ParseCarrierPayload(payload: Fields, mc: string) returns (r: Result<CarrierRecord, LookupError>)
    ensures r.Err? <==> FindCarrierBlock(SearchRoot(payload)).None?
    ensures r.Err? ==> r.error == CarrierNotFound(NotFoundMessage(mc))
    ensures r.Ok? ==>
      var block := FindCarrierBlock(SearchRoot(payload)).value;
      r.value == CarrierRecord(mc, DotNumber(block), CarrierName(block), AuthorityStatus(block),
                               EligibilityAsWritten(block, AuthorityStatus(block)))
  {
    var found := FindCarrierBlock(SearchRoot(payload));
    if found.None? {
      return Err(CarrierNotFound(NotFoundMessage(mc)));
    }
    var block := found.value;
    var status := NormalizeAuthorityStatus(block);
    var eligible := DetermineEligibility(block, status);
    return Ok(CarrierRecord(mc, DotNumber(block), CarrierName(block), status, eligible));
  }

  /** A payload with a carrier-like dict anywhere under the search root always parses. */
  lemma ParseFindsCarrierLikeDict(payload: Fields)
    requires HasCarrierLikeDict(SearchRoot(payload))
    ensures FindCarrierBlock(SearchRoot(payload)).Some?
    ensures OccursIn(FindCarrierBlock(SearchRoot(payload)).value, SearchRoot(payload))
  {
    FindCarrierBlockComplete(SearchRoot(payload));
    FindCarrierBlockSound(SearchRoot(payload));
  }
}
