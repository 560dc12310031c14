/**
 * The negotiation request schema: the "before" validators that coerce the
 * loosely typed JSON fields, the trimming validator of the two text fields,
 * and the non-negativity bounds on the prices and the round count.
 *
 * A raw field is what the JSON body holds: a bool, an int, a float, a
 * string, or anything else (null, a list, an object). Python's bool is a
 * subclass of int, so a bool passes every `isinstance(value, int)` test.
 * `float(text)` is not part of this model: it is the parameter `parseFloat`.
 */
module Schemas {
  import opened Wrappers
  import opened Text

  datatype Raw =
    | RawBool(b: bool)
    | RawInt(i: int)
    | RawFloat(f: real)
    | RawStr(s: string)
    | RawOther

  /** Why a field is refused. */
  datatype FieldError =
    | ValidatorError(message: string)  // a validator raised ValueError with this message
    | NotConvertible(text: string)     // float() or int() could not read this text
    | BelowZero                        // the ge=0 bound does not hold

  const TrueWords: set<string> := {"true", "1", "yes", "y"}
  const FalseWords: set<string> := {"false", "0", "no", "n"}

  const BoolMessage := "load_accepted must be 'true' or 'false'"
  const PriceMessage := "Price fields must be numeric"
  const CountMessage := "total_negotiations must be an integer"
  const EmptyMessage := "Value cannot be empty"

  /**
   * _parse_bool: a bool as it is; a string whose trimmed, lower-cased text
   * is a yes-word or a no-word; anything else is refused.
   */
  function ParseBool(value: Raw): Result<bool, FieldError> {
    match value
    case RawBool(b) => Ok(b)
    case RawStr(s) =>
      var lowered := Lower(Strip(s));
      if lowered in TrueWords then Ok(true)
      else if lowered in FalseWords then Ok(false)
      else Err(ValidatorError(BoolMessage))
    case _ => Err(ValidatorError(BoolMessage))
  }

  lemma WordListsDisjoint(word: string)
    ensures word in TrueWords ==> word !in FalseWords
  {
  }

  /** A bool is kept as it is. */
  lemma ParseBoolKeepsBool(b: bool)
    ensures ParseBool(RawBool(b)) == Ok(b)
  {
  }

  /**
   * A string is true exactly for a yes-word, false exactly for a no-word,
   * after trimming and lower-casing, and refused otherwise.
   */
  lemma ParseBoolText(s: string)
    ensures ParseBool(RawStr(s)) == Ok(true) <==> Lower(Strip(s)) in TrueWords
    ensures ParseBool(RawStr(s)) == Ok(false) <==> Lower(Strip(s)) in FalseWords
    ensures ParseBool(RawStr(s)).Err? <==> Lower(Strip(s)) !in TrueWords && Lower(Strip(s)) !in FalseWords
  {
    WordListsDisjoint(Lower(Strip(s)));
  }

  /** Numbers, and values that are neither bool nor string, are refused with the message. */
  lemma ParseBoolRefusesOthers(value: Raw)
    requires !value.RawBool? && !value.RawStr?
    ensures ParseBool(value) == Err(ValidatorError(BoolMessage))
  {
  }

  /** `value.replace(",", "")`. */
  function RemoveCommas(s: string): (r: string)
    ensures |r| <= |s|
  {
    if s == [] then []
    else (if s[0] == ',' then [] else [s[0]]) + RemoveCommas(s[1..])
  }

  /** No comma is left, and every other character is kept in order. */
  lemma {:induction false} RemoveCommasSpec(s: string)
    ensures ',' !in RemoveCommas(s)
    ensures forall c :: c != ',' ==> multiset(RemoveCommas(s))[c] == multiset(s)[c]
  {
    if s != [] {
      RemoveCommasSpec(s[1..]);
      assert s == [s[0]] + s[1..];
    }
  }

  lemma {:induction false} RemoveCommasAppend(a: string, b: string)
    ensures RemoveCommas(a + b) == RemoveCommas(a) + RemoveCommas(b)
  {
    if a == [] {
      assert a + b == b;
    } else {
      assert (a + b)[0] == a[0] && (a + b)[1..] == a[1..] + b;
      RemoveCommasAppend(a[1..], b);
    }
  }

  /** A text without commas is left alone. */
  lemma {:induction false} RemoveCommasNone(s: string)
    requires ',' !in s
    ensures RemoveCommas(s) == s
  {
    if s != [] {
      RemoveCommasNone(s[1..]);
    }
  }

  /**
   * _parse_price: a number (a bool counting as 0 or 1) as a float; a string
   * with its commas removed and then trimmed, through float(); anything
   * else is refused.
   */
  function ParsePrice(value: Raw, parseFloat: string -> Option<real>): Result<real, FieldError> {
    match value
    case RawBool(b) => Ok(if b then 1.0 else 0.0)
    case RawInt(i) => Ok(i as real)
    case RawFloat(f) => Ok(f)
    case RawStr(s) =>
      var text := Strip(RemoveCommas(s));
      if parseFloat(text).Some? then Ok(parseFloat(text).value) else Err(NotConvertible(text))
    case RawOther => Err(ValidatorError(PriceMessage))
  }

  /** A thousands separator anywhere in a price text makes no difference. */
  lemma ParsePriceIgnoresCommas(a: string, b: string, parseFloat: string -> Option<real>)
    ensures ParsePrice(RawStr(a + "," + b), parseFloat) == ParsePrice(RawStr(a + b), parseFloat)
  {
    RemoveCommaBetween(a, b);
  }

  lemma RemoveCommaBetween(a: string, b: string)
    ensures RemoveCommas(a + "," + b) == RemoveCommas(a + b)
  {
    RemoveCommasAppend(a + ",", b);
    RemoveCommasAppend(a, ",");
    RemoveCommasAppend(a, b);
    assert ","[1..] == [];
    assert RemoveCommas(",") == [];
  }

  /** A price text reads as float() of its comma-free, trimmed form. */
  lemma ParsePriceText(s: string, parseFloat: string -> Option<real>)
    ensures ParsePrice(RawStr(s), parseFloat).Ok? <==> parseFloat(Strip(RemoveCommas(s))).Some?
    ensures ParsePrice(RawStr(s), parseFloat).Ok? ==>
      Some(ParsePrice(RawStr(s), parseFloat).value) == parseFloat(Strip(RemoveCommas(s)))
  {
    var text := Strip(RemoveCommas(s));
    assert ParsePrice(RawStr(s), parseFloat) ==
      if parseFloat(text).Some? then Ok(parseFloat(text).value) else Err(NotConvertible(text));
  }

  /** Only null, lists and objects are refused with the validator's message. */
  lemma ParsePriceRefusals(value: Raw, parseFloat: string -> Option<real>)
    ensures ParsePrice(value, parseFloat) == Err(ValidatorError(PriceMessage)) <==> value.RawOther?
  {
  }

  /**
   * _parse_negotiation_count: an int (a bool counting as 0 or 1) as it is, a
   * string through int() after trimming; anything else, a float included,
   * is refused.
   */
  function ParseCount(value: Raw): Result<int, FieldError> {
    match value
    case RawBool(b) => Ok(if b then 1 else 0)
    case RawInt(i) => Ok(i)
    case RawStr(s) =>
      var text := Strip(s);
      if ParseInt(text).Some? then Ok(ParseInt(text).value) else Err(NotConvertible(text))
    case _ => Err(ValidatorError(CountMessage))
  }

  /** str(n), with any surrounding whitespace, reads back as n. */
  lemma ParseCountRoundTrip(n: int, pad: string)
    requires IsBlank(pad)
    ensures ParseCount(RawStr(pad + IntToString(n) + pad)) == Ok(n)
  {
    IntTextStripped(n);
    StripAroundBlank(pad, IntToString(n));
    IntRoundTrip(n);
    ParseCountOfText(pad + IntToString(n) + pad, IntToString(n));
  }

  lemma ParseCountOfText(s: string, text: string)
    requires Strip(s) == text && ParseInt(text).Some?
    ensures ParseCount(RawStr(s)) == Ok(ParseInt(text).value)
  {
  }

  /** Blank padding on both sides of an already stripped text is stripped away. */
  lemma StripAroundBlank(pad: string, s: string)
    requires IsBlank(pad) && s != [] && Strip(s) == s
    ensures Strip(pad + s + pad) == s
  {
    var right := s + pad;
    assert pad + s + pad == pad + right;
    TrimLeftPastBlank(pad, right);
    assert TrimLeft(pad + s + pad) == TrimLeft(right);
    assert !IsSpace(s[0]) && !IsSpace(s[|s| - 1]);
    assert right[0] == s[0];
    TrimLeftFixed(right);
    TrimRightPastBlank(s, pad);
    TrimRightFixed(s);
    assert TrimRight(TrimLeft(pad + s + pad)) == s;
  }

  lemma {:induction false} TrimLeftPastBlank(pad: string, s: string)
    requires IsBlank(pad)
    ensures TrimLeft(pad + s) == TrimLeft(s)
  {
    if pad != [] {
      var rest := pad[1..];
      assert IsBlank(rest) by {
        assert forall i :: 0 <= i < |rest| ==> rest[i] == pad[i + 1];
      }
      assert (pad + s)[0] == pad[0] && IsSpace(pad[0]);
      assert (pad + s)[1..] == rest + s;
      TrimLeftPastBlank(rest, s);
    } else {
      assert pad + s == s;
    }
  }

  lemma {:induction false} TrimRightPastBlank(s: string, pad: string)
    requires IsBlank(pad)
    ensures TrimRight(s + pad) == TrimRight(s)
    decreases |pad|
  {
    if pad != [] {
      var front := pad[..|pad| - 1];
      assert IsBlank(front) by {
        assert forall i :: 0 <= i < |front| ==> front[i] == pad[i];
      }
      assert (s + pad)[|s + pad| - 1] == pad[|pad| - 1] && IsSpace(pad[|pad| - 1]);
      assert (s + pad)[..|s + pad| - 1] == s + front;
      TrimRightPastBlank(s, front);
    } else {
      assert s + pad == s;
    }
  }

  /** A float is refused even when it is whole. */
  lemma ParseCountRefusesFloat(f: real)
    ensures ParseCount(RawFloat(f)) == Err(ValidatorError(CountMessage))
  {
  }

  /** _normalize_strings: the text trimmed, refused when nothing is left. */
  function NormalizeString(value: string): Result<string, FieldError> {
    var normalized := Strip(value);
    if normalized == [] then Err(ValidatorError(EmptyMessage)) else Ok(normalized)
  }

  /** A kept text is non-empty and trimmed; a refused one was blank. */
  lemma NormalizeStringSpec(value: string)
    ensures NormalizeString(value).Err? <==> IsBlank(value)
    ensures NormalizeString(value).Ok? ==>
      NormalizeString(value).value != [] && NormalizeString(value).value == Strip(value)
  {
    StripEmptyIffBlank(value);
  }

  /** Normalising a normalised text changes nothing. */
  lemma NormalizeStringIdempotent(value: string)
    requires NormalizeString(value).Ok?
    ensures NormalizeString(NormalizeString(value).value) == NormalizeString(value)
  {
    StripIdempotent(value);
  }

  /** The `ge=0` bound, checked after the field's validator succeeded. */
  function AtLeastZero<T>(r: Result<T, FieldError>, amount: T -> real): Result<T, FieldError> {
    if r.Err? then r
    else if amount(r.value) >= 0.0 then r
    else Err(BelowZero)
  }

  function PriceAmount(x: real): real {
    x
  }

  function CountAmount(n: int): real {
    n as real
  }

  /** posted_price and final_price: the validator, then the bound. */
  function Price(value: Raw, parseFloat: string -> Option<real>): (r: Result<real, FieldError>)
    ensures r.Ok? ==> r.value >= 0.0
  {
    AtLeastZero(ParsePrice(value, parseFloat), PriceAmount)
  }

  /** total_negotiations: the validator, then the bound. */
  function Count(value: Raw): (r: Result<int, FieldError>)
    ensures r.Ok? ==> r.value >= 0
  {
    AtLeastZero(ParseCount(value), CountAmount)
  }

  /** A field passes its bound exactly when its validator passes and gives a non-negative amount. */
  lemma CountBound(value: Raw)
    ensures Count(value).Ok? <==> ParseCount(value).Ok? && ParseCount(value).value >= 0
    ensures Count(value).Ok? ==> Count(value) == ParseCount(value)
    ensures ParseCount(value).Ok? && ParseCount(value).value < 0 ==> Count(value) == Err(BelowZero)
  {
  }

  lemma PriceBound(value: Raw, parseFloat: string -> Option<real>)
    ensures Price(value, parseFloat).Ok? <==> ParsePrice(value, parseFloat).Ok? && ParsePrice(value, parseFloat).value >= 0.0
    ensures Price(value, parseFloat).Ok? ==> Price(value, parseFloat) == ParsePrice(value, parseFloat)
  {
  }

  /** The request body as received. */
  datatype RawRequest = RawRequest(
    loadAccepted: Raw,
    postedPrice: Raw,
    finalPrice: Raw,
    totalNegotiations: Raw,
    callSentiment: string,
    commodity: string)

  /** NegotiationRequest once every field passed. */
  datatype NegotiationRequest = NegotiationRequest(
    loadAccepted: bool,
    postedPrice: real,
    finalPrice: real,
    totalNegotiations: int,
    callSentiment: string,
    commodity: string)

  /** The error of a field that failed, tagged with the field's name. */
  function FieldErrors<T>(field: string, r: Result<T, FieldError>): (errors: seq<(string, FieldError)>)
    ensures |errors| <= 1
    ensures errors == [] <==> r.Ok?
  {
    if r.Err? then [(field, r.error)] else []
  }

  /**
   * Validating a body: every field is checked, the errors of the failing
   * fields are reported together in field order, and the request is built
   * only when none failed.
   */
  function Validate(raw: RawRequest, parseFloat: string -> Option<real>): Result<NegotiationRequest, seq<(string, FieldError)>> {
    var loadAccepted := ParseBool(raw.loadAccepted);
    var postedPrice := Price(raw.postedPrice, parseFloat);
    var finalPrice := Price(raw.finalPrice, parseFloat);
    var total := Count(raw.totalNegotiations);
    var sentiment := NormalizeString(raw.callSentiment);
    var commodity := NormalizeString(raw.commodity);
    var errors := FieldErrors("load_accepted", loadAccepted) + FieldErrors("posted_price", postedPrice)
      + FieldErrors("final_price", finalPrice) + FieldErrors("total_negotiations", total)
      + FieldErrors("call_sentiment", sentiment) + FieldErrors("commodity", commodity);
    if errors != [] then Err(errors)
    else Ok(NegotiationRequest(loadAccepted.value, postedPrice.value, finalPrice.value, total.value,
                               sentiment.value, commodity.value))
  }

  /**
   * A body is accepted exactly when every field passes, and then the request
   * holds the fields' values: non-negative prices and count, trimmed
   * non-empty texts.
   */
  lemma ValidateAccepts(raw: RawRequest, parseFloat: string -> Option<real>)
    ensures Validate(raw, parseFloat).Ok? <==>
      && ParseBool(raw.loadAccepted).Ok?
      && Price(raw.postedPrice, parseFloat).Ok? && Price(raw.finalPrice, parseFloat).Ok?
      && Count(raw.totalNegotiations).Ok?
      && !IsBlank(raw.callSentiment) && !IsBlank(raw.commodity)
    ensures Validate(raw, parseFloat).Ok? ==>
      var request := Validate(raw, parseFloat).value;
      && Ok(request.loadAccepted) == ParseBool(raw.loadAccepted)
      && request.postedPrice >= 0.0 && request.finalPrice >= 0.0 && request.totalNegotiations >= 0
      && request.callSentiment == Strip(raw.callSentiment) && request.callSentiment != []
      && request.commodity == Strip(raw.commodity) && request.commodity != []
  {
    NormalizeStringSpec(raw.callSentiment);
    NormalizeStringSpec(raw.commodity);
  }

  /** A refused body names its first failing field first. */
  lemma ValidateReportsLoadAcceptedFirst(raw: RawRequest, parseFloat: string -> Option<real>)
    requires ParseBool(raw.loadAccepted).Err?
    ensures Validate(raw, parseFloat).Err?
    ensures Validate(raw, parseFloat).error[0] == ("load_accepted", ParseBool(raw.loadAccepted).error)
  {
  }
}
