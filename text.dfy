/**
 * The string primitives the service leans on: Python's str.strip(), lower(),
 * upper(), `in`, startswith(), split(","), join(), str(int), int(str) and
 * isdigit(), restricted to the ASCII range.
 */
module Text {
  import opened Wrappers

  /** Characters Python's str.isspace() accepts in the ASCII range. */
  predicate IsSpace(c: char) {
    c == ' ' || c == '\t' || c == '\n' || c == '\r' || c == '\U{B}' || c == '\U{C}'
    || c == '\U{1C}' || c == '\U{1D}' || c == '\U{1E}' || c == '\U{1F}'
  }

  function TrimLeft(s: string): (r: string)
    ensures |r| <= |s| && r == s[|s| - |r|..]
    ensures r == [] || !IsSpace(r[0])
  {
    if |s| > 0 && IsSpace(s[0]) then TrimLeft(s[1..]) else s
  }

  function TrimRight(s: string): (r: string)
    ensures |r| <= |s| && r == s[..|r|]
    ensures r == [] || !IsSpace(r[|r| - 1])
  {
    if |s| > 0 && IsSpace(s[|s| - 1]) then TrimRight(s[..|s| - 1]) else s
  }

  /** str.strip(): drop leading and trailing whitespace. */
  function Strip(s: string): (r: string)
    ensures r == [] || (!IsSpace(r[0]) && !IsSpace(r[|r| - 1]))
  {
    TrimRight(TrimLeft(s))
  }

  /** A string is blank when it strips to nothing: only whitespace, or empty. */
  predicate IsBlank(s: string) {
    forall i :: 0 <= i < |s| ==> IsSpace(s[i])
  }

  lemma {:induction false} TrimLeftFixed(s: string)
    requires s == [] || !IsSpace(s[0])
    ensures TrimLeft(s) == s
  {
  }

  lemma {:induction false} TrimRightFixed(s: string)
    requires s == [] || !IsSpace(s[|s| - 1])
    ensures TrimRight(s) == s
  {
  }

  /** A leading whitespace character makes no difference to Strip. */
  lemma StripLeadingSpace(c: char, s: string)
    requires IsSpace(c)
    ensures Strip([c] + s) == Strip(s)
  {
    assert ([c] + s)[1..] == s;
  }

  /** Stripping twice is stripping once. */
  lemma StripIdempotent(s: string)
    ensures Strip(Strip(s)) == Strip(s)
  {
    var r := Strip(s);
    TrimLeftFixed(r);
    TrimRightFixed(r);
  }

  /** Only blank input trims to nothing on the left. */
  lemma {:induction false} TrimLeftEmptyIffBlank(s: string)
    ensures TrimLeft(s) == [] <==> IsBlank(s)
    decreases |s|
  {
    if |s| > 0 {
      if IsSpace(s[0]) {
        TrimLeftEmptyIffBlank(s[1..]);
        assert IsBlank(s) <==> IsBlank(s[1..]) by {
          assert forall i :: 0 < i < |s| ==> s[i] == s[1..][i - 1];
        }
      } else {
        assert !IsBlank(s);
      }
    }
  }

  /** Strip yields the empty string exactly for blank input. */
  lemma StripEmptyIffBlank(s: string)
    ensures Strip(s) == [] <==> IsBlank(s)
  {
    var l := TrimLeft(s);
    TrimLeftEmptyIffBlank(s);
    if l != [] {
      TrimRightKeepsFirst(l);
    }
  }

  /** A string that starts with a non-space character never trims to nothing on the right. */
  lemma {:induction false} TrimRightKeepsFirst(s: string)
    requires s != [] && !IsSpace(s[0])
    ensures TrimRight(s) != []
    decreases |s|
  {
    if IsSpace(s[|s| - 1]) {
      TrimRightKeepsFirst(s[..|s| - 1]);
    }
  }

  function LowerChar(c: char): char {
    if 'A' <= c <= 'Z' then (c as int + 32) as char else c
  }

  function UpperChar(c: char): char {
    if 'a' <= c <= 'z' then (c as int - 32) as char else c
  }

  /** str.lower() on the ASCII letters. */
  function Lower(s: string): (r: string)
    ensures |r| == |s|
    ensures forall i :: 0 <= i < |s| ==> r[i] == LowerChar(s[i])
  {
    seq(|s|, i requires 0 <= i < |s| => LowerChar(s[i]))
  }

  /** str.upper() on the ASCII letters. */
  function Upper(s: string): (r: string)
    ensures |r| == |s|
    ensures forall i :: 0 <= i < |s| ==> r[i] == UpperChar(s[i])
  {
    seq(|s|, i requires 0 <= i < |s| => UpperChar(s[i]))
  }

  lemma LowerIdempotent(s: string)
    ensures Lower(Lower(s)) == Lower(s)
  {
  }

  /** Case mapping never touches whitespace, so it commutes with Strip. */
  lemma {:induction false} StripLower(s: string)
    ensures Strip(Lower(s)) == Lower(Strip(s))
  {
    TrimLeftLower(s);
    TrimRightLower(TrimLeft(s));
  }

  /** Lower-casing maps whitespace to whitespace and nothing else to whitespace. */
  lemma LowerSpace(c: char)
    ensures IsSpace(LowerChar(c)) <==> IsSpace(c)
  {
  }

  /** Lower-casing commutes with dropping a prefix. */
  lemma LowerDrop(s: string, i: nat)
    requires i <= |s|
    ensures Lower(s)[i..] == Lower(s[i..])
  {
  }

  /** Lower-casing commutes with keeping a prefix. */
  lemma LowerTake(s: string, j: nat)
    requires j <= |s|
    ensures Lower(s)[..j] == Lower(s[..j])
  {
  }

  /** Lower-casing commutes with taking a slice. */
  lemma LowerSlice(s: string, i: nat, j: nat)
    requires i <= j <= |s|
    ensures Lower(s)[i..j] == Lower(s[i..j])
  {
  }

  lemma {:induction false} TrimLeftLower(s: string)
    ensures TrimLeft(Lower(s)) == Lower(TrimLeft(s))
    decreases |s|
  {
    if |s| > 0 {
      var ls := Lower(s);
      assert ls[0] == LowerChar(s[0]);
      LowerSpace(s[0]);
      LowerDrop(s, 1);
      if IsSpace(s[0]) {
        TrimLeftLower(s[1..]);
        assert TrimLeft(ls) == TrimLeft(ls[1..]);
      } else {
        assert TrimLeft(ls) == ls;
      }
    }
  }

  lemma {:induction false} TrimRightLower(s: string)
    ensures TrimRight(Lower(s)) == Lower(TrimRight(s))
    decreases |s|
  {
    if |s| > 0 {
      LowerSpace(s[|s| - 1]);
      LowerTake(s, |s| - 1);
      if IsSpace(s[|s| - 1]) {
        TrimRightLower(s[..|s| - 1]);
      }
    }
  }

  predicate StartsWith(s: string, prefix: string) {
    |prefix| <= |s| && s[..|prefix|] == prefix
  }

  predicate EndsWith(s: string, suffix: string) {
    |suffix| <= |s| && s[|s| - |suffix|..] == suffix
  }

  /** Python's `pattern in s`: the empty pattern occurs in every string. */
  predicate Contains(s: string, pattern: string)
    decreases |s|
  {
    StartsWith(s, pattern) || (|s| > 0 && Contains(s[1..], pattern))
  }

  lemma {:induction false} ContainsAt(s: string, pattern: string, k: nat)
    requires k + |pattern| <= |s| && s[k..k + |pattern|] == pattern
    ensures Contains(s, pattern)
    decreases k
  {
    if k > 0 {
      assert s[1..][k - 1..k - 1 + |pattern|] == pattern;
      ContainsAt(s[1..], pattern, k - 1);
    }
  }

  lemma {:induction false} ContainsWitness(s: string, pattern: string) returns (k: nat)
    requires Contains(s, pattern)
    ensures k + |pattern| <= |s| && s[k..k + |pattern|] == pattern
    decreases |s|
  {
    if StartsWith(s, pattern) {
      k := 0;
    } else {
      var j := ContainsWitness(s[1..], pattern);
      k := j + 1;
      assert s[k..k + |pattern|] == s[1..][j..j + |pattern|];
    }
  }

  /** A pattern found in a piece is found in any string the piece sits inside. */
  lemma ContainsInside(s: string, piece: string, pattern: string)
    requires Contains(s, piece) && Contains(piece, pattern)
    ensures Contains(s, pattern)
  {
    var k := ContainsWitness(s, piece);
    var j := ContainsWitness(piece, pattern);
    forall m | 0 <= m < |pattern|
      ensures s[k + j + m] == pattern[m]
    {
      assert s[k..k + |piece|][j + m] == piece[j + m];
      assert piece[j..j + |pattern|][m] == pattern[m];
    }
    assert s[k + j..k + j + |pattern|] == pattern;
    ContainsAt(s, pattern, k + j);
  }

  /** Lower-casing keeps an occurrence, lower-cased. */
  lemma ContainsLower(s: string, pattern: string)
    requires Contains(s, pattern)
    ensures Contains(Lower(s), Lower(pattern))
  {
    var k := ContainsWitness(s, pattern);
    assert Lower(s)[k..k + |pattern|] == Lower(pattern);
    ContainsAt(Lower(s), Lower(pattern), k);
  }

  /** `sep.join(parts)`. */
  function Join(sep: string, parts: seq<string>): (r: string)
    ensures parts == [] ==> r == []
    ensures |parts| == 1 ==> r == parts[0]
  {
    if parts == [] then []
    else if |parts| == 1 then parts[0]
    else parts[0] + sep + Join(sep, parts[1..])
  }

  /** Joining is empty only when there is nothing to join or a single empty part. */
  lemma {:induction false} JoinNonEmpty(sep: string, parts: seq<string>)
    requires exists i :: 0 <= i < |parts| && parts[i] != []
    ensures Join(sep, parts) != []
  {
    var i :| 0 <= i < |parts| && parts[i] != [];
    if |parts| > 1 && i > 0 {
      JoinNonEmpty(sep, parts[1..]);
    }
  }

  /** Every part occurs in the joined string. */
  lemma {:induction false} JoinContainsPart(sep: string, parts: seq<string>, i: nat)
    requires i < |parts|
    ensures Contains(Join(sep, parts), parts[i])
    decreases |parts|
  {
    var r := Join(sep, parts);
    if |parts| == 1 {
      ContainsAt(r, parts[0], 0);
    } else if i == 0 {
      assert r[..|parts[0]|] == parts[0];
      ContainsAt(r, parts[0], 0);
    } else {
      var tail := Join(sep, parts[1..]);
      JoinContainsPart(sep, parts[1..], i - 1);
      var k := |parts[0] + sep|;
      assert r[k..] == tail;
      ContainsAt(r, tail, k);
      ContainsInside(r, tail, parts[i]);
    }
  }

  /** `s.split(sep)` for a single-character separator: every piece, empty ones included. */
  function Split(s: string, sep: char): (r: seq<string>)
    ensures |r| >= 1
    decreases |s|
  {
    if sep !in s then [s]
    else
      var k := IndexOf(s, sep);
      [s[..k]] + Split(s[k + 1..], sep)
  }

  function IndexOf(s: string, c: char): (k: nat)
    requires c in s
    ensures k < |s| && s[k] == c && c !in s[..k]
  {
    if s[0] == c then 0 else 1 + IndexOf(s[1..], c)
  }

  /** No piece holds the separator. */
  lemma {:induction false} SplitPieces(s: string, sep: char)
    ensures forall i :: 0 <= i < |Split(s, sep)| ==> sep !in Split(s, sep)[i]
    decreases |s|
  {
    if sep in s {
      var k := IndexOf(s, sep);
      SplitPieces(s[k + 1..], sep);
      assert Split(s, sep) == [s[..k]] + Split(s[k + 1..], sep);
    }
  }

  /** Joining the pieces with the separator gives the string back. */
  lemma {:induction false} SplitJoin(s: string, sep: char)
    ensures Join([sep], Split(s, sep)) == s
    decreases |s|
  {
    if sep in s {
      var k := IndexOf(s, sep);
      var rest := Split(s[k + 1..], sep);
      SplitJoin(s[k + 1..], sep);
      assert Split(s, sep) == [s[..k]] + rest;
      assert ([s[..k]] + rest)[1..] == rest;
      assert Join([sep], Split(s, sep)) == s[..k] + [sep] + Join([sep], rest);
      Around(s, k);
    }
  }

  /** A sequence is what comes before position k, the element at k, and what comes after. */
  lemma Around<T>(s: seq<T>, k: nat)
    requires k < |s|
    ensures s == s[..k] + [s[k]] + s[k + 1..]
  {
  }

  /** Splitting a string with no separator in it gives the string back. */
  lemma SplitNoSeparator(s: string, sep: char)
    requires sep !in s
    ensures Split(s, sep) == [s]
  {
  }

  /** The first occurrence is the one position holding c with no c before it. */
  lemma IndexOfUnique(s: string, c: char, k: nat)
    requires k < |s| && s[k] == c && c !in s[..k]
    ensures IndexOf(s, c) == k
  {
  }

  /** Where the first separator of `a + [sep] + b` is, and what follows it. */
  lemma IndexOfConcat(a: string, sep: char, b: string)
    ensures var s := a + [sep] + b; var k := IndexOf(s, sep);
      && (sep in a ==> k == IndexOf(a, sep) && s[k + 1..] == a[k + 1..] + [sep] + b)
      && (sep !in a ==> k == |a| && s[k + 1..] == b)
  {
    var s := a + [sep] + b;
    if sep in a {
      var ka := IndexOf(a, sep);
      assert s[..ka] == a[..ka];
      IndexOfUnique(s, sep, ka);
    } else {
      assert s[..|a|] == a;
      IndexOfUnique(s, sep, |a|);
    }
  }

  /** Splitting `a + [sep] + b` where b holds no separator ends in the piece b. */
  lemma {:induction false} SplitLastPiece(a: string, sep: char, b: string)
    requires sep !in b
    ensures var r := Split(a + [sep] + b, sep); r[|r| - 1] == b
    decreases |a|
  {
    var s := a + [sep] + b;
    var k := IndexOf(s, sep);
    IndexOfConcat(a, sep, b);
    var rest := Split(s[k + 1..], sep);
    assert Split(s, sep) == [s[..k]] + rest;
    if sep in a {
      SplitLastPiece(a[k + 1..], sep, b);
    } else {
      SplitNoSeparator(b, sep);
    }
    assert rest[|rest| - 1] == b;
  }

  predicate IsDigit(c: char) {
    '0' <= c <= '9'
  }

  /** str.isdigit(): non-empty and every character a decimal digit. */
  predicate IsDigits(s: string) {
    |s| > 0 && forall i :: 0 <= i < |s| ==> IsDigit(s[i])
  }

  function DigitChar(d: nat): char
    requires d < 10
  {
    ('0' as int + d) as char
  }

  /** str(n) for a natural number. */
  function NatToString(n: nat): (r: string)
    ensures IsDigits(r)
    decreases n
  {
    if n < 10 then [DigitChar(n)] else NatToString(n / 10) + [DigitChar(n % 10)]
  }

  /** str(i) for any integer: a minus sign, then the digits of the magnitude. */
  function IntToString(i: int): (r: string)
    ensures r != []
  {
    if i < 0 then "-" + NatToString(-i) else NatToString(i)
  }

  /** The value of a string of decimal digits. */
  function DigitsValue(s: string): (n: nat)
    requires forall i :: 0 <= i < |s| ==> IsDigit(s[i])
  {
    if s == [] then 0
    else
      assert IsDigit(s[|s| - 1]);
      10 * DigitsValue(s[..|s| - 1]) + (s[|s| - 1] as int - '0' as int)
  }

  /**
   * int(s) on already-stripped text: an optional sign, then one or more
   * decimal digits. Python also allows '_' between digits; that form is not modelled.
   */
  function ParseInt(s: string): (r: Option<int>)
    ensures r.Some? ==> s != []
  {
    if s != [] && (s[0] == '-' || s[0] == '+') then
      if IsDigits(s[1..]) then
        var v: int := DigitsValue(s[1..]);
        Some(if s[0] == '-' then -v else v)
      else None
    else if IsDigits(s) then Some(DigitsValue(s))
    else None
  }

  lemma {:induction false} DigitsRoundTrip(n: nat)
    ensures DigitsValue(NatToString(n)) == n
    decreases n
  {
    if n >= 10 {
      var s := NatToString(n);
      assert s[..|s| - 1] == NatToString(n / 10);
      DigitsRoundTrip(n / 10);
    }
  }

  /** The digits of a natural number read back as that number. */
  lemma NatParse(n: nat)
    ensures ParseInt(NatToString(n)) == Some(n)
  {
    var s := NatToString(n);
    assert IsDigit(s[0]);
    DigitsRoundTrip(n);
  }

  /** A minus sign before the digits of m reads back as -m. */
  lemma NegParse(m: nat)
    ensures ParseInt("-" + NatToString(m)) == Some(-(m as int))
  {
    var s := "-" + NatToString(m);
    assert s[0] == '-';
    assert s[1..] == NatToString(m);
    DigitsRoundTrip(m);
  }

  /** Reading back what str(i) printed gives i again. */
  lemma IntRoundTrip(i: int)
    ensures ParseInt(IntToString(i)) == Some(i)
  {
    if i < 0 {
      NegParse(-i);
    } else {
      NatParse(i);
    }
  }

  /** str(n) has no surrounding whitespace. */
  lemma IntTextStripped(n: int)
    ensures Strip(IntToString(n)) == IntToString(n)
  {
    var s := IntToString(n);
    var digits := NatToString(if n < 0 then -n else n);
    assert IsDigit(digits[|digits| - 1]);
    assert s[|s| - 1] == digits[|digits| - 1];
    TrimLeftFixed(s);
    TrimRightFixed(s);
  }

  /** str(n) is injective: different numbers print differently. */
  lemma NatToStringInjective(m: nat, n: nat)
    requires NatToString(m) == NatToString(n)
    ensures m == n
  {
    DigitsRoundTrip(m);
    DigitsRoundTrip(n);
  }

  /** Numbers with four decimal digits print as four characters. */
  lemma FourDigits(n: nat)
    requires 1000 <= n < 10000
    ensures |NatToString(n)| == 4
  {
    var hundreds := n / 10;
    var tens := hundreds / 10;
    var ones := tens / 10;
    assert 100 <= hundreds < 1000 && 10 <= tens < 100 && 1 <= ones < 10;
    assert |NatToString(ones)| == 1;
    assert |NatToString(tens)| == 2;
    assert |NatToString(hundreds)| == 3;
  }

  /** f"{n:0{width}d}": left-pad with zeros to at least `width` characters. */
  function ZeroPad(s: string, width: nat): (r: string)
    ensures |r| == if |s| < width then width else |s|
    ensures EndsWith(r, s)
    decreases width - |s|
  {
    if |s| < width then ZeroPad(['0'] + s, width) else s
  }

  /** `c * n`: the character repeated n times. */
  function Repeat(c: char, n: nat): (r: string)
    ensures |r| == n && forall i :: 0 <= i < n ==> r[i] == c
  {
    seq(n, _ => c)
  }

  function EscapeChar(c: char): string {
    if c == '&' then "&amp;"
    else if c == '<' then "&lt;"
    else if c == '>' then "&gt;"
    else if c == '"' then "&quot;"
    else if c == '\'' then "&#x27;"
    else [c]
  }

  /** html.escape(s) with quote=True. */
  function HtmlEscape(s: string): (r: string)
    ensures '<' !in r && '>' !in r
  {
    if s == [] then [] else EscapeChar(s[0]) + HtmlEscape(s[1..])
  }
}
