/**
 * A JSON document as Python's json.loads hands it over: None, booleans,
 * numbers, strings, lists and dicts. A dict keeps its members in insertion
 * order, as Python dicts do. Lookups take the first member with the key;
 * Python keeps the last of repeated keys instead, so the two agree on
 * documents whose object keys are distinct.
 */
module Json {
  import opened Wrappers
  import opened Text

  datatype Value =
    | Null
    | Bool(b: bool)
    | Num(n: int)
    | Str(s: string)
    | Arr(items: seq<Value>)
    | Obj(members: seq<Member>)

  datatype Member = Member(key: string, value: Value)

  type Fields = seq<Member>

  /** `key in d`. */
  predicate HasKey(d: Fields, key: string) {
    exists i :: 0 <= i < |d| && d[i].key == key
  }

  /** `d.get(key)`: the member's value, or None (Null) when the key is absent. */
  function Get(d: Fields, key: string): Value {
    if d == [] then Null
    else if d[0].key == key then d[0].value
    else Get(d[1..], key)
  }

  /** Only a key the dict holds gives something other than the default. */
  lemma {:induction false} GetPresent(d: Fields, key: string)
    ensures Get(d, key) != Null ==> HasKey(d, key)
  {
    if d != [] && d[0].key != key {
      GetPresent(d[1..], key);
      if Get(d[1..], key) != Null {
        var i :| 0 <= i < |d| - 1 && d[1..][i].key == key;
        assert d[i + 1].key == key;
      }
    }
  }

  /** A value returned by Get is a direct child of the dict (or the Null default). */
  lemma {:induction false} GetIsMember(d: Fields, key: string)
    requires HasKey(d, key)
    ensures exists i :: 0 <= i < |d| && d[i].key == key && d[i].value == Get(d, key)
  {
    if d[0].key != key {
      var i :| 0 <= i < |d| && d[i].key == key;
      assert d[1..][i - 1].key == key;
      GetIsMember(d[1..], key);
      var j :| 0 <= j < |d| - 1 && d[1..][j].key == key && d[1..][j].value == Get(d[1..], key);
      assert d[j + 1].key == key;
    }
  }

  /** Python truthiness: None, False, 0, "", [] and {} are false. */
  predicate Truthy(v: Value) {
    match v
    case Null => false
    case Bool(b) => b
    case Num(n) => n != 0
    case Str(s) => s != []
    case Arr(items) => items != []
    case Obj(members) => members != []
  }

  /** Python's `a or b`: the first operand when it is truthy, else the second. */
  function Or(a: Value, b: Value): (r: Value)
    ensures r == a || r == b
    ensures Truthy(r) <==> Truthy(a) || Truthy(b)
  {
    if Truthy(a) then a else b
  }

  /**
   * str(v) for a value that is not already a string. Containers print their
   * elements with repr(), where a string appears between single quotes
   * (Python's choice of double quotes and backslash escapes is not modelled).
   */
  function Show(v: Value): (r: string)
    ensures !v.Str? ==> r != []
    decreases v, 0
  {
    match v
    case Null => "None"
    case Bool(b) => if b then "True" else "False"
    case Num(n) => IntToString(n)
    case Str(s) => s
    case Arr(items) => "[" + Join(", ", seq(|items|, i requires 0 <= i < |items| => ShowNested(items[i]))) + "]"
    case Obj(members) => "{" + Join(", ", seq(|members|, i requires 0 <= i < |members| =>
                           assert members[i].value < members[i];
                           "'" + members[i].key + "': " + ShowNested(members[i].value))) + "}"
  }

  /** repr(v) for a value printed inside a container. */
  function ShowNested(v: Value): (r: string)
    ensures r != []
    decreases v, 1
  {
    match v
    case Str(s) => "'" + s + "'"
    case _ => Show(v)
  }
}
