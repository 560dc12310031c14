/**
 * collections.Counter over strings: each distinct key once, in the order it
 * was first counted, with how often it was counted; `most_common(n)` lists
 * the entries by count, ties in first-counted order.
 */
module Tally {
  import opened Ranking

  type Entry = (string, nat)
  type Counter = seq<Entry>

  /** `counter[key]`: zero for a key never counted. */
  function Count(c: Counter, key: string): nat {
    if c == [] then 0
    else if c[0].0 == key then c[0].1
    else Count(c[1..], key)
  }

  /** The sum of all counts. */
  function Total(c: Counter): nat {
    if c == [] then 0 else c[0].1 + Total(c[1..])
  }

  predicate DistinctKeys(c: Counter) {
    forall i, j :: 0 <= i < j < |c| ==> c[i].0 != c[j].0
  }

  /** `counter[key] += 1`: a new key is appended with count 1. */
  function Increment(c: Counter, key: string): (r: Counter)
    ensures |r| == |c| || |r| == |c| + 1
    ensures forall i :: 0 <= i < |r| ==> r[i].0 == key || exists j :: 0 <= j < |c| && c[j] == r[i]
  {
    if c == [] then [(key, 1)]
    else if c[0].0 == key then [(key, c[0].1 + 1)] + c[1..]
    else
      var rest := Increment(c[1..], key);
      assert forall i :: 0 <= i < |rest| && rest[i].0 != key ==> exists j :: 0 <= j < |c| && c[j] == rest[i] by {
        forall i | 0 <= i < |rest| && rest[i].0 != key
          ensures exists j :: 0 <= j < |c| && c[j] == rest[i]
        {
          var j :| 0 <= j < |c[1..]| && c[1..][j] == rest[i];
          assert c[j + 1] == rest[i];
        }
      }
      [c[0]] + rest
  }

  /** Incrementing counts the key once more and leaves every other key alone. */
  lemma {:induction false} IncrementCount(c: Counter, key: string, other: string)
    ensures Count(Increment(c, key), other) == Count(c, other) + (if other == key then 1 else 0)
  {
    if c != [] && c[0].0 != key {
      IncrementCount(c[1..], key, other);
    }
  }

  lemma {:induction false} IncrementTotal(c: Counter, key: string)
    ensures Total(Increment(c, key)) == Total(c) + 1
  {
    if c != [] && c[0].0 != key {
      IncrementTotal(c[1..], key);
    }
  }

  lemma {:induction false} IncrementDistinct(c: Counter, key: string)
    requires DistinctKeys(c)
    ensures DistinctKeys(Increment(c, key))
  {
    if c != [] && c[0].0 != key {
      IncrementDistinct(c[1..], key);
      var r := Increment(c, key);
      forall j | 0 < j < |r|
        ensures r[0].0 != r[j].0
      {
        if r[j].0 != key {
          var m :| 0 <= m < |c[1..]| && c[1..][m] == r[j];
          assert c[m + 1] == r[j];
        }
      }
    }
  }

  /** `Counter(keys)`. */
  function CountAll(keys: seq<string>): Counter {
    if keys == [] then [] else Increment(CountAll(keys[..|keys| - 1]), keys[|keys| - 1])
  }

  /** Counting one more key is incrementing its count. */
  lemma CountAllStep(keys: seq<string>, key: string)
    ensures CountAll(keys + [key]) == Increment(CountAll(keys), key)
  {
    assert (keys + [key])[..|keys|] == keys;
  }

  /** A counter built from keys counts each key as often as it occurs, and nothing else. */
  lemma {:induction false} CountAllCount(keys: seq<string>, key: string)
    ensures Count(CountAll(keys), key) == multiset(keys)[key]
  {
    if keys != [] {
      var prefix := keys[..|keys| - 1];
      CountAllCount(prefix, key);
      IncrementCount(CountAll(prefix), keys[|keys| - 1], key);
      assert keys == prefix + [keys[|keys| - 1]];
    }
  }

  /** The counts add up to the number of keys counted, and each key appears once. */
  lemma {:induction false} CountAllTotal(keys: seq<string>)
    ensures Total(CountAll(keys)) == |keys|
    ensures DistinctKeys(CountAll(keys))
  {
    if keys != [] {
      CountAllTotal(keys[..|keys| - 1]);
      IncrementTotal(CountAll(keys[..|keys| - 1]), keys[|keys| - 1]);
      IncrementDistinct(CountAll(keys[..|keys| - 1]), keys[|keys| - 1]);
    }
  }

  function CountOf(e: Entry): real {
    e.1 as real
  }

  /**
   * `counter.most_common(n)`: at most n entries, by non-increasing count;
   * equal counts keep the order their keys were first counted in.
   */
  function MostCommon(c: Counter, n: nat): (r: Counter)
    ensures |r| <= n && |r| <= |c|
    ensures multiset(r) <= multiset(c)
  {
    var ranked := SortDesc(c, CountOf);
    assert ranked == Take(ranked, n) + ranked[|Take(ranked, n)|..];
    Take(ranked, n)
  }

  /** The listed entries come by count, and none left out has a higher count than one listed. */
  lemma MostCommonRanked(c: Counter, n: nat)
    ensures SortedDesc(MostCommon(c, n), CountOf)
    ensures forall i, j :: 0 <= i < |MostCommon(c, n)| <= j < |c| ==>
      MostCommon(c, n)[i].1 >= SortDesc(c, CountOf)[j].1
  {
    SortDescSorted(c, CountOf);
    TakeOutranksRest(SortDesc(c, CountOf), CountOf, n);
  }

  /**
   * Ties keep the counter's order: the listed entries with a given count are
   * the first of the counter's entries with that count, in the same order.
   */
  lemma MostCommonStable(c: Counter, n: nat, count: nat)
    ensures WithKey(MostCommon(c, n), CountOf, count as real) <= WithKey(c, CountOf, count as real)
  {
    var ranked := SortDesc(c, CountOf);
    var top := Take(ranked, n);
    assert ranked == top + ranked[|top|..];
    WithKeyAppend(top, ranked[|top|..], CountOf, count as real);
    SortDescStable(c, CountOf, count as real);
  }
}
