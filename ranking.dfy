/**
 * Ordered collections as Python handles them: list comprehensions with a
 * condition, slices that keep a prefix, and the stable sort that
 * `list.sort(key=..., reverse=True)` and `sorted(...)` perform.
 */
module Ranking {
  import opened Wrappers

  /** `[x for x in s if keep(x)]`. */
  function Filter<T>(s: seq<T>, keep: T -> bool): (r: seq<T>)
    ensures |r| <= |s|
    ensures forall i :: 0 <= i < |r| ==> r[i] in s && keep(r[i])
    ensures forall i :: 0 <= i < |s| && keep(s[i]) ==> s[i] in r
  {
    if s == [] then []
    else
      var rest := Filter(s[..|s| - 1], keep);
      var last := s[|s| - 1];
      assert s == s[..|s| - 1] + [last];
      if keep(last) then rest + [last] else rest
  }

  /** Everything s holds is kept when every element passes. */
  lemma {:induction false} FilterAll<T>(s: seq<T>, keep: T -> bool)
    requires forall i :: 0 <= i < |s| ==> keep(s[i])
    ensures Filter(s, keep) == s
  {
    if s != [] {
      FilterAll(s[..|s| - 1], keep);
      assert s == s[..|s| - 1] + [s[|s| - 1]];
    }
  }

  /** The comprehension keeps order: it distributes over concatenation. */
  lemma {:induction false} FilterAppend<T>(a: seq<T>, b: seq<T>, keep: T -> bool)
    ensures Filter(a + b, keep) == Filter(a, keep) + Filter(b, keep)
    decreases |b|
  {
    if b == [] {
      assert a + b == a;
    } else {
      var front := b[..|b| - 1];
      assert (a + b)[..|a + b| - 1] == a + front;
      assert (a + b)[|a + b| - 1] == b[|b| - 1];
      FilterAppend(a, front, keep);
    }
  }

  /** `s[:n]`. */
  function Take<T>(s: seq<T>, n: nat): (r: seq<T>)
    ensures |r| == if |s| <= n then |s| else n
    ensures r == s[..|r|]
  {
    if |s| <= n then s else s[..n]
  }

  /** Keys never increase along s. */
  predicate SortedDesc<T>(s: seq<T>, key: T -> real) {
    forall i, j :: 0 <= i < j < |s| ==> key(s[i]) >= key(s[j])
  }

  /**
   * Put x behind every element whose key is at least its own: the step of a
   * stable insertion sort that keeps earlier elements ahead of later equal ones.
   */
  function Insert<T>(x: T, s: seq<T>, key: T -> real): (r: seq<T>)
    ensures |r| == |s| + 1
    ensures multiset(r) == multiset(s) + multiset{x}
  {
    if s == [] then [x]
    else
      assert s == [s[0]] + s[1..];
      if key(s[0]) >= key(x) then [s[0]] + Insert(x, s[1..], key)
      else [x] + s
  }

  /**
   * `sorted(s, key=key, reverse=True)`: stable, so elements of equal key keep
   * their order in s.
   */
  function SortDesc<T>(s: seq<T>, key: T -> real): (r: seq<T>)
    ensures |r| == |s|
    ensures multiset(r) == multiset(s)
  {
    if s == [] then []
    else
      assert s == s[..|s| - 1] + [s[|s| - 1]];
      Insert(s[|s| - 1], SortDesc(s[..|s| - 1], key), key)
  }

  lemma {:induction false} InsertSorted<T>(x: T, s: seq<T>, key: T -> real)
    requires SortedDesc(s, key)
    ensures SortedDesc(Insert(x, s, key), key)
    decreases |s|
  {
    if s != [] && key(s[0]) >= key(x) {
      InsertSorted(x, s[1..], key);
      var r := Insert(x, s, key);
      forall j | 0 < j < |r|
        ensures key(r[0]) >= key(r[j])
      {
        assert r[j] in multiset(s[1..]) + multiset{x};
        if r[j] != x {
          var k :| 0 <= k < |s[1..]| && s[1..][k] == r[j];
          assert s[k + 1] == r[j];
        }
      }
    }
  }

  /** The sort orders by non-increasing key. */
  lemma {:induction false} SortDescSorted<T>(s: seq<T>, key: T -> real)
    ensures SortedDesc(SortDesc(s, key), key)
    decreases |s|
  {
    if s != [] {
      SortDescSorted(s[..|s| - 1], key);
      InsertSorted(s[|s| - 1], SortDesc(s[..|s| - 1], key), key);
    }
  }

  /** The elements of s whose key is k, in order. */
  function WithKey<T>(s: seq<T>, key: T -> real, k: real): (r: seq<T>)
    ensures |r| <= |s|
  {
    if s == [] then []
    else (if key(s[0]) == k then [s[0]] else []) + WithKey(s[1..], key, k)
  }

  lemma {:induction false} WithKeyAppend<T>(a: seq<T>, b: seq<T>, key: T -> real, k: real)
    ensures WithKey(a + b, key, k) == WithKey(a, key, k) + WithKey(b, key, k)
    decreases |a|
  {
    if a == [] {
      assert a + b == b;
    } else {
      var head := if key(a[0]) == k then [a[0]] else [];
      assert (a + b)[0] == a[0] && (a + b)[1..] == a[1..] + b;
      assert WithKey(a + b, key, k) == head + WithKey(a[1..] + b, key, k);
      WithKeyAppend(a[1..], b, key, k);
      assert WithKey(a, key, k) == head + WithKey(a[1..], key, k);
    }
  }

  lemma {:induction false} WithKeyNone<T>(s: seq<T>, key: T -> real, k: real)
    requires forall i :: 0 <= i < |s| ==> key(s[i]) < k
    ensures WithKey(s, key, k) == []
    decreases |s|
  {
    if s != [] {
      WithKeyNone(s[1..], key, k);
    }
  }

  lemma {:induction false} InsertWithKey<T>(x: T, s: seq<T>, key: T -> real, k: real)
    requires SortedDesc(s, key)
    ensures WithKey(Insert(x, s, key), key, k) == WithKey(s, key, k) + (if key(x) == k then [x] else [])
    decreases |s|
  {
    if s != [] {
      var r := Insert(x, s, key);
      if key(s[0]) >= key(x) {
        InsertWithKey(x, s[1..], key, k);
        assert r[0] == s[0] && r[1..] == Insert(x, s[1..], key);
      } else {
        assert r[0] == x && r[1..] == s;
        if key(x) == k {
          WithKeyNone(s, key, k);
        }
      }
    }
  }

  /** A non-empty sequence is its front followed by its last element. */
  lemma SplitLast<T>(s: seq<T>)
    requires s != []
    ensures s == s[..|s| - 1] + [s[|s| - 1]]
  {
  }

  /** Stability: for every key value, the elements with that key keep their relative order. */
  lemma {:induction false} SortDescStable<T>(s: seq<T>, key: T -> real, k: real)
    ensures WithKey(SortDesc(s, key), key, k) == WithKey(s, key, k)
    decreases |s|
  {
    if s != [] {
      var prefix := s[..|s| - 1];
      var last := s[|s| - 1];
      var sorted := SortDesc(prefix, key);
      var tail := if key(last) == k then [last] else [];
      SplitLast(s);
      assert SortDesc(s, key) == Insert(last, sorted, key);
      SortDescStable(prefix, key, k);
      SortDescSorted(prefix, key);
      InsertWithKey(last, sorted, key, k);
      assert WithKey(SortDesc(s, key), key, k) == WithKey(prefix, key, k) + tail;
      WithKeyAppend(prefix, [last], key, k);
      assert [last][1..] == [];
      assert WithKey([last], key, k) == tail;
    }
  }

  /** In a sorted sequence nothing past the first n outranks anything within them. */
  lemma TakeOutranksRest<T>(s: seq<T>, key: T -> real, n: nat)
    requires SortedDesc(s, key)
    ensures forall i, j :: 0 <= i < |Take(s, n)| <= j < |s| ==> key(Take(s, n)[i]) >= key(s[j])
  {
  }

  /** `[f(x) for x in s]` keeping only the results that exist, in order. */
  function FilterMap<T, U>(s: seq<T>, f: T -> Option<U>): (r: seq<U>)
    ensures |r| <= |s|
  {
    if s == [] then []
    else
      var rest := FilterMap(s[..|s| - 1], f);
      match f(s[|s| - 1])
      case None => rest
      case Some(y) => rest + [y]
  }

  /** One more element adds its result, if any, at the end. */
  lemma FilterMapStep<T, U>(s: seq<T>, i: nat, f: T -> Option<U>)
    requires i < |s|
    ensures FilterMap(s[..i + 1], f) == FilterMap(s[..i], f) + (if f(s[i]).Some? then [f(s[i]).value] else [])
  {
    assert s[..i + 1][..i] == s[..i];
    assert s[..i + 1][i] == s[i];
  }

  /** FilterMap keeps order: it distributes over concatenation. */
  lemma {:induction false} FilterMapAppend<T, U>(a: seq<T>, b: seq<T>, f: T -> Option<U>)
    ensures FilterMap(a + b, f) == FilterMap(a, f) + FilterMap(b, f)
    decreases |b|
  {
    if b == [] {
      assert a + b == a;
    } else {
      var front := b[..|b| - 1];
      assert (a + b)[..|a + b| - 1] == a + front;
      assert (a + b)[|a + b| - 1] == b[|b| - 1];
      FilterMapAppend(a, front, f);
    }
  }

  /** Every kept result is the result of some element. */
  lemma {:induction false} FilterMapFrom<T, U>(s: seq<T>, f: T -> Option<U>)
    ensures forall i :: 0 <= i < |FilterMap(s, f)| ==> exists j :: 0 <= j < |s| && f(s[j]) == Some(FilterMap(s, f)[i])
  {
    if s != [] {
      var prefix := s[..|s| - 1];
      var front := FilterMap(prefix, f);
      var last := s[|s| - 1];
      FilterMapFrom(prefix, f);
      assert forall j :: 0 <= j < |prefix| ==> prefix[j] == s[j];
      var r := FilterMap(s, f);
      assert r == front + (if f(last).Some? then [f(last).value] else []);
      forall i | 0 <= i < |FilterMap(s, f)|
        ensures exists j :: 0 <= j < |s| && f(s[j]) == Some(FilterMap(s, f)[i])
      {
        if i < |front| {
          var j :| 0 <= j < |prefix| && f(prefix[j]) == Some(front[i]);
          assert f(s[j]) == Some(r[i]);
        } else {
          assert f(s[|s| - 1]) == Some(r[i]);
        }
      }
    } else {
      assert FilterMap(s, f) == [];
    }
  }

  /** Every element with a result contributes it. */
  lemma {:induction false} FilterMapKeeps<T, U>(s: seq<T>, j: nat, f: T -> Option<U>)
    requires j < |s| && f(s[j]).Some?
    ensures f(s[j]).value in FilterMap(s, f)
  {
    var prefix := s[..|s| - 1];
    if j < |s| - 1 {
      assert prefix[j] == s[j];
      FilterMapKeeps(prefix, j, f);
    }
  }

  /** Nothing is kept exactly when no element has a result. */
  lemma {:induction false} FilterMapEmpty<T, U>(s: seq<T>, f: T -> Option<U>)
    ensures FilterMap(s, f) == [] <==> forall i :: 0 <= i < |s| ==> f(s[i]).None?
  {
    if s != [] {
      var prefix := s[..|s| - 1];
      FilterMapEmpty(prefix, f);
      assert forall i :: 0 <= i < |prefix| ==> prefix[i] == s[i];
    }
  }

  /** When every element has a result, every result is kept, position by position. */
  lemma {:induction false} FilterMapAll<T, U>(s: seq<T>, f: T -> Option<U>)
    requires forall i :: 0 <= i < |s| ==> f(s[i]).Some?
    ensures |FilterMap(s, f)| == |s|
    ensures forall i :: 0 <= i < |s| ==> FilterMap(s, f)[i] == f(s[i]).value
  {
    if s != [] {
      var n := |s| - 1;
      var prefix := s[..n];
      assert forall i :: 0 <= i < n ==> prefix[i] == s[i];
      FilterMapAll(prefix, f);
      FilterMapStep(s, n, f);
      assert s[..n + 1] == s;
    }
  }

  /** `[f(x) for x in s]`. */
  function Map<T, U>(s: seq<T>, f: T -> U): (r: seq<U>)
    ensures |r| == |s|
    ensures forall i :: 0 <= i < |s| ==> r[i] == f(s[i])
  {
    if s == [] then [] else Map(s[..|s| - 1], f) + [f(s[|s| - 1])]
  }

  lemma MapStep<T, U>(s: seq<T>, i: nat, f: T -> U)
    requires i < |s|
    ensures Map(s[..i + 1], f) == Map(s[..i], f) + [f(s[i])]
  {
    assert s[..i + 1][..i] == s[..i];
  }

  /** The blocks one after another. */
  function Flatten<T>(blocks: seq<seq<T>>): (r: seq<T>)
  {
    if blocks == [] then [] else Flatten(blocks[..|blocks| - 1]) + blocks[|blocks| - 1]
  }

  lemma FlattenStep<T>(blocks: seq<seq<T>>, i: nat)
    requires i < |blocks|
    ensures Flatten(blocks[..i + 1]) == Flatten(blocks[..i]) + blocks[i]
  {
    assert blocks[..i + 1][..i] == blocks[..i];
  }

  /** One more element adds its block at the end. */
  lemma FlattenMapStep<T, U>(s: seq<T>, i: nat, f: T -> seq<U>)
    requires i < |s|
    ensures Flatten(Map(s[..i + 1], f)) == Flatten(Map(s[..i], f)) + f(s[i])
  {
    MapStep(s, i, f);
    var blocks := Map(s[..i + 1], f);
    assert blocks[..i] == Map(s[..i], f);
    FlattenStep(blocks, i);
    assert blocks[..i + 1] == blocks;
  }

  /** A prefix followed by the blocks of items[..i] grows by the block of items[i]. */
  lemma AppendBlockStep<T, U>(lines: seq<U>, items: seq<T>, i: nat, f: T -> seq<U>, out: seq<U>, block: seq<U>)
    requires i < |items|
    requires out == lines + Flatten(Map(items[..i], f))
    requires block == f(items[i])
    ensures out + block == lines + Flatten(Map(items[..i + 1], f))
  {
    FlattenMapStep(items, i, f);
    assert out + block == lines + (Flatten(Map(items[..i], f)) + block);
  }

  /** Block i starts right after the blocks before it. */
  lemma {:induction false} FlattenAt<T>(blocks: seq<seq<T>>, i: nat)
    requires i < |blocks|
    ensures |Flatten(blocks[..i])| + |blocks[i]| <= |Flatten(blocks)|
    ensures Flatten(blocks)[|Flatten(blocks[..i])|..|Flatten(blocks[..i])| + |blocks[i]|] == blocks[i]
    decreases |blocks|
  {
    var n := |blocks| - 1;
    var front := blocks[..n];
    assert Flatten(blocks) == Flatten(front) + blocks[n];
    if i == n {
      assert blocks[..i] == front;
    } else {
      assert front[..i] == blocks[..i] && front[i] == blocks[i];
      FlattenAt(front, i);
    }
  }

  /** `[f(i, x) for i, x in enumerate(s[:n], start=1)]`. */
  function Enumerate<T, U>(s: seq<T>, n: nat, f: (nat, T) -> U): seq<U>
    requires n <= |s|
  {
    if n == 0 then [] else Enumerate(s, n - 1, f) + [f(n, s[n - 1])]
  }

  /** Position i holds f applied to i + 1 and the element at i. */
  lemma {:induction false} EnumerateAt<T, U>(s: seq<T>, n: nat, f: (nat, T) -> U)
    requires n <= |s|
    ensures |Enumerate(s, n, f)| == n
    ensures forall i :: 0 <= i < n ==> Enumerate(s, n, f)[i] == f(i + 1, s[i])
  {
    if n > 0 {
      EnumerateAt(s, n - 1, f);
    }
  }
}
