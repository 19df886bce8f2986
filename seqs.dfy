/** Sequence operations shared by the controllers and the pages:
    `Array.prototype.filter`, removal of every copy of a value, and sums. */
module Seqs {

  /** `s.filter(keep)`: the elements of `s` that satisfy `keep`, in their original order. */
  function Filter<T>(s: seq<T>, keep: T -> bool): (r: seq<T>)
    ensures |r| <= |s|
    ensures forall i :: 0 <= i < |r| ==> r[i] in s && keep(r[i])
    ensures forall i :: 0 <= i < |s| && keep(s[i]) ==> s[i] in r
    decreases |s|
  {
    if s == [] then []
    else if keep(s[0]) then [s[0]] + Filter(s[1..], keep)
    else Filter(s[1..], keep)
  }

  /** The filter keeps every copy of a kept value and no copy of any other. */
  lemma {:induction false} FilterCounts<T>(s: seq<T>, keep: T -> bool)
    ensures forall x :: multiset(Filter(s, keep))[x] == if keep(x) then multiset(s)[x] else 0
    decreases |s|
  {
    if s != [] {
      FilterCounts(s[1..], keep);
      assert s == [s[0]] + s[1..];
    }
  }

  /** `r` can be obtained from `s` by deleting elements, without reordering. */
  ghost predicate SubsequenceOf<T>(r: seq<T>, s: seq<T>)
    decreases |s|
  {
    if r == [] then true
    else if s == [] then false
    else (r[0] == s[0] && SubsequenceOf(r[1..], s[1..])) || SubsequenceOf(r, s[1..])
  }

  /** No two positions of `s` carry the same key. */
  ghost predicate InjectiveOn<T, K>(s: seq<T>, key: T -> K)
  {
    forall i, j :: 0 <= i < j < |s| ==> key(s[i]) != key(s[j])
  }

  ghost predicate NoDuplicates<T>(s: seq<T>)
  {
    forall i, j :: 0 <= i < j < |s| ==> s[i] != s[j]
  }

  lemma {:induction false} FilterIsSubsequence<T>(s: seq<T>, keep: T -> bool)
    ensures SubsequenceOf(Filter(s, keep), s)
    decreases |s|
  {
    if s != [] {
      FilterIsSubsequence(s[1..], keep);
      var r := Filter(s, keep);
      if keep(s[0]) {
        assert r[0] == s[0] && r[1..] == Filter(s[1..], keep);
      }
    }
  }

  lemma {:induction false} FilterConcat<T>(a: seq<T>, b: seq<T>, keep: T -> bool)
    ensures Filter(a + b, keep) == Filter(a, keep) + Filter(b, keep)
    decreases |a|
  {
    if a != [] {
      assert (a + b)[0] == a[0];
      assert (a + b)[1..] == a[1..] + b;
      FilterConcat(a[1..], b, keep);
    } else {
      assert a + b == b;
    }
  }

  lemma {:induction false} FilterAllKept<T>(s: seq<T>, keep: T -> bool)
    requires forall i :: 0 <= i < |s| ==> keep(s[i])
    ensures Filter(s, keep) == s
    decreases |s|
  {
    if s != [] {
      FilterAllKept(s[1..], keep);
    }
  }

  lemma {:induction false} FilterNoneKept<T>(s: seq<T>, keep: T -> bool)
    requires forall i :: 0 <= i < |s| ==> !keep(s[i])
    ensures Filter(s, keep) == []
    decreases |s|
  {
    if s != [] {
      FilterNoneKept(s[1..], keep);
    }
  }

  /** A filter that rejects exactly position `i` deletes that position. */
  lemma {:induction false} FilterDropsOne<T>(s: seq<T>, i: nat, keep: T -> bool)
    requires i < |s| && !keep(s[i])
    requires forall j :: 0 <= j < |s| && j != i ==> keep(s[j])
    ensures Filter(s, keep) == s[..i] + s[i + 1..]
  {
    var a, b := s[..i], s[i + 1..];
    assert s == a + ([s[i]] + b);
    FilterConcat(a, [s[i]] + b, keep);
    FilterConcat([s[i]], b, keep);
    assert Filter([s[i]], keep) == [];
    assert forall j :: 0 <= j < |a| ==> a[j] == s[j];
    FilterAllKept(a, keep);
    forall j | 0 <= j < |b| ensures keep(b[j]) {
      assert b[j] == s[i + 1 + j];
    }
    FilterAllKept(b, keep);
  }

  lemma {:induction false} FilterKeepsInjective<T, K>(s: seq<T>, keep: T -> bool, key: T -> K)
    requires InjectiveOn(s, key)
    ensures InjectiveOn(Filter(s, keep), key)
    decreases |s|
  {
    if s != [] {
      var t := s[1..];
      assert InjectiveOn(t, key) by {
        forall i, j | 0 <= i < j < |t| ensures key(t[i]) != key(t[j]) {
          assert t[i] == s[i + 1] && t[j] == s[j + 1];
        }
      }
      FilterKeepsInjective(t, keep, key);
      if keep(s[0]) {
        var f := Filter(t, keep);
        var r := [s[0]] + f;
        forall i, j | 0 <= i < j < |r| ensures key(r[i]) != key(r[j]) {
          if i == 0 {
            assert r[j] == f[j - 1] && f[j - 1] in t;
            var m :| 0 <= m < |t| && t[m] == f[j - 1];
            assert s[m + 1] == t[m];
          } else {
            assert r[i] == f[i - 1] && r[j] == f[j - 1];
          }
        }
      }
    }
  }

  lemma RemoveAtKeepsInjective<T, K>(s: seq<T>, i: nat, key: T -> K)
    requires i < |s| && InjectiveOn(s, key)
    ensures InjectiveOn(s[..i] + s[i + 1..], key)
  {
    var r := s[..i] + s[i + 1..];
    forall a, b | 0 <= a < b < |r| ensures key(r[a]) != key(r[b]) {
      var a', b' := if a < i then a else a + 1, if b < i then b else b + 1;
      assert r[a] == s[a'] && r[b] == s[b'];
    }
  }

  /** `s.filter(y => y !== x)`: every copy of `x` dropped, the rest in order. */
  function RemoveAll<T(==)>(s: seq<T>, x: T): (r: seq<T>)
    ensures x !in r
    ensures forall i :: 0 <= i < |r| ==> r[i] in s
    ensures forall i :: 0 <= i < |s| && s[i] != x ==> s[i] in r
  {
    Filter(s, y => y != x)
  }

  lemma RemoveAllAbsent<T>(s: seq<T>, x: T)
    requires x !in s
    ensures RemoveAll(s, x) == s
  {
    FilterAllKept(s, y => y != x);
  }

  lemma RemoveAllIdempotent<T>(s: seq<T>, x: T)
    ensures RemoveAll(RemoveAll(s, x), x) == RemoveAll(s, x)
  {
    RemoveAllAbsent(RemoveAll(s, x), x);
  }

  /** Removing a value that was just appended to a list without it gives the list back. */
  lemma RemoveAllUndoesAppend<T>(s: seq<T>, x: T)
    requires x !in s
    ensures RemoveAll(s + [x], x) == s
  {
    FilterConcat(s, [x], y => y != x);
    FilterNoneKept([x], y => y != x);
    RemoveAllAbsent(s, x);
  }

  lemma RemoveAllKeepsNoDuplicates<T>(s: seq<T>, x: T)
    requires NoDuplicates(s)
    ensures NoDuplicates(RemoveAll(s, x))
  {
    var id := (y: T) => y;
    assert InjectiveOn(s, id);
    FilterKeepsInjective(s, y => y != x, id);
    var r := RemoveAll(s, x);
    assert InjectiveOn(r, id);
    forall i, j | 0 <= i < j < |r| ensures r[i] != r[j] {
      assert id(r[i]) != id(r[j]);
    }
  }

  /** `s.reduce((acc, y) => acc + f(y), 0)`. */
  function SumOf<T>(s: seq<T>, f: T -> int): int
    decreases |s|
  {
    if s == [] then 0 else f(s[0]) + SumOf(s[1..], f)
  }

  lemma {:induction false} SumOfConcat<T>(a: seq<T>, b: seq<T>, f: T -> int)
    ensures SumOf(a + b, f) == SumOf(a, f) + SumOf(b, f)
    decreases |a|
  {
    if a == [] {
      assert a + b == b;
    } else {
      assert (a + b)[0] == a[0];
      assert (a + b)[1..] == a[1..] + b;
      SumOfConcat(a[1..], b, f);
    }
  }

  lemma SumOfSnoc<T>(s: seq<T>, x: T, f: T -> int)
    ensures SumOf(s + [x], f) == SumOf(s, f) + f(x)
  {
    SumOfConcat(s, [x], f);
  }

  /** Dropping position `i` takes `f(s[i])` off the sum. */
  lemma SumOfRemoveAt<T>(s: seq<T>, i: nat, f: T -> int)
    requires i < |s|
    ensures SumOf(s[..i] + s[i + 1..], f) == SumOf(s, f) - f(s[i])
  {
    assert s == s[..i] + ([s[i]] + s[i + 1..]);
    SumOfConcat(s[..i], [s[i]] + s[i + 1..], f);
    SumOfConcat([s[i]], s[i + 1..], f);
    SumOfConcat(s[..i], s[i + 1..], f);
  }

  /** Replacing position `i` by `x` changes the sum by `f(x) - f(s[i])`. */
  lemma SumOfUpdate<T>(s: seq<T>, i: nat, x: T, f: T -> int)
    requires i < |s|
    ensures SumOf(s[i := x], f) == SumOf(s, f) - f(s[i]) + f(x)
  {
    var t := s[i := x];
    assert t == t[..i] + ([x] + t[i + 1..]);
    assert t[..i] == s[..i] && t[i + 1..] == s[i + 1..];
    SumOfConcat(t[..i], [x] + t[i + 1..], f);
    SumOfConcat([x], t[i + 1..], f);
    SumOfRemoveAt(s, i, f);
    SumOfConcat(s[..i], s[i + 1..], f);
  }
}
