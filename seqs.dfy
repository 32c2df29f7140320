/** Order-preserving filters and tables of rows keyed by an integer id. */
module Seqs {
  import opened Wrappers

  /** The elements of `s` that satisfy `p`, in their original order (Python's list comprehension
      with an `if`, JavaScript's `Array.filter`, SQL's `WHERE`). */
  function Filter<T(!new)>(p: T -> bool, s: seq<T>): (r: seq<T>)
    ensures |r| <= |s|
    ensures forall x :: x in r <==> x in s && p(x)
  {
    if s == [] then [] else (if p(s[0]) then [s[0]] else []) + Filter(p, s[1..])
  }

  /** `a` is `b` with some elements left out and the rest kept in order. */
  ghost predicate IsSubsequence<T>(a: seq<T>, b: seq<T>)
    decreases |b|
  {
    if b == [] then a == []
    else (a != [] && a[0] == b[0] && IsSubsequence(a[1..], b[1..])) || IsSubsequence(a, b[1..])
  }

  lemma {:induction false} FilterIsSubsequence<T(!new)>(p: T -> bool, s: seq<T>)
    ensures IsSubsequence(Filter(p, s), s)
  {
    if s != [] {
      FilterIsSubsequence(p, s[1..]);
      if p(s[0]) {
        assert Filter(p, s) == [s[0]] + Filter(p, s[1..]);
        assert Filter(p, s)[1..] == Filter(p, s[1..]);
      } else {
        assert Filter(p, s) == Filter(p, s[1..]);
      }
    }
  }

  /** Two filters applied one after the other keep exactly what the conjunction keeps. */
  lemma {:induction false} FilterFilter<T(!new)>(p: T -> bool, q: T -> bool, pq: T -> bool, s: seq<T>)
    requires forall x :: pq(x) == (p(x) && q(x))
    ensures Filter(q, Filter(p, s)) == Filter(pq, s)
  {
    if s != [] {
      var rest := s[1..];
      FilterFilter(p, q, pq, rest);
      assert pq(s[0]) == (p(s[0]) && q(s[0]));
      assert Filter(pq, s) == (if pq(s[0]) then [s[0]] else []) + Filter(pq, rest);
      if p(s[0]) {
        var x := Filter(p, s);
        assert x == [s[0]] + Filter(p, rest);
        assert x[0] == s[0] && x[1..] == Filter(p, rest);
        assert Filter(q, x) == (if q(s[0]) then [s[0]] else []) + Filter(q, Filter(p, rest));
      } else {
        assert Filter(p, s) == Filter(p, rest);
      }
    }
  }

  /** A filter whose predicate holds everywhere keeps the whole sequence. */
  lemma {:induction false} FilterAll<T(!new)>(p: T -> bool, s: seq<T>)
    requires forall x :: x in s ==> p(x)
    ensures Filter(p, s) == s
  {
    if s != [] {
      FilterAll(p, s[1..]);
      assert s == [s[0]] + s[1..];
    }
  }

  lemma {:induction false} FilterAppend<T(!new)>(p: T -> bool, s: seq<T>, t: seq<T>)
    ensures Filter(p, s + t) == Filter(p, s) + Filter(p, t)
  {
    if s == [] {
      assert s + t == t;
    } else {
      assert (s + t)[0] == s[0];
      assert (s + t)[1..] == s[1..] + t;
      FilterAppend(p, s[1..], t);
    }
  }

  // ---------------------------------------------------------------------------------------
  // Tables: sequences of rows whose integer key (the primary key column) is given by `key`.

  /** No two rows share a key. */
  ghost predicate UniqueKeys<T>(t: seq<T>, key: T -> int) {
    forall i, j :: 0 <= i < j < |t| ==> key(t[i]) != key(t[j])
  }

  /** Keys are unique and all below the next value of the id sequence. */
  ghost predicate Keyed<T>(t: seq<T>, key: T -> int, next: int) {
    UniqueKeys(t, key) && forall x :: x in t ==> key(x) < next
  }

  /** The row with key `k` (`scalar_one_or_none` on a primary-key query). */
  function Find<T>(t: seq<T>, key: T -> int, k: int): (r: Option<T>)
    ensures r.Some? ==> r.value in t && key(r.value) == k
    ensures r.None? <==> forall x :: x in t ==> key(x) != k
  {
    if t == [] then None else if key(t[0]) == k then Some(t[0]) else Find(t[1..], key, k)
  }

  /** On a table with unique keys, `Find` returns the one row with that key. */
  lemma {:induction false} FindUnique<T>(t: seq<T>, key: T -> int, x: T)
    requires UniqueKeys(t, key)
    requires x in t
    ensures Find(t, key, key(x)) == Some(x)
  {
    if t[0] != x {
      assert key(t[0]) != key(x) by {
        var j :| 0 <= j < |t| && t[j] == x;
        assert j != 0;
      }
      assert x in t[1..];
      assert UniqueKeys(t[1..], key) by {
        forall i, j | 0 <= i < j < |t[1..]| ensures key(t[1..][i]) != key(t[1..][j]) {
          assert t[1..][i] == t[i + 1] && t[1..][j] == t[j + 1];
        }
      }
      FindUnique(t[1..], key, x);
    }
  }

  /** The table with every row whose key is `k` replaced by `row` (an in-place `UPDATE`). */
  function Replace<T>(t: seq<T>, key: T -> int, k: int, row: T): (r: seq<T>)
    ensures |r| == |t|
    ensures forall i :: 0 <= i < |t| ==> r[i] == if key(t[i]) == k then row else t[i]
  {
    seq(|t|, i requires 0 <= i < |t| => if key(t[i]) == k then row else t[i])
  }

  lemma ReplaceKeepsKeys<T>(t: seq<T>, key: T -> int, next: int, row: T)
    requires Keyed(t, key, next)
    ensures Keyed(Replace(t, key, key(row), row), key, next)
  {
    var r := Replace(t, key, key(row), row);
    forall x | x in r ensures key(x) < next {
      var i :| 0 <= i < |r| && r[i] == x;
      assert key(r[i]) == key(t[i]);
    }
    forall i, j | 0 <= i < j < |r| ensures key(r[i]) != key(r[j]) {
      assert key(r[i]) == key(t[i]) && key(r[j]) == key(t[j]);
    }
  }

  /** The table without the row whose key is `k` (a `DELETE ... WHERE id = k`). */
  function RemoveKey<T(!new)>(t: seq<T>, key: T -> int, k: int): (r: seq<T>)
    ensures forall x :: x in r <==> x in t && key(x) != k
  {
    Filter(KeyIsNot(key, k), t)
  }

  /** The filter predicate of `RemoveKey`. */
  function KeyIsNot<T(!new)>(key: T -> int, k: int): (p: T -> bool)
    ensures forall x :: p(x) <==> key(x) != k
  {
    (x: T) => key(x) != k
  }

  /** The filter predicate "the key is `k`". */
  function KeyIs<T(!new)>(key: T -> int, k: int): (p: T -> bool)
    ensures forall x :: p(x) <==> key(x) == k
  {
    (x: T) => key(x) == k
  }

  /** Two kept positions make a filter at least two long. */
  lemma {:induction false} FilterKeepsTwo<T(!new)>(p: T -> bool, s: seq<T>, i: int, j: int)
    requires 0 <= i < j < |s| && p(s[i]) && p(s[j])
    ensures |Filter(p, s)| >= 2
  {
    if i == 0 {
      assert s[j] in s[1..];
      assert s[j] in Filter(p, s[1..]);
    } else {
      FilterKeepsTwo(p, s[1..], i - 1, j - 1);
    }
  }

  /** A filter that no element passes is empty. */
  lemma {:induction false} FilterNone<T(!new)>(p: T -> bool, s: seq<T>)
    requires forall x :: x in s ==> !p(x)
    ensures Filter(p, s) == []
  {
    if s != [] {
      assert s[0] in s;
      FilterNone(p, s[1..]);
    }
  }

  /** A filter that only one position passes yields that element alone. */
  lemma {:induction false} FilterSingle<T(!new)>(p: T -> bool, s: seq<T>, i: int)
    requires 0 <= i < |s| && p(s[i])
    requires forall j :: 0 <= j < |s| && j != i ==> !p(s[j])
    ensures Filter(p, s) == [s[i]]
  {
    var rest := s[1..];
    if i == 0 {
      forall x | x in rest ensures !p(x) {
        var j :| 0 <= j < |rest| && rest[j] == x;
        assert s[j + 1] == x;
      }
      FilterNone(p, rest);
    } else {
      assert !p(s[0]);
      forall j | 0 <= j < |rest| && j != i - 1 ensures !p(rest[j]) {
        assert rest[j] == s[j + 1];
      }
      FilterSingle(p, rest, i - 1);
    }
  }

  lemma {:induction false} FilterKeepsKeys<T(!new)>(p: T -> bool, t: seq<T>, key: T -> int, next: int)
    requires Keyed(t, key, next)
    ensures Keyed(Filter(p, t), key, next)
  {
    if t != [] {
      var rest := t[1..];
      assert Keyed(rest, key, next) by {
        forall i, j | 0 <= i < j < |rest| ensures key(rest[i]) != key(rest[j]) {
          assert rest[i] == t[i + 1] && rest[j] == t[j + 1];
        }
      }
      FilterKeepsKeys(p, rest, key, next);
      if p(t[0]) {
        var r := Filter(p, t);
        assert r == [t[0]] + Filter(p, rest);
        forall i, j | 0 <= i < j < |r| ensures key(r[i]) != key(r[j]) {
          if i == 0 {
            assert r[j] in Filter(p, rest);
            assert r[j] in rest;
            var m :| 0 <= m < |rest| && rest[m] == r[j];
            assert t[m + 1] == r[j];
          } else {
            assert r[i] == Filter(p, rest)[i - 1] && r[j] == Filter(p, rest)[j - 1];
          }
        }
      }
    }
  }

  /** Every pair of rows, taken in table order, satisfies `ok` (a UNIQUE constraint, or any
      other condition on two rows). */
  ghost predicate Pairwise<T>(t: seq<T>, ok: (T, T) -> bool) {
    forall i, j :: 0 <= i < j < |t| ==> ok(t[i], t[j])
  }

  lemma {:induction false} FilterPairwise<T(!new)>(p: T -> bool, t: seq<T>, ok: (T, T) -> bool)
    requires Pairwise(t, ok)
    ensures Pairwise(Filter(p, t), ok)
  {
    if t != [] {
      var rest := t[1..];
      assert Pairwise(rest, ok) by {
        forall i, j | 0 <= i < j < |rest| ensures ok(rest[i], rest[j]) {
          assert rest[i] == t[i + 1] && rest[j] == t[j + 1];
        }
      }
      FilterPairwise(p, rest, ok);
      if p(t[0]) {
        var r := Filter(p, t);
        assert r == [t[0]] + Filter(p, rest);
        forall i, j | 0 <= i < j < |r| ensures ok(r[i], r[j]) {
          if i == 0 {
            assert r[j] in Filter(p, rest);
            var m :| 0 <= m < |rest| && rest[m] == r[j];
            assert t[m + 1] == r[j];
          } else {
            assert r[i] == Filter(p, rest)[i - 1] && r[j] == Filter(p, rest)[j - 1];
          }
        }
      }
    }
  }

  /** A row that satisfies `ok` after every existing row can be appended. */
  lemma AppendPairwise<T>(t: seq<T>, ok: (T, T) -> bool, row: T)
    requires Pairwise(t, ok)
    requires forall x :: x in t ==> ok(x, row)
    ensures Pairwise(t + [row], ok)
  {
    var r := t + [row];
    forall i, j | 0 <= i < j < |r| ensures ok(r[i], r[j]) {
      assert r[i] == t[i];
      if j < |t| {
        assert r[j] == t[j];
      } else {
        assert t[i] in t;
      }
    }
  }

  /** A row that satisfies `ok` with every row of another key, both ways round, can replace
      the row with its key. */
  lemma ReplacePairwise<T>(t: seq<T>, key: T -> int, row: T, ok: (T, T) -> bool)
    requires Pairwise(t, ok) && UniqueKeys(t, key)
    requires forall x :: x in t && key(x) != key(row) ==> ok(x, row) && ok(row, x)
    ensures Pairwise(Replace(t, key, key(row), row), ok)
  {
    var r := Replace(t, key, key(row), row);
    forall i, j | 0 <= i < j < |r| ensures ok(r[i], r[j]) {
      assert t[i] in t && t[j] in t;
    }
  }

  /** Some row has key `k` (the row a FOREIGN KEY points at exists). */
  predicate HasKey<T>(t: seq<T>, key: T -> int, k: int)
    decreases |t|
  {
    |t| > 0 && (key(t[0]) == k || HasKey(t[1..], key, k))
  }

  lemma {:induction false} HasKeyMember<T>(t: seq<T>, key: T -> int, k: int)
    ensures HasKey(t, key, k) <==> exists x :: x in t && key(x) == k
    ensures HasKey(t, key, k) <==> Find(t, key, k).Some?
    decreases |t|
  {
    if |t| > 0 {
      HasKeyMember(t[1..], key, k);
      if key(t[0]) != k {
        assert forall x :: x in t && x != t[0] ==> x in t[1..];
      }
    }
  }

  /** With unique keys, removing a key drops exactly one row when the key is present and
      none otherwise. */
  lemma {:induction false} RemoveKeyCount<T(!new)>(t: seq<T>, key: T -> int, k: int)
    requires UniqueKeys(t, key)
    ensures |RemoveKey(t, key, k)| == if HasKey(t, key, k) then |t| - 1 else |t|
    decreases |t|
  {
    if t != [] {
      var tail := t[1..];
      assert UniqueKeys(tail, key) by {
        forall i, j | 0 <= i < j < |tail| ensures key(tail[i]) != key(tail[j]) {
          assert tail[i] == t[i + 1] && tail[j] == t[j + 1];
        }
      }
      if key(t[0]) == k {
        forall x | x in tail ensures KeyIsNot(key, k)(x) {
          var j :| 0 <= j < |tail| && tail[j] == x;
          assert t[j + 1] == x;
        }
        FilterAll(KeyIsNot(key, k), tail);
      } else {
        RemoveKeyCount(tail, key, k);
      }
    }
  }

  /** Replacing a row by one with the same key keeps the set of keys present. */
  lemma ReplaceKeepsPresence<T>(t: seq<T>, key: T -> int, row: T, k: int)
    ensures HasKey(Replace(t, key, key(row), row), key, k) == HasKey(t, key, k)
  {
    var r := Replace(t, key, key(row), row);
    HasKeyMember(t, key, k);
    HasKeyMember(r, key, k);
    if HasKey(t, key, k) {
      var x :| x in t && key(x) == k;
      var i :| 0 <= i < |t| && t[i] == x;
      assert key(r[i]) == k && r[i] in r;
    }
    if HasKey(r, key, k) {
      var x :| x in r && key(x) == k;
      var i :| 0 <= i < |r| && r[i] == x;
      assert key(t[i]) == k && t[i] in t;
    }
  }

  /** A key present after a filter was present before it; a kept row stays present. */
  lemma FilterPresence<T(!new)>(p: T -> bool, t: seq<T>, key: T -> int, k: int)
    ensures HasKey(Filter(p, t), key, k) ==> HasKey(t, key, k)
    ensures (exists x :: x in t && p(x) && key(x) == k) ==> HasKey(Filter(p, t), key, k)
  {
    HasKeyMember(t, key, k);
    HasKeyMember(Filter(p, t), key, k);
  }

  lemma AppendPresence<T>(t: seq<T>, key: T -> int, row: T, k: int)
    ensures HasKey(t + [row], key, k) <==> HasKey(t, key, k) || key(row) == k
  {
    HasKeyMember(t, key, k);
    HasKeyMember(t + [row], key, k);
    if HasKey(t, key, k) {
      var x :| x in t && key(x) == k;
      assert x in t + [row];
    }
    assert row in t + [row];
  }

  /** Appending a row whose key is the next id keeps the table keyed, with the id advanced. */
  lemma AppendKeepsKeys<T>(t: seq<T>, key: T -> int, next: int, row: T)
    requires Keyed(t, key, next)
    requires key(row) == next
    ensures Keyed(t + [row], key, next + 1)
  {
    var r := t + [row];
    forall i, j | 0 <= i < j < |r| ensures key(r[i]) != key(r[j]) {
      if j < |t| {
        assert r[i] == t[i] && r[j] == t[j];
      } else {
        assert r[i] == t[i];
        assert t[i] in t;
      }
    }
  }
}
