/**
 * The list transforms the client applies to its cached server lists:
 * `Array.prototype.filter`, an id-keyed `map`, and `Array.from(new Set(xs))`,
 * each with an independent characterisation proved about it.
 */
module Seqs {

  /** No element occurs twice. */
  predicate NoDup<T(==)>(s: seq<T>) {
    forall i, j :: 0 <= i < j < |s| ==> s[i] != s[j]
  }

  /** `a` is obtained from `b` by deleting elements, keeping the order of the rest. */
  predicate IsSubsequence<T(==)>(a: seq<T>, b: seq<T>)
    decreases |b|
  {
    if a == [] then true
    else if b == [] then false
    else if a[0] == b[0] then IsSubsequence(a[1..], b[1..])
    else IsSubsequence(a, b[1..])
  }

  // ---------------------------------------------------------------------------
  // filter by key

  /** The entries of `s` whose key is not `id`, in their original order. */
  function RemoveWhere<T, K(==)>(s: seq<T>, key: T -> K, id: K): (r: seq<T>)
    ensures |r| <= |s|
    ensures forall x :: x in r ==> x in s && key(x) != id
  {
    if s == [] then []
    else (if key(s[0]) != id then [s[0]] else []) + RemoveWhere(s[1..], key, id)
  }

  /**
   * RemoveWhere is fully characterised: the result keeps order (a subsequence),
   * holds no entry with key `id`, and every occurrence of every other entry.
   */
  lemma {:induction false} RemoveWhereSpec<T, K>(s: seq<T>, key: T -> K, id: K)
    ensures IsSubsequence(RemoveWhere(s, key, id), s)
    ensures forall x {:trigger multiset(RemoveWhere(s, key, id))[x]} ::
      multiset(RemoveWhere(s, key, id))[x] == if key(x) == id then 0 else multiset(s)[x]
  {
    if s != [] {
      var rest := RemoveWhere(s[1..], key, id);
      RemoveWhereSpec(s[1..], key, id);
      assert s == [s[0]] + s[1..];
      if key(s[0]) != id {
        assert RemoveWhere(s, key, id) == [s[0]] + rest;
        assert RemoveWhere(s, key, id)[1..] == rest;
      } else {
        assert RemoveWhere(s, key, id) == rest;
        if rest != [] {
          assert rest[0] in rest;
          SubsequenceDropHead(rest, s);
        }
      }
    }
  }

  /** When no entry carries the key, removal changes nothing. */
  lemma {:induction false} RemoveWhereAbsent<T, K>(s: seq<T>, key: T -> K, id: K)
    requires forall i :: 0 <= i < |s| ==> key(s[i]) != id
    ensures RemoveWhere(s, key, id) == s
  {
    if s != [] {
      RemoveWhereAbsent(s[1..], key, id);
    }
  }

  /** Removing twice is removing once. */
  lemma RemoveWhereIdempotent<T, K>(s: seq<T>, key: T -> K, id: K)
    ensures RemoveWhere(RemoveWhere(s, key, id), key, id) == RemoveWhere(s, key, id)
  {
    var r := RemoveWhere(s, key, id);
    forall i | 0 <= i < |r| ensures key(r[i]) != id {
      assert r[i] in r;
    }
    RemoveWhereAbsent(r, key, id);
  }

  /** Removing from a list with one entry put in front removes from the rest, and drops the front entry when its key matches. */
  lemma RemoveWhereCons<T, K>(x: T, s: seq<T>, key: T -> K, id: K)
    ensures RemoveWhere([x] + s, key, id) == (if key(x) == id then [] else [x]) + RemoveWhere(s, key, id)
  {
    assert ([x] + s)[1..] == s;
  }

  /** Removing from a list with one entry appended removes from the list and drops the entry when its key matches. */
  lemma {:induction false} RemoveWhereAppendOne<T, K>(s: seq<T>, x: T, key: T -> K, id: K)
    ensures RemoveWhere(s + [x], key, id) == RemoveWhere(s, key, id) + (if key(x) == id then [] else [x])
  {
    if s == [] {
      assert s + [x] == [x];
    } else {
      assert (s + [x])[1..] == s[1..] + [x];
      RemoveWhereAppendOne(s[1..], x, key, id);
    }
  }

  /** Removal keeps a duplicate-free list duplicate-free. */
  lemma {:induction false} RemoveWhereNoDup<T, K>(s: seq<T>, key: T -> K, id: K)
    requires NoDup(s)
    ensures NoDup(RemoveWhere(s, key, id))
  {
    if s != [] {
      RemoveWhereNoDup(s[1..], key, id);
      NoDupCons(s[0], RemoveWhere(s[1..], key, id));
    }
  }

  /** Putting a fresh element in front of a duplicate-free list keeps it duplicate-free. */
  lemma NoDupCons<T>(x: T, s: seq<T>)
    requires NoDup(s) && x !in s
    ensures NoDup([x] + s)
  {
    forall i, j | 0 <= i < j < |[x] + s| ensures ([x] + s)[i] != ([x] + s)[j] {
      if i == 0 {
        assert ([x] + s)[j] == s[j - 1];
      }
    }
  }

  // ---------------------------------------------------------------------------
  // map that replaces the entries with a given key

  /** `s` with every entry whose key is `id` replaced by `x`. */
  function ReplaceWhere<T, K(==)>(s: seq<T>, key: T -> K, id: K, x: T): (r: seq<T>)
    ensures |r| == |s|
  {
    if s == [] then []
    else [if key(s[0]) == id then x else s[0]] + ReplaceWhere(s[1..], key, id, x)
  }

  /** Entry by entry: the matching ones become `x`, all others stay in place. */
  lemma {:induction false} ReplaceWhereAt<T, K>(s: seq<T>, key: T -> K, id: K, x: T)
    ensures forall i :: 0 <= i < |s| ==>
      ReplaceWhere(s, key, id, x)[i] == if key(s[i]) == id then x else s[i]
  {
    if s != [] {
      ReplaceWhereAt(s[1..], key, id, x);
    }
  }

  /** Replacing twice by the same entry, when that entry keeps the key, is replacing once. */
  lemma ReplaceWhereIdempotent<T, K>(s: seq<T>, key: T -> K, id: K, x: T)
    requires key(x) == id
    ensures ReplaceWhere(ReplaceWhere(s, key, id, x), key, id, x) == ReplaceWhere(s, key, id, x)
  {
    ReplaceWhereAt(s, key, id, x);
    ReplaceWhereAt(ReplaceWhere(s, key, id, x), key, id, x);
  }

  /** Removing by key after replacing under that key (by an entry that keeps it) is removing alone. */
  lemma {:induction false} RemoveAfterReplace<T, K>(s: seq<T>, key: T -> K, id: K, x: T)
    requires key(x) == id
    ensures RemoveWhere(ReplaceWhere(s, key, id, x), key, id) == RemoveWhere(s, key, id)
  {
    if s != [] {
      RemoveAfterReplace(s[1..], key, id, x);
      var h := if key(s[0]) == id then x else s[0];
      RemoveWhereCons(h, ReplaceWhere(s[1..], key, id, x), key, id);
    }
  }

  // ---------------------------------------------------------------------------
  // Array.from(new Set(xs))

  /** The distinct elements of `s`, each at the position of its first occurrence. */
  function Dedupe<T(==)>(s: seq<T>): (r: seq<T>)
  {
    DedupeInto([], s)
  }

  /** Inserts the elements of `rest` in order into the insertion-ordered set `seen`. */
  function DedupeInto<T(==)>(seen: seq<T>, rest: seq<T>): (r: seq<T>)
    decreases |rest|
  {
    if rest == [] then seen
    else if rest[0] in seen then DedupeInto(seen, rest[1..])
    else DedupeInto(seen + [rest[0]], rest[1..])
  }

  lemma {:induction false} DedupeIntoSpec<T>(seen: seq<T>, rest: seq<T>)
    requires NoDup(seen)
    ensures |seen| <= |DedupeInto(seen, rest)| && DedupeInto(seen, rest)[..|seen|] == seen
    ensures NoDup(DedupeInto(seen, rest))
    ensures forall x :: x in DedupeInto(seen, rest) <==> x in seen || x in rest
    ensures IsSubsequence(DedupeInto(seen, rest)[|seen|..], rest)
    decreases |rest|
  {
    if rest != [] {
      var x := rest[0];
      var r := DedupeInto(seen, rest);
      assert rest == [x] + rest[1..];
      if x in seen {
        DedupeIntoSpec(seen, rest[1..]);
        SubsequenceDropHead(r[|seen|..], rest);
      } else {
        var seen' := seen + [x];
        DedupeIntoSpec(seen', rest[1..]);
        assert r[..|seen'|] == seen';
        assert r[..|seen|] == seen' [..|seen|] == seen;
        var tail := r[|seen|..];
        assert tail[0] == x;
        assert tail[1..] == r[|seen'|..];
      }
    }
  }

  /**
   * The elements of `r` appear in `s` in the order of their first
   * occurrences: every element before `r[j]` in `r` already occurs in `s`
   * before any occurrence of `r[j]`.
   */
  predicate InFirstOccurrenceOrder<T(==)>(r: seq<T>, s: seq<T>) {
    forall i, j, k :: 0 <= i < j < |r| && 0 <= k < |s| && s[k] == r[j] ==> r[i] in s[..k]
  }

  /**
   * The elements of `r` after its first `n` come in the order of their first
   * occurrence in `rest`: everything before such an element is in `seen` or
   * occurs in `rest` before it.
   */
  predicate OrderedAfter<T(==)>(r: seq<T>, n: int, seen: seq<T>, rest: seq<T>) {
    forall i, j, k :: 0 <= i < j < |r| && n <= j && 0 <= k < |rest| && rest[k] == r[j] ==> r[i] in seen + rest[..k]
  }

  /** Appending an element that is not there keeps a list duplicate-free. */
  lemma AppendFreshNoDup<T>(s: seq<T>, x: T)
    requires NoDup(s) && x !in s
    ensures NoDup(s + [x])
  {
    forall i, j | 0 <= i < j < |s + [x]| ensures (s + [x])[i] != (s + [x])[j] {
      if j == |s| {
        assert (s + [x])[i] == s[i];
      }
    }
  }

  /** An element of a duplicate-free list past the prefix `seen` is not in `seen`. */
  lemma PastPrefixNotIn<T>(r: seq<T>, seen: seq<T>, j: int)
    requires NoDup(r) && |seen| <= j < |r| && r[..|seen|] == seen
    ensures r[j] !in seen
  {
    forall m | 0 <= m < |seen| ensures seen[m] != r[j] {
      assert seen[m] == r[m];
    }
  }

  lemma {:induction false} DedupeIntoOrder<T>(seen: seq<T>, rest: seq<T>)
    requires NoDup(seen)
    ensures OrderedAfter(DedupeInto(seen, rest), |seen|, seen, rest)
    decreases |rest|
  {
    if rest != [] {
      if rest[0] in seen {
        DedupeIntoOrder(seen, rest[1..]);
        DedupeIntoOrderSkip(seen, rest);
      } else {
        AppendFreshNoDup(seen, rest[0]);
        DedupeIntoOrder(seen + [rest[0]], rest[1..]);
        DedupeIntoOrderTake(seen, rest);
      }
    }
  }

  /** The step of DedupeIntoOrder that skips an element already in `seen`. */
  lemma DedupeIntoOrderSkip<T>(seen: seq<T>, rest: seq<T>)
    requires NoDup(seen) && rest != [] && rest[0] in seen
    requires OrderedAfter(DedupeInto(seen, rest[1..]), |seen|, seen, rest[1..])
    ensures OrderedAfter(DedupeInto(seen, rest), |seen|, seen, rest)
  {
    var r := DedupeInto(seen, rest);
    DedupeIntoSpec(seen, rest[1..]);
    forall i, j, k | 0 <= i < j < |r| && |seen| <= j && 0 <= k < |rest| && rest[k] == r[j]
      ensures r[i] in seen + rest[..k]
    {
      PastPrefixNotIn(r, seen, j);
      assert rest[1..][k - 1] == r[j];
      assert rest[..k] == [rest[0]] + rest[1..][..k - 1];
    }
  }

  /** The step of DedupeIntoOrder that adds a new element to `seen`. */
  lemma DedupeIntoOrderTake<T>(seen: seq<T>, rest: seq<T>)
    requires NoDup(seen) && rest != [] && rest[0] !in seen
    requires OrderedAfter(DedupeInto(seen + [rest[0]], rest[1..]), |seen| + 1, seen + [rest[0]], rest[1..])
    ensures OrderedAfter(DedupeInto(seen, rest), |seen|, seen, rest)
  {
    var r := DedupeInto(seen, rest);
    AppendFreshNoDup(seen, rest[0]);
    DedupeIntoSpec(seen + [rest[0]], rest[1..]);
    forall i, j, k | 0 <= i < j < |r| && |seen| <= j && 0 <= k < |rest| && rest[k] == r[j]
      ensures r[i] in seen + rest[..k]
    {
      if j == |seen| {
        TakeFirstOrdered(seen, rest, r, i);
      } else {
        TakeLaterOrdered(seen, rest, r, i, j, k);
      }
    }
  }

  /** Before the newly taken element come only elements of `seen`. */
  lemma TakeFirstOrdered<T>(seen: seq<T>, rest: seq<T>, r: seq<T>, i: int)
    requires rest != [] && |seen| < |r| && r[..|seen| + 1] == seen + [rest[0]] && 0 <= i < |seen|
    ensures r[i] in seen
  {
    assert r[i] == r[..|seen| + 1][i] == seen[i];
  }

  /** A later element is placed by the recursive call, relative to `rest[1..]`. */
  lemma TakeLaterOrdered<T>(seen: seq<T>, rest: seq<T>, r: seq<T>, i: int, j: int, k: int)
    requires rest != [] && NoDup(r) && |seen| + 1 <= j < |r| && r[..|seen| + 1] == seen + [rest[0]]
    requires OrderedAfter(r, |seen| + 1, seen + [rest[0]], rest[1..])
    requires 0 <= i < j && 0 <= k < |rest| && rest[k] == r[j]
    ensures r[i] in seen + rest[..k]
  {
    PastPrefixNotIn(r, seen + [rest[0]], j);
    assert k != 0;
    assert rest[1..][k - 1] == r[j];
    assert seen + rest[..k] == (seen + [rest[0]]) + rest[1..][..k - 1];
  }


  /** A subsequence of the tail is a subsequence of the whole. */
  lemma {:induction false} SubsequenceDropHead<T>(a: seq<T>, b: seq<T>)
    requires b != [] && IsSubsequence(a, b[1..])
    ensures IsSubsequence(a, b)
    decreases |b|, 0
  {
    if a != [] && a[0] == b[0] {
      SubsequenceTail(a, b[1..]);
    }
  }

  /** Dropping the head of `a` keeps it a subsequence. */
  lemma {:induction false} SubsequenceTail<T>(a: seq<T>, b: seq<T>)
    requires a != [] && IsSubsequence(a, b)
    ensures IsSubsequence(a[1..], b)
    decreases |b|, 1
  {
    assert b != [];
    if a[0] == b[0] {
      if a[1..] != [] {
        SubsequenceDropHead(a[1..], b);
      }
    } else {
      SubsequenceTail(a, b[1..]);
      if a[1..] != [] {
        SubsequenceDropHead(a[1..], b);
      }
    }
  }

  /**
   * `Array.from(new Set(s))`: duplicate-free, holds exactly the elements of `s`,
   * and keeps them in the order in which they first occur.
   */
  lemma DedupeSpec<T>(s: seq<T>)
    ensures NoDup(Dedupe(s))
    ensures forall x :: x in Dedupe(s) <==> x in s
    ensures IsSubsequence(Dedupe(s), s)
    ensures InFirstOccurrenceOrder(Dedupe(s), s)
  {
    DedupeIntoSpec([], s);
    assert Dedupe(s)[0..] == Dedupe(s);
    DedupeIntoOrder([], s);
    forall k | 0 <= k <= |s| ensures [] + s[..k] == s[..k] { }
  }
}
