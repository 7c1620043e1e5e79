/**
 * The two list edits every holder of a trading-pair list performs: append a
 * pair only when it is absent, and `list.remove` (first occurrence only) when
 * it is present.
 */
module PairLists {

  predicate NoDuplicates<T(==)>(s: seq<T>) {
    forall i, j | 0 <= i < j < |s| :: s[i] != s[j]
  }

  /** `if x not in s: s.append(x)`. */
  function AppendIfAbsent<T(==)>(s: seq<T>, x: T): seq<T> {
    if x in s then s else s + [x]
  }

  /** `if x in s: s.remove(x)`: drops the first occurrence only. */
  function RemoveFirst<T(==)>(s: seq<T>, x: T): seq<T>
    decreases |s|
  {
    if s == [] then []
    else if s[0] == x then s[1..]
    else [s[0]] + RemoveFirst(s[1..], x)
  }

  /** Removal takes out exactly one `x` when there is one, and nothing else. */
  lemma {:induction false} RemoveFirstMultiset<T>(s: seq<T>, x: T)
    ensures multiset(RemoveFirst(s, x)) == multiset(s) - multiset{x}
    decreases |s|
  {
    if s != [] {
      assert s == [s[0]] + s[1..];
      if s[0] != x {
        RemoveFirstMultiset(s[1..], x);
      }
    }
  }

  /** The index of the first occurrence of `x`. */
  function FirstIndex<T(==)>(s: seq<T>, x: T): (i: nat)
    requires x in s
    ensures i < |s| && s[i] == x && x !in s[..i]
    decreases |s|
  {
    if s[0] == x then 0
    else
      var j := FirstIndex(s[1..], x);
      assert s[..j + 1] == [s[0]] + s[1..][..j];
      j + 1
  }

  /** Appending-if-absent keeps the old pairs in order, adds `x` once at the end, and keeps a list duplicate-free. */
  lemma AppendIfAbsentFacts<T>(s: seq<T>, x: T)
    ensures x in AppendIfAbsent(s, x)
    ensures forall y :: y in AppendIfAbsent(s, x) <==> y in s || y == x
    ensures x !in s ==> AppendIfAbsent(s, x) == s + [x]
    ensures NoDuplicates(s) ==> NoDuplicates(AppendIfAbsent(s, x))
  {
  }

  /** Removal is a splice at the first occurrence; an absent pair leaves the list unchanged. */
  lemma {:induction false} RemoveFirstIsSplice<T>(s: seq<T>, x: T)
    ensures x !in s ==> RemoveFirst(s, x) == s
    ensures x in s ==> RemoveFirst(s, x) == s[..FirstIndex(s, x)] + s[FirstIndex(s, x) + 1..]
    decreases |s|
  {
    if s != [] {
      RemoveFirstIsSplice(s[1..], x);
      if s[0] != x {
        if x in s {
          var j := FirstIndex(s[1..], x);
          assert s[1..][..j] == s[1..j + 1];
          assert s[..j + 1] == [s[0]] + s[1..j + 1];
        } else {
          assert [s[0]] + s[1..] == s;
        }
      }
    }
  }

  /** On a duplicate-free list removal takes `x` out entirely, keeps everything else, and stays duplicate-free. */
  lemma RemoveFirstNoDuplicates<T>(s: seq<T>, x: T)
    requires NoDuplicates(s)
    ensures x !in RemoveFirst(s, x)
    ensures forall y | y != x :: y in RemoveFirst(s, x) <==> y in s
    ensures NoDuplicates(RemoveFirst(s, x))
  {
    RemoveFirstIsSplice(s, x);
    if x in s {
      var i := FirstIndex(s, x);
      var r := s[..i] + s[i + 1..];
      assert forall k | 0 <= k < |r| :: r[k] == if k < i then s[k] else s[k + 1];
      forall y | y in s && y != x ensures y in r {
        var k :| 0 <= k < |s| && s[k] == y;
        assert k != i;
        if k < i { assert r[k] == y; } else { assert r[k - 1] == y; }
      }
    }
  }
}
