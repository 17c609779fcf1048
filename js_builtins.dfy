/**
 * The JavaScript built-ins the lab's logic leans on, stated as Dafny functions:
 * the default `Array.prototype.sort` on strings, `String.prototype.toLowerCase`
 * (as an ASCII fold), `String.prototype.includes`, `filter` by position, and the
 * insertion-ordered de-duplication of `new Set(...)`.
 */
module JsBuiltins {

  // ---------------------------------------------------------------------------
  // The default sort order: strings compared character by character by code,
  // a proper prefix sorting first.
  // ---------------------------------------------------------------------------

  predicate StrLe(a: string, b: string)
  {
    if |a| == 0 then true
    else if |b| == 0 then false
    else if a[0] != b[0] then a[0] < b[0]
    else StrLe(a[1..], b[1..])
  }

  lemma StrLeTotal(a: string, b: string)
    ensures StrLe(a, b) || StrLe(b, a)
  {
    if |a| > 0 && |b| > 0 && a[0] == b[0] {
      StrLeTotal(a[1..], b[1..]);
    }
  }

  lemma StrLeAntisymmetric(a: string, b: string)
    requires StrLe(a, b) && StrLe(b, a)
    ensures a == b
  {
    if |a| > 0 && |b| > 0 {
      StrLeAntisymmetric(a[1..], b[1..]);
      assert a == [a[0]] + a[1..] && b == [b[0]] + b[1..];
    }
  }

  lemma StrLeTransitive(a: string, b: string, c: string)
    requires StrLe(a, b) && StrLe(b, c)
    ensures StrLe(a, c)
  {
    if |a| > 0 && |b| > 0 && |c| > 0 && a[0] == b[0] && b[0] == c[0] {
      StrLeTransitive(a[1..], b[1..], c[1..]);
    }
  }

  predicate Sorted(s: seq<string>)
  {
    forall i, j :: 0 <= i < j < |s| ==> StrLe(s[i], s[j])
  }

  /** Inserts `x` in front of the first element it sorts no later than. */
  function Insert(x: string, s: seq<string>): (r: seq<string>)
    ensures multiset(r) == multiset(s) + multiset{x}
  {
    if s == [] then [x]
    else if StrLe(x, s[0]) then [x] + s
    else
      assert s == [s[0]] + s[1..];
      [s[0]] + Insert(x, s[1..])
  }

  /** A lower bound of `x` and of every element of `s` bounds every element of `Insert(x, s)`. */
  lemma InsertLowerBound(y: string, x: string, s: seq<string>)
    requires StrLe(y, x) && forall k :: 0 <= k < |s| ==> StrLe(y, s[k])
    ensures forall k :: 0 <= k < |Insert(x, s)| ==> StrLe(y, Insert(x, s)[k])
  {
    var r := Insert(x, s);
    forall k | 0 <= k < |r| ensures StrLe(y, r[k]) {
      assert r[k] in multiset(r);
      if r[k] != x {
        assert r[k] in multiset(s);
      }
    }
  }

  lemma {:induction false} InsertSorted(x: string, s: seq<string>)
    requires Sorted(s)
    ensures Sorted(Insert(x, s))
  {
    if s == [] {
    } else if StrLe(x, s[0]) {
      forall j | 0 < j < |[x] + s| ensures StrLe(x, ([x] + s)[j]) {
        if j > 1 { StrLeTransitive(x, s[0], s[j - 1]); }
      }
    } else {
      var tail := s[1..];
      var rest := Insert(x, tail);
      InsertSorted(x, tail);
      StrLeTotal(x, s[0]);
      assert forall k :: 0 <= k < |tail| ==> tail[k] == s[k + 1];
      InsertLowerBound(s[0], x, tail);
      var r := [s[0]] + rest;
      forall i, j | 0 <= i < j < |r| ensures StrLe(r[i], r[j]) {
        assert r[j] == rest[j - 1];
        if i > 0 {
          assert r[i] == rest[i - 1];
        }
      }
    }
  }

  /** `[...s].sort()`: the sorted permutation of `s`. */
  function Sort(s: seq<string>): (r: seq<string>)
    ensures multiset(r) == multiset(s)
    ensures Sorted(r)
  {
    if s == [] then []
    else
      assert s == [s[0]] + s[1..];
      var sortedTail := Sort(s[1..]);
      InsertSorted(s[0], sortedTail);
      Insert(s[0], sortedTail)
  }

  /** Two sorted sequences with the same elements start with the same element. */
  lemma SortedSameHead(a: seq<string>, b: seq<string>)
    requires Sorted(a) && Sorted(b) && multiset(a) == multiset(b) && a != []
    ensures b != [] && a[0] == b[0]
  {
    assert a[0] in multiset(b);
    assert b[0] in multiset(a);
    var i :| 0 <= i < |a| && a[i] == b[0];
    var j :| 0 <= j < |b| && b[j] == a[0];
    assert StrLe(a[0], b[0]) by { if i == 0 { StrLeTotal(a[0], a[0]); } }
    assert StrLe(b[0], a[0]) by { if j == 0 { StrLeTotal(b[0], b[0]); } }
    StrLeAntisymmetric(a[0], b[0]);
  }

  lemma MultisetOfTail<T>(s: seq<T>)
    requires s != []
    ensures multiset(s[1..]) == multiset(s) - multiset{s[0]}
  {
    assert s == [s[0]] + s[1..];
  }

  /** A sorted sequence is determined by its multiset of elements. */
  lemma {:induction false} SortedUnique(a: seq<string>, b: seq<string>)
    requires Sorted(a) && Sorted(b) && multiset(a) == multiset(b)
    ensures a == b
  {
    if a == [] {
      assert |multiset(b)| == 0;
    } else {
      SortedSameHead(a, b);
      MultisetOfTail(a);
      MultisetOfTail(b);
      SortedUnique(a[1..], b[1..]);
      assert a == [a[0]] + a[1..] && b == [b[0]] + b[1..];
    }
  }

  /** Sorting the same multiset of strings yields the same sequence. */
  lemma {:induction false} SortDependsOnlyOnMultiset(a: seq<string>, b: seq<string>)
    requires multiset(a) == multiset(b)
    ensures Sort(a) == Sort(b)
  {
    SortedUnique(Sort(a), Sort(b));
  }

  // ---------------------------------------------------------------------------
  // toLowerCase and includes
  // ---------------------------------------------------------------------------

  function LowerChar(ch: char): char
  {
    if 'A' <= ch <= 'Z' then (ch as int + 32) as char else ch
  }

  /** `s.toLowerCase()`, folding the ASCII capitals and leaving every other character alone. */
  function Lower(s: string): (r: string)
    ensures |r| == |s|
    ensures forall i :: 0 <= i < |s| ==> r[i] == LowerChar(s[i])
  {
    if s == [] then [] else [LowerChar(s[0])] + Lower(s[1..])
  }

  lemma {:induction false} LowerIdempotent(s: string)
    ensures Lower(Lower(s)) == Lower(s)
  {
    if s != [] {
      LowerIdempotent(s[1..]);
    }
  }

  /** `t` occurs in `s` starting at position `i`. */
  predicate OccursAt(s: string, t: string, i: nat)
  {
    i + |t| <= |s| && s[i..i + |t|] == t
  }

  /** `s.includes(t)`: `t` occurs in `s` as a contiguous run. */
  predicate Includes(s: string, t: string)
  {
    exists i: nat | i <= |s| :: OccursAt(s, t, i)
  }

  lemma IncludesEmpty(s: string)
    ensures Includes(s, "")
  {
    assert OccursAt(s, "", 0);
  }

  // ---------------------------------------------------------------------------
  // filter((_, i) => i !== index)
  // ---------------------------------------------------------------------------

  /** The elements of `s` whose position (counted from `offset`) differs from `index`. */
  function DropPositionFrom<T>(s: seq<T>, index: int, offset: int): seq<T>
    decreases |s|
  {
    if s == [] then []
    else (if offset == index then [] else [s[0]]) + DropPositionFrom(s[1..], index, offset + 1)
  }

  /** `s.filter((_, i) => i !== index)`. */
  function DropPosition<T>(s: seq<T>, index: int): seq<T>
  {
    DropPositionFrom(s, index, 0)
  }

  lemma {:induction false} DropPositionFromSlices<T>(s: seq<T>, index: int, offset: int)
    ensures offset <= index < offset + |s| ==>
      DropPositionFrom(s, index, offset) == s[..index - offset] + s[index - offset + 1..]
    ensures !(offset <= index < offset + |s|) ==> DropPositionFrom(s, index, offset) == s
    decreases |s|
  {
    if s != [] {
      DropPositionFromSlices(s[1..], index, offset + 1);
      assert s == [s[0]] + s[1..];
      if offset < index < offset + |s| {
        assert s[..index - offset] == [s[0]] + s[1..][..index - offset - 1];
        assert s[index - offset + 1..] == s[1..][index - offset..];
      }
    }
  }

  /** Removing by position removes exactly that position and keeps the rest in order;
      a position outside the sequence removes nothing. */
  lemma DropPositionRemovesExactlyOne<T>(s: seq<T>, index: int)
    ensures 0 <= index < |s| ==> DropPosition(s, index) == s[..index] + s[index + 1..]
    ensures 0 <= index < |s| ==> |DropPosition(s, index)| == |s| - 1
    ensures !(0 <= index < |s|) ==> DropPosition(s, index) == s
  {
    DropPositionFromSlices(s, index, 0);
  }

  // ---------------------------------------------------------------------------
  // [...new Set(s)]: the distinct elements of s in order of first appearance
  // ---------------------------------------------------------------------------

  /** Adds the elements of `s` one by one, skipping those already present, as a `Set` does. */
  function Dedup<T(==)>(s: seq<T>): (r: seq<T>)
  {
    if s == [] then []
    else
      var prefix := Dedup(s[..|s| - 1]);
      if s[|s| - 1] in s[..|s| - 1] then prefix else prefix + [s[|s| - 1]]
  }

  /** Position of the first occurrence of `x` in `s`. */
  function FirstIndex<T(==)>(s: seq<T>, x: T): (k: nat)
    requires x in s
    ensures k < |s| && s[k] == x && x !in s[..k]
  {
    if s[0] == x then 0 else 1 + FirstIndex(s[1..], x)
  }

  lemma FirstIndexExtend<T>(init: seq<T>, last: T, x: T)
    requires x in init
    ensures FirstIndex(init + [last], x) == FirstIndex(init, x)
  {
    var s := init + [last];
    var p := FirstIndex(init, x);
    assert s[p] == x && s[..p] == init[..p];
  }

  /** `Dedup` keeps exactly the elements of `s`. */
  lemma {:induction false} DedupMembers<T>(s: seq<T>)
    ensures forall x :: x in Dedup(s) <==> x in s
    ensures forall i :: 0 <= i < |Dedup(s)| ==> Dedup(s)[i] in s
  {
    if s != [] {
      DedupMembers(s[..|s| - 1]);
      assert s == s[..|s| - 1] + [s[|s| - 1]];
    }
  }

  /** `Dedup` keeps each element once. */
  lemma {:induction false} DedupDistinct<T>(s: seq<T>)
    ensures forall i, j :: 0 <= i < j < |Dedup(s)| ==> Dedup(s)[i] != Dedup(s)[j]
  {
    if s != [] {
      var init, last := s[..|s| - 1], s[|s| - 1];
      DedupDistinct(init);
      DedupMembers(init);
      var d := Dedup(s);
      if last !in init {
        forall i, j | 0 <= i < j < |d| ensures d[i] != d[j] {
          assert d[i] == Dedup(init)[i] && d[i] in Dedup(init);
          if j < |d| - 1 {
            assert d[j] == Dedup(init)[j];
          }
        }
      }
    }
  }

  /** `Dedup` lists the elements of `s` in order of their first appearance. */
  lemma {:induction false} DedupFirstAppearanceOrder<T>(s: seq<T>)
    ensures forall i, j :: 0 <= i < j < |Dedup(s)| ==>
      Dedup(s)[i] in s && Dedup(s)[j] in s && FirstIndex(s, Dedup(s)[i]) < FirstIndex(s, Dedup(s)[j])
  {
    if s != [] {
      var init, last := s[..|s| - 1], s[|s| - 1];
      DedupFirstAppearanceOrder(init);
      DedupMembers(init);
      DedupMembers(s);
      var d := Dedup(s);
      assert s == init + [last];
      forall i, j | 0 <= i < j < |d|
        ensures d[i] in s && d[j] in s && FirstIndex(s, d[i]) < FirstIndex(s, d[j])
      {
        assert d[i] == Dedup(init)[i];
        FirstIndexExtend(init, last, d[i]);
        if last !in init && j == |d| - 1 {
          assert d[j] == last;
          assert FirstIndex(s, last) == |s| - 1 by {
            assert last !in s[..|s| - 1];
          }
        } else {
          assert d[j] == Dedup(init)[j];
          FirstIndexExtend(init, last, d[j]);
        }
      }
      assert d == Dedup(s);
    } else {
      assert Dedup(s) == [];
    }
  }
}
