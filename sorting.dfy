/** sort_playlist (kolmogorov.py:240-260): a case-insensitive sort of a
    primary list, a secondary list reordered through a dictionary keyed by
    primary value, and one index tracked through the sort. */
module Sorting {
  import opened Common
  import opened Text

  /** Lexicographic order on character codes, as Python 2 compares strings. */
  predicate LexLe(a: string, b: string)
    decreases |a|
  {
    if a == [] then true
    else if b == [] then false
    else if a[0] < b[0] then true
    else if a[0] > b[0] then false
    else LexLe(a[1..], b[1..])
  }

  /** The comparison the sort uses: cmp(a.lower(), b.lower()) <= 0. */
  predicate LeCI(a: string, b: string) {
    LexLe(Lower(a), Lower(b))
  }

  lemma {:induction false} LexLeTotal(a: string, b: string)
    ensures LexLe(a, b) || LexLe(b, a)
    decreases |a|
  {
    if a != [] && b != [] && a[0] == b[0] {
      LexLeTotal(a[1..], b[1..]);
    }
  }

  lemma {:induction false} LexLeTransitive(a: string, b: string, c: string)
    requires LexLe(a, b) && LexLe(b, c)
    ensures LexLe(a, c)
    decreases |a|
  {
    if a != [] && b != [] && c != [] && a[0] == b[0] == c[0] {
      LexLeTransitive(a[1..], b[1..], c[1..]);
    }
  }

  lemma LeCITotal(a: string, b: string)
    ensures LeCI(a, b) || LeCI(b, a)
  {
    LexLeTotal(Lower(a), Lower(b));
  }

  lemma LeCITransitive(a: string, b: string, c: string)
    requires LeCI(a, b) && LeCI(b, c)
    ensures LeCI(a, c)
  {
    LexLeTransitive(Lower(a), Lower(b), Lower(c));
  }

  /** Non-decreasing under the case-insensitive comparison. */
  predicate SortedCI(s: seq<string>) {
    forall i, j :: 0 <= i < j < |s| ==> LeCI(s[i], s[j])
  }

  /** Inserts x after every element that does not compare greater than it,
      which keeps equal elements in their original order. */
  function Insert(x: string, s: seq<string>): (r: seq<string>)
    ensures multiset(r) == multiset(s) + multiset{x}
    decreases |s|
  {
    if s == [] then [x]
    else if !LeCI(s[0], x) then [x] + s
    else
      assert s == [s[0]] + s[1..];
      [s[0]] + Insert(x, s[1..])
  }

  lemma {:induction false} InsertSorted(x: string, s: seq<string>)
    requires SortedCI(s)
    ensures SortedCI(Insert(x, s))
    decreases |s|
  {
    if s == [] {
    } else if !LeCI(s[0], x) {
      LeCITotal(s[0], x);
      forall j | 0 <= j < |s|
        ensures LeCI(x, s[j])
      {
        if j > 0 { LeCITransitive(x, s[0], s[j]); }
      }
    } else {
      var t := Insert(x, s[1..]);
      InsertSorted(x, s[1..]);
      assert s == [s[0]] + s[1..];
      forall j | 0 <= j < |t|
        ensures LeCI(s[0], t[j])
      {
        assert t[j] in multiset(t);
        if t[j] != x {
          assert t[j] in multiset(s[1..]);
          var k :| 0 <= k < |s[1..]| && s[1..][k] == t[j];
          assert s[k + 1] == t[j];
        }
      }
      assert Insert(x, s) == [s[0]] + t;
    }
  }

  /** The model of primary_list.sort(cmp=...): a stable insertion sort. */
  function SortCI(s: seq<string>): (r: seq<string>)
    ensures multiset(r) == multiset(s)
    decreases |s|
  {
    if s == [] then []
    else
      assert s == s[..|s| - 1] + [s[|s| - 1]];
      Insert(s[|s| - 1], SortCI(s[..|s| - 1]))
  }

  /** The sort's result is non-decreasing by case-insensitive comparison. */
  lemma {:induction false} SortCISorted(s: seq<string>)
    ensures SortedCI(SortCI(s))
    decreases |s|
  {
    if s != [] {
      SortCISorted(s[..|s| - 1]);
      InsertSorted(s[|s| - 1], SortCI(s[..|s| - 1]));
    }
  }

  /** Index of the last occurrence of v: the entry of the dictionary built
      at kolmogorov.py:249-250 that survives. */
  function LastIndex(s: seq<string>, v: string): (k: nat)
    requires v in s
    ensures k < |s| && s[k] == v
    ensures forall j :: k < j < |s| ==> s[j] != v
    decreases |s|
  {
    if s[|s| - 1] == v then |s| - 1 else LastIndex(s[..|s| - 1], v)
  }

  lemma LastIndexOfDistinct(s: seq<string>, j: nat)
    requires Distinct(s) && j < |s|
    ensures LastIndex(s, s[j]) == j
  {
  }

  /** The sorted list is as long as its input and holds only its elements. */
  lemma SortMembers(s: seq<string>)
    ensures |SortCI(s)| == |s|
    ensures forall i :: 0 <= i < |SortCI(s)| ==> SortCI(s)[i] in s
  {
    var r := SortCI(s);
    assert |r| == |multiset(r)| == |multiset(s)| == |s|;
    forall i | 0 <= i < |r| ensures r[i] in s {
      assert r[i] in multiset(r);
    }
  }

  /** Every element of the input is in the sorted list. */
  lemma SortContains(s: seq<string>, j: nat)
    requires j < |s|
    ensures s[j] in SortCI(s)
  {
    assert s[j] in multiset(s);
  }

  /** Where sort_playlist moves an index: to the first occurrence, in the
      sorted list, of the value it pointed to; None stays None. */
  function Tracked(before: seq<string>, after: seq<string>, index: Option<nat>): (r: Option<nat>)
    requires index.Some? ==> index.value < |before| && before[index.value] in after
    ensures r.Some? <==> index.Some?
    ensures r.Some? ==> r.value < |after| && after[r.value] == before[index.value]
    ensures r.Some? ==> forall k :: 0 <= k < r.value ==> after[k] != before[index.value]
  {
    match index
    case None => None
    case Some(k) => Some(IndexOf(after, before[k]))
  }

  /** The dictionary of kolmogorov.py:248-250: each primary value mapped
      to the secondary entry of its last occurrence. */
  method BuildIndex<T>(primary: seq<string>, sec: seq<T>) returns (dict: map<string, T>)
    requires |primary| <= |sec|
    ensures forall v :: v in dict <==> v in primary
    ensures forall v :: v in dict ==> dict[v] == sec[LastIndex(primary, v)]
  {
    dict := map[];
    for i := 0 to |primary|
      invariant forall v :: v in dict <==> v in primary[..i]
      invariant forall v :: v in dict ==> dict[v] == sec[LastIndex(primary[..i], v)]
    {
      assert primary[..i + 1][..i] == primary[..i];
      dict := dict[primary[i] := sec[i]];
    }
    assert primary[..|primary|] == primary;
  }

  /** The list of kolmogorov.py:252-254: the dictionary's entry for each
      key, in order. */
  method LookUpAll<T>(keys: seq<string>, dict: map<string, T>) returns (r: seq<T>)
    requires forall i :: 0 <= i < |keys| ==> keys[i] in dict
    ensures |r| == |keys|
    ensures forall i :: 0 <= i < |keys| ==> r[i] == dict[keys[i]]
  {
    r := [];
    for i := 0 to |keys|
      invariant |r| == i
      invariant forall k :: 0 <= k < i ==> r[k] == dict[keys[k]]
    {
      r := r + [dict[keys[i]]];
    }
  }

  /** With distinct primary values, every original pair (primary[j], sec[j])
      is found together after the sort. */
  lemma PairsKept<T>(primary: seq<string>, sec: seq<T>, sortedPrimary: seq<string>, sortedSec: seq<T>)
    requires |primary| <= |sec| && Distinct(primary)
    requires |sortedSec| == |sortedPrimary|
    requires forall i :: 0 <= i < |sortedPrimary| ==> sortedPrimary[i] in primary
    requires forall i :: 0 <= i < |sortedPrimary| ==> sortedSec[i] == sec[LastIndex(primary, sortedPrimary[i])]
    ensures forall i, j :: 0 <= i < |sortedPrimary| && 0 <= j < |primary| && sortedPrimary[i] == primary[j] ==>
      sortedSec[i] == sec[j]
  {
    forall i, j | 0 <= i < |sortedPrimary| && 0 <= j < |primary| && sortedPrimary[i] == primary[j]
      ensures sortedSec[i] == sec[j]
    {
      LastIndexOfDistinct(primary, j);
    }
  }

  /** sort_playlist (kolmogorov.py:240-260). primary and sec have the same
      length in every call of the program; a shorter sec makes the source
      raise IndexError. */
  method SortPlaylist<T>(primary: seq<string>, sec: seq<T>, aindex: Option<nat>)
      returns (sortedPrimary: seq<string>, sortedSec: seq<T>, index: Option<nat>)
    requires |primary| <= |sec|
    requires aindex.Some? ==> aindex.value < |primary|
    ensures sortedPrimary == SortCI(primary)
    ensures multiset(sortedPrimary) == multiset(primary) && SortedCI(sortedPrimary)
    ensures |sortedPrimary| == |primary|
    ensures forall i :: 0 <= i < |primary| ==> sortedPrimary[i] in primary
    ensures |sortedSec| == |primary|
    ensures forall i :: 0 <= i < |primary| ==> sortedSec[i] == sec[LastIndex(primary, sortedPrimary[i])]
    ensures Distinct(primary) ==>
      forall i, j :: 0 <= i < |primary| && 0 <= j < |primary| && sortedPrimary[i] == primary[j] ==> sortedSec[i] == sec[j]
    ensures aindex.Some? ==> primary[aindex.value] in sortedPrimary
    ensures index == Tracked(primary, sortedPrimary, aindex)
  {
    var avalue: string := "";
    if aindex.Some? {
      avalue := primary[aindex.value];
    }
    var dict := BuildIndex(primary, sec);
    sortedPrimary := SortCI(primary);
    SortCISorted(primary);
    SortMembers(primary);
    sortedSec := LookUpAll(sortedPrimary, dict);
    if Distinct(primary) {
      PairsKept(primary, sec, sortedPrimary, sortedSec);
    }
    if aindex.Some? {
      SortContains(primary, aindex.value);
      index := Some(IndexOf(sortedPrimary, avalue));
    } else {
      index := None;
    }
  }
}
