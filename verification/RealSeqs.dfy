/** Sums, counts and sorting of sequences of reals, shared by the candle-service models. */
module RealSeqs {

  function Sum(s: seq<real>): real {
    if s == [] then 0.0 else s[0] + Sum(s[1..])
  }

  lemma {:induction false} SumSnoc(s: seq<real>, x: real)
    ensures Sum(s + [x]) == Sum(s) + x
  {
    if s != [] {
      assert (s + [x])[1..] == s[1..] + [x];
      SumSnoc(s[1..], x);
    } else {
      assert (s + [x])[1..] == [];
    }
  }

  ghost predicate NonNegative(s: seq<real>) {
    forall i :: 0 <= i < |s| ==> s[i] >= 0.0
  }

  lemma {:induction false} SumNonNegative(s: seq<real>)
    requires NonNegative(s)
    ensures Sum(s) >= 0.0
  {
    if s != [] {
      assert forall i :: 0 <= i < |s[1..]| ==> s[1..][i] == s[i + 1];
      SumNonNegative(s[1..]);
    }
  }

  ghost predicate Sorted(s: seq<real>) {
    forall i, j :: 0 <= i < j < |s| ==> s[i] <= s[j]
  }

  function Insert(x: real, s: seq<real>): seq<real> {
    if s == [] || x <= s[0] then [x] + s else [s[0]] + Insert(x, s[1..])
  }

  /** The ascending rearrangement of s; stands for the library sort. */
  function Sort(s: seq<real>): seq<real> {
    if s == [] then [] else Insert(s[0], Sort(s[1..]))
  }

  lemma {:induction false} InsertIsPermutation(x: real, s: seq<real>)
    ensures multiset(Insert(x, s)) == multiset(s) + multiset{x}
  {
    if !(s == [] || x <= s[0]) {
      InsertIsPermutation(x, s[1..]);
      assert s == [s[0]] + s[1..];
    }
  }

  lemma {:induction false} InsertCons(x: real, s: seq<real>)
    requires s != [] && x > s[0]
    ensures Insert(x, s) == [s[0]] + Insert(x, s[1..])
  {}

  lemma {:induction false} InsertAtLeast(x: real, s: seq<real>, low: real)
    requires low <= x && forall i :: 0 <= i < |s| ==> low <= s[i]
    ensures forall i :: 0 <= i < |Insert(x, s)| ==> low <= Insert(x, s)[i]
  {
    if s != [] && x > s[0] {
      InsertCons(x, s);
      InsertAtLeast(x, s[1..], low);
    }
  }

  lemma {:induction false} InsertIsSorted(x: real, s: seq<real>)
    requires Sorted(s)
    ensures Sorted(Insert(x, s))
  {
    if s != [] && x > s[0] {
      InsertCons(x, s);
      InsertIsSorted(x, s[1..]);
      InsertAtLeast(x, s[1..], s[0]);
    }
  }

  lemma {:induction false} SortSorts(s: seq<real>)
    ensures Sorted(Sort(s)) && multiset(Sort(s)) == multiset(s) && |Sort(s)| == |s|
  {
    if s != [] {
      SortSorts(s[1..]);
      InsertIsSorted(s[0], Sort(s[1..]));
      InsertIsPermutation(s[0], Sort(s[1..]));
      assert s == [s[0]] + s[1..];
      assert |multiset(Sort(s))| == |multiset(s)|;
    }
  }

  /** How many entries lie at or below (strictly: below) r. */
  function Below(s: seq<real>, r: real, strict: bool): nat {
    if s == [] then 0
    else (if s[0] < r || (!strict && s[0] == r) then 1 else 0) + Below(s[1..], r, strict)
  }

  lemma {:induction false} BelowInsert(x: real, s: seq<real>, r: real, strict: bool)
    ensures Below(Insert(x, s), r, strict) == Below([x], r, strict) + Below(s, r, strict)
  {
    if s == [] || x <= s[0] {
      assert ([x] + s)[1..] == s;
    } else {
      assert ([s[0]] + Insert(x, s[1..]))[1..] == Insert(x, s[1..]);
      BelowInsert(x, s[1..], r, strict);
    }
  }

  lemma {:induction false} BelowSort(s: seq<real>, r: real, strict: bool)
    ensures Below(Sort(s), r, strict) == Below(s, r, strict)
  {
    if s != [] {
      BelowSort(s[1..], r, strict);
      BelowInsert(s[0], Sort(s[1..]), r, strict);
    }
  }

  lemma {:induction false} BelowAtMost(s: seq<real>, r: real, strict: bool)
    ensures Below(s, r, strict) <= |s|
    ensures (forall i :: 0 <= i < |s| ==> r <= s[i]) && strict ==> Below(s, r, strict) == 0
  {
    if s != [] {
      assert forall i :: 0 <= i < |s[1..]| ==> s[1..][i] == s[i + 1];
      BelowAtMost(s[1..], r, strict);
    }
  }

  /** In sorted order, at least k + 1 entries are at or below entry k and at most k strictly below it. */
  lemma {:induction false} SortedRanks(s: seq<real>, k: nat)
    requires k < |s| && Sorted(s)
    ensures Below(s, s[k], false) >= k + 1 && Below(s, s[k], true) <= k
  {
    if k == 0 {
      BelowAtMost(s, s[0], true);
    } else {
      SortedRanks(s[1..], k - 1);
    }
  }

  lemma {:induction false} BelowMonotone(s: seq<real>, a: real, b: real)
    requires a < b
    ensures Below(s, a, false) <= Below(s, b, true)
  {
    if s != [] {
      BelowMonotone(s[1..], a, b);
    }
  }
}
