/** Point of control and 70% value area of a footprint (candle-service/internal/features/footprint.go). */
module ValueAreas {
  import opened Options
  import opened MapSums

  datatype Cell = Cell(buyVol: real, sellVol: real)
  datatype Level = Level(price: real, vol: real)
  datatype ValueArea = ValueArea(pocPrice: real, high: real, low: real, pocVolume: real)
  datatype Range = Range(lo: nat, hi: nat)

  function SumVol(ls: seq<Level>): real {
    if ls == [] then 0.0 else ls[0].vol + SumVol(ls[1..])
  }

  ghost predicate NonNegativeVolumes(ls: seq<Level>) {
    forall i :: 0 <= i < |ls| ==> ls[i].vol >= 0.0
  }

  lemma {:induction false} SumVolSnoc(ls: seq<Level>, l: Level)
    ensures SumVol(ls + [l]) == SumVol(ls) + l.vol
  {
    if ls == [] {
      assert ([l])[1..] == [];
    } else {
      assert (ls + [l])[1..] == ls[1..] + [l];
      SumVolSnoc(ls[1..], l);
    }
  }

  lemma {:induction false} SumVolNonNegative(ls: seq<Level>)
    requires NonNegativeVolumes(ls)
    ensures SumVol(ls) >= 0.0
  {
    if ls != [] {
      assert forall i :: 0 <= i < |ls[1..]| ==> ls[1..][i] == ls[i + 1];
      SumVolNonNegative(ls[1..]);
    }
  }

  // ---- Sorting by price ----

  function InsertLevel(l: Level, ls: seq<Level>): seq<Level> {
    if ls == [] || l.price <= ls[0].price then [l] + ls else [ls[0]] + InsertLevel(l, ls[1..])
  }

  /** Stands for the library sort by ascending price. */
  function SortLevels(ls: seq<Level>): seq<Level> {
    if ls == [] then [] else InsertLevel(ls[0], SortLevels(ls[1..]))
  }

  ghost predicate Ascending(ls: seq<Level>) {
    forall i, j :: 0 <= i < j < |ls| ==> ls[i].price <= ls[j].price
  }

  ghost predicate StrictlyAscending(ls: seq<Level>) {
    forall i, j :: 0 <= i < j < |ls| ==> ls[i].price < ls[j].price
  }

  ghost predicate DistinctPrices(ls: seq<Level>) {
    forall i, j :: 0 <= i < j < |ls| ==> ls[i].price != ls[j].price
  }

  lemma {:induction false} InsertLevelCons(l: Level, ls: seq<Level>)
    requires ls != [] && l.price > ls[0].price
    ensures var r := InsertLevel(l, ls); r == [ls[0]] + InsertLevel(l, ls[1..])
    ensures ls == [ls[0]] + ls[1..]
  {}

  lemma {:induction false} InsertLevelIsPermutation(l: Level, ls: seq<Level>)
    ensures multiset(InsertLevel(l, ls)) == multiset(ls) + multiset{l}
  {
    if ls != [] && l.price > ls[0].price {
      InsertLevelCons(l, ls);
      InsertLevelIsPermutation(l, ls[1..]);
    }
  }

  lemma {:induction false} InsertLevelAtLeast(l: Level, ls: seq<Level>, low: real)
    requires low <= l.price && forall i :: 0 <= i < |ls| ==> low <= ls[i].price
    ensures forall i :: 0 <= i < |InsertLevel(l, ls)| ==> low <= InsertLevel(l, ls)[i].price
  {
    if ls != [] && l.price > ls[0].price {
      InsertLevelCons(l, ls);
      InsertLevelAtLeast(l, ls[1..], low);
    }
  }

  lemma {:induction false} InsertLevelIsAscending(l: Level, ls: seq<Level>)
    requires Ascending(ls)
    ensures Ascending(InsertLevel(l, ls))
  {
    if ls != [] && l.price > ls[0].price {
      InsertLevelCons(l, ls);
      InsertLevelIsAscending(l, ls[1..]);
      InsertLevelAtLeast(l, ls[1..], ls[0].price);
    }
  }

  lemma {:induction false} SortLevelsProperties(ls: seq<Level>)
    ensures multiset(SortLevels(ls)) == multiset(ls) && |SortLevels(ls)| == |ls|
    ensures Ascending(SortLevels(ls))
  {
    if ls != [] {
      SortLevelsProperties(ls[1..]);
      InsertLevelIsPermutation(ls[0], SortLevels(ls[1..]));
      InsertLevelIsAscending(ls[0], SortLevels(ls[1..]));
      assert ls == [ls[0]] + ls[1..];
      assert |multiset(SortLevels(ls))| == |multiset(ls)|;
    }
  }

  lemma {:induction false} SumVolInsert(l: Level, ls: seq<Level>)
    ensures SumVol(InsertLevel(l, ls)) == l.vol + SumVol(ls)
  {
    if ls == [] || l.price <= ls[0].price {
      assert ([l] + ls)[1..] == ls;
    } else {
      assert ([ls[0]] + InsertLevel(l, ls[1..]))[1..] == InsertLevel(l, ls[1..]);
      SumVolInsert(l, ls[1..]);
    }
  }

  lemma {:induction false} SumVolSort(ls: seq<Level>)
    ensures SumVol(SortLevels(ls)) == SumVol(ls)
  {
    if ls != [] {
      SumVolSort(ls[1..]);
      SumVolInsert(ls[0], SortLevels(ls[1..]));
    }
  }

  lemma {:induction false} MultiplicityTwo(ls: seq<Level>, i: nat, j: nat)
    requires i < j < |ls| && ls[i] == ls[j]
    ensures multiset(ls)[ls[i]] >= 2
  {
    assert ls == ls[..j] + [ls[j]] + ls[j + 1..];
    assert ls[..j][i] in multiset(ls[..j]);
  }

  lemma {:induction false} DistinctMultiplicity(ls: seq<Level>)
    requires DistinctPrices(ls)
    ensures forall l :: l in multiset(ls) ==> multiset(ls)[l] == 1
  {
    if ls != [] {
      var n := |ls| - 1;
      assert ls == ls[..n] + [ls[n]];
      DistinctMultiplicity(ls[..n]);
      forall l | l in ls[..n] ensures l != ls[n] {
        var i :| 0 <= i < n && ls[..n][i] == l;
        assert ls[i] == l;
      }
    }
  }

  lemma {:induction false} SortIsStrict(ls: seq<Level>)
    requires DistinctPrices(ls)
    ensures StrictlyAscending(SortLevels(ls))
  {
    var s := SortLevels(ls);
    SortLevelsProperties(ls);
    DistinctMultiplicity(ls);
    forall i, j | 0 <= i < j < |s| ensures s[i].price < s[j].price {
      assert s[i] in multiset(s) && s[j] in multiset(s);
      if s[i] == s[j] {
        MultiplicityTwo(s, i, j);
      }
      var a :| 0 <= a < |ls| && ls[a] == s[i];
      var b :| 0 <= b < |ls| && ls[b] == s[j];
      assert a != b ==> ls[a].price != ls[b].price;
    }
  }

  lemma {:induction false} LastIsHighest(a: seq<Level>, l: Level)
    requires StrictlyAscending(a) && l in multiset(a)
    ensures l.price <= a[|a| - 1].price && (l.price == a[|a| - 1].price ==> l == a[|a| - 1])
  {
    var i :| 0 <= i < |a| && a[i] == l;
  }

  lemma {:induction false} DropLast(a: seq<Level>)
    requires a != []
    ensures multiset(a[..|a| - 1]) == multiset(a) - multiset{a[|a| - 1]}
    ensures StrictlyAscending(a) ==> StrictlyAscending(a[..|a| - 1])
  {
    assert a == a[..|a| - 1] + [a[|a| - 1]];
  }

  lemma {:induction false} SameLast(a: seq<Level>, b: seq<Level>)
    requires StrictlyAscending(a) && StrictlyAscending(b) && multiset(a) == multiset(b) && a != [] && b != []
    ensures a[|a| - 1] == b[|b| - 1]
  {
    var x, y := a[|a| - 1], b[|b| - 1];
    assert x in multiset(a) && y in multiset(b);
    hide StrictlyAscending;
    LastIsHighest(b, x);
    LastIsHighest(a, y);
  }

  lemma {:induction false} AppendLast(a: seq<Level>)
    requires a != []
    ensures a == a[..|a| - 1] + [a[|a| - 1]]
  {}

  lemma {:induction false} StrictSortIsUnique(a: seq<Level>, b: seq<Level>)
    requires StrictlyAscending(a) && StrictlyAscending(b) && multiset(a) == multiset(b)
    ensures a == b
    decreases |a|
  {
    assert |multiset(a)| == |a| && |multiset(b)| == |b|;
    if a != [] {
      var n := |a| - 1;
      hide StrictlyAscending;
      SameLast(a, b);
      DropLast(a);
      DropLast(b);
      StrictSortIsUnique(a[..n], b[..n]);
      AppendLast(a);
      AppendLast(b);
    }
  }

  // ---- The value area of a sorted profile ----

  /** Largest volume; among equal volumes, the highest price. */
  ghost predicate IsPoc(ls: seq<Level>, p: int) {
    && 0 <= p < |ls|
    && forall j :: 0 <= j < |ls| ==>
      ls[j].vol < ls[p].vol || (ls[j].vol == ls[p].vol && ls[j].price <= ls[p].price)
  }

  ghost predicate InRange(ls: seq<Level>, r: Range) {
    r.lo <= r.hi < |ls|
  }

  ghost function Covered(ls: seq<Level>, r: Range): real
    requires InRange(ls, r)
  {
    SumVol(ls[r.lo..r.hi + 1])
  }

  /** One expansion: take in the heavier neighbour, the upper one on a tie; stay put when there is none. */
  ghost function Grow(ls: seq<Level>, r: Range): (next: Range)
    requires InRange(ls, r)
    ensures InRange(ls, next) && next.lo <= r.lo && r.hi <= next.hi
  {
    if r.hi + 1 < |ls| && (r.lo == 0 || ls[r.hi + 1].vol >= ls[r.lo - 1].vol) then Range(r.lo, r.hi + 1)
    else if r.lo > 0 then Range(r.lo - 1, r.hi)
    else r
  }

  /** The range after n expansions from the point of control. */
  ghost function Expansion(ls: seq<Level>, p: nat, n: nat): (r: Range)
    requires p < |ls|
    ensures InRange(ls, r) && r.lo <= p <= r.hi
  {
    if n == 0 then Range(p, p) else Grow(ls, Expansion(ls, p, n - 1))
  }

  ghost predicate CoversMost(ls: seq<Level>, p: nat, n: nat)
    requires p < |ls|
  {
    Covered(ls, Expansion(ls, p, n)) >= SumVol(ls) * 0.70
  }

  /** 70% of the volume is covered, or there is nothing left to take in. */
  ghost predicate Stops(ls: seq<Level>, p: nat, n: nat)
    requires p < |ls|
  {
    CoversMost(ls, p, n) || Expansion(ls, p, n) == Range(0, |ls| - 1)
  }

  /** n is the least number of expansions after which the range stops growing. */
  ghost predicate LeastStop(ls: seq<Level>, p: nat, n: nat)
    requires p < |ls|
  {
    Stops(ls, p, n) && forall m: nat :: m < n ==> !Stops(ls, p, m)
  }

  /** The first range in expansion order that covers 70% of the volume, or everything. */
  ghost predicate IsValueRange(ls: seq<Level>, p: nat, r: Range) {
    p < |ls| && exists n: nat :: LeastStop(ls, p, n) && r == Expansion(ls, p, n)
  }

  /** With a non-negative total the range does cover 70%, and no earlier one did. */
  lemma {:induction false} ValueRangeCovers(ls: seq<Level>, p: nat, r: Range) returns (n: nat)
    requires SumVol(ls) >= 0.0 && IsValueRange(ls, p, r)
    ensures r == Expansion(ls, p, n) && Covered(ls, r) >= SumVol(ls) * 0.70
    ensures forall m: nat :: m < n ==> Covered(ls, Expansion(ls, p, m)) < SumVol(ls) * 0.70
  {
    n :| LeastStop(ls, p, n) && r == Expansion(ls, p, n);
    hide Expansion, SumVol;
    if r == Range(0, |ls| - 1) {
      assert ls[0..|ls|] == ls;
    }
    hide Covered;
    forall m: nat | m < n ensures Covered(ls, Expansion(ls, p, m)) < SumVol(ls) * 0.70 {
      assert !Stops(ls, p, m);
      assert !CoversMost(ls, p, m);
    }
  }

  ghost predicate IsValueArea(ls: seq<Level>, v: ValueArea) {
    exists p: nat, r: Range ::
      && IsPoc(ls, p) && IsValueRange(ls, p, r)
      && v == ValueArea(ls[p].price, ls[r.hi].price, ls[r.lo].price, ls[p].vol)
  }

  lemma {:induction false} ValueRangeIsUnique(ls: seq<Level>, p: nat, r: Range, s: Range)
    requires IsValueRange(ls, p, r) && IsValueRange(ls, p, s)
    ensures r == s
  {
    var n: nat :| LeastStop(ls, p, n) && r == Expansion(ls, p, n);
    var k: nat :| LeastStop(ls, p, k) && s == Expansion(ls, p, k);
    assert n >= k && k >= n;
  }

  lemma {:induction false} PocIsUnique(ls: seq<Level>, p: nat, q: nat)
    requires StrictlyAscending(ls) && IsPoc(ls, p) && IsPoc(ls, q)
    ensures p == q
  {
    assert ls[p].vol == ls[q].vol && ls[p].price == ls[q].price;
  }

  /** For distinct prices that determines all four numbers. */
  lemma {:induction false} ValueAreaIsUnique(ls: seq<Level>, v: ValueArea, w: ValueArea)
    requires StrictlyAscending(ls) && IsValueArea(ls, v) && IsValueArea(ls, w)
    ensures v == w
  {
    var p: nat, r: Range :| IsPoc(ls, p) && IsValueRange(ls, p, r)
      && v == ValueArea(ls[p].price, ls[r.hi].price, ls[r.lo].price, ls[p].vol);
    var q: nat, s: Range :| IsPoc(ls, q) && IsValueRange(ls, q, s)
      && w == ValueArea(ls[q].price, ls[s.hi].price, ls[s.lo].price, ls[q].vol);
    PocIsUnique(ls, p, q);
    ValueRangeIsUnique(ls, p, r, s);
  }

  lemma {:induction false} CoveredGrows(ls: seq<Level>, r: Range)
    requires InRange(ls, r)
    ensures var next := Grow(ls, r);
            Covered(ls, next) == Covered(ls, r) +
              (if next.hi > r.hi then ls[next.hi].vol else if next.lo < r.lo then ls[next.lo].vol else 0.0)
  {
    var next := Grow(ls, r);
    if next.hi > r.hi {
      assert ls[r.lo..r.hi + 2] == ls[r.lo..r.hi + 1] + [ls[r.hi + 1]];
      SumVolSnoc(ls[r.lo..r.hi + 1], ls[r.hi + 1]);
    } else if next.lo < r.lo {
      assert ls[next.lo..r.hi + 1][1..] == ls[r.lo..r.hi + 1];
    }
  }

  // ---- The levels of a footprint, in any order the map hands them out ----

  function LevelsOf(fp: map<string, Cell>, parse: string -> Option<real>, order: seq<string>): seq<Level>
    requires forall k :: k in order ==> k in fp
  {
    if order == [] then []
    else
      var k := order[|order| - 1];
      var rest := LevelsOf(fp, parse, order[..|order| - 1]);
      match parse(k)
      case None => rest
      case Some(p) => rest + [Level(p, fp[k].buyVol + fp[k].sellVol)]
  }

  ghost predicate Enumerates(order: seq<string>, keys: set<string>) {
    && (forall k :: k in order <==> k in keys)
    && forall i, j :: 0 <= i < j < |order| ==> order[i] != order[j]
  }

  lemma {:induction false} LevelsOfAppend(fp: map<string, Cell>, parse: string -> Option<real>, a: seq<string>, b: seq<string>)
    requires forall k :: k in a + b ==> k in fp
    ensures (forall k :: k in a || k in b ==> k in a + b)
    ensures LevelsOf(fp, parse, a + b) == LevelsOf(fp, parse, a) + LevelsOf(fp, parse, b)
    decreases |b|
  {
    assert forall k :: k in a || k in b ==> k in a + b;
    if b == [] {
      assert a + b == a;
    } else {
      var n := |b| - 1;
      assert (a + b)[..|a + b| - 1] == a + b[..n];
      assert forall k :: k in a + b[..n] ==> k in a + b;
      LevelsOfAppend(fp, parse, a, b[..n]);
    }
  }

  lemma {:induction false} EnumerationWithout(o: seq<string>, keys: set<string>, j: nat)
    requires Enumerates(o, keys) && j < |o|
    ensures Enumerates(o[..j] + o[j + 1..], keys - {o[j]})
  {
    var rest := o[..j] + o[j + 1..];
    forall k ensures k in rest <==> k in keys - {o[j]} {
      if k in keys - {o[j]} {
        var i :| 0 <= i < |o| && o[i] == k;
        assert rest[if i < j then i else i - 1] == k;
      }
    }
  }

  lemma {:induction false} LevelsWithout(fp: map<string, Cell>, parse: string -> Option<real>, o: seq<string>, j: nat)
    requires j < |o| && forall k :: k in o ==> k in fp
    ensures forall k :: k in o[..j] + o[j + 1..] ==> k in fp
    ensures multiset(LevelsOf(fp, parse, o)) ==
            multiset(LevelsOf(fp, parse, o[..j] + o[j + 1..])) + multiset(LevelsOf(fp, parse, [o[j]]))
  {
    var front, back := o[..j], o[j + 1..];
    assert o == (front + [o[j]]) + back;
    LevelsOfAppend(fp, parse, front + [o[j]], back);
    LevelsOfAppend(fp, parse, front, [o[j]]);
    assert forall k :: k in front + back ==> k in o;
    LevelsOfAppend(fp, parse, front, back);
  }

  lemma {:induction false} HasElement(o: seq<string>)
    requires o != []
    ensures exists k :: k in o
  {
    assert o[0] in o;
  }

  lemma {:induction false} SameLevelsInAnyOrder(fp: map<string, Cell>, parse: string -> Option<real>,
                                                a: seq<string>, b: seq<string>, keys: set<string>)
    requires Enumerates(a, keys) && Enumerates(b, keys) && keys <= fp.Keys
    ensures multiset(LevelsOf(fp, parse, a)) == multiset(LevelsOf(fp, parse, b))
    decreases |a|
  {
    if a == [] {
      if b != [] {
        HasElement(b);
      }
    } else {
      assert a[0] in keys;
      var j :| 0 <= j < |b| && b[j] == a[0];
      var a', b' := a[..0] + a[1..], b[..j] + b[j + 1..];
      EnumerationWithout(a, keys, 0);
      EnumerationWithout(b, keys, j);
      hide LevelsOf;
      LevelsWithout(fp, parse, a, 0);
      LevelsWithout(fp, parse, b, j);
      SameLevelsInAnyOrder(fp, parse, a', b', keys - {a[0]});
    }
  }

  /** With distinct numeric prices the sorted profile does not depend on the map's iteration order. */
  lemma {:induction false} ProfileIgnoresIterationOrder(fp: map<string, Cell>, parse: string -> Option<real>, a: seq<string>, b: seq<string>)
    requires Enumerates(a, fp.Keys) && Enumerates(b, fp.Keys)
    requires DistinctPrices(LevelsOf(fp, parse, a)) && DistinctPrices(LevelsOf(fp, parse, b))
    ensures SortLevels(LevelsOf(fp, parse, a)) == SortLevels(LevelsOf(fp, parse, b))
  {
    SameLevelsInAnyOrder(fp, parse, a, b, fp.Keys);
    SortLevelsProperties(LevelsOf(fp, parse, a));
    SortLevelsProperties(LevelsOf(fp, parse, b));
    SortIsStrict(LevelsOf(fp, parse, a));
    SortIsStrict(LevelsOf(fp, parse, b));
    StrictSortIsUnique(SortLevels(LevelsOf(fp, parse, a)), SortLevels(LevelsOf(fp, parse, b)));
  }

  // ---- The same, said of the cells themselves ----

  function CellVolume(): Cell -> real {
    (c: Cell) => c.buyVol + c.sellVol
  }

  /** The cells among `keys` whose price is a number that `keep` accepts. */
  ghost function CellsWhere(fp: map<string, Cell>, keys: set<string>, parse: string -> Option<real>, keep: real -> bool): map<string, Cell> {
    map k | k in fp && k in keys && parse(k).Some? && keep(parse(k).value) :: fp[k]
  }

  ghost function Everywhere(): real -> bool {
    (price: real) => true
  }

  ghost function Between(low: real, high: real): real -> bool {
    (price: real) => low <= price <= high
  }

  /** The volume bought and sold at the prices that `keep` accepts. */
  ghost function VolumeAt(fp: map<string, Cell>, parse: string -> Option<real>, keep: real -> bool): real {
    SumMap(CellsWhere(fp, fp.Keys, parse, keep), CellVolume())
  }

  /** The point of control: a cell, no other has more volume, and none of the same volume a higher price. */
  ghost predicate IsHeaviestCell(fp: map<string, Cell>, parse: string -> Option<real>, price: real, volume: real) {
    && (exists k :: k in fp && parse(k) == Some(price) && fp[k].buyVol + fp[k].sellVol == volume)
    && (forall k :: k in fp && parse(k).Some? ==>
      || fp[k].buyVol + fp[k].sellVol < volume
      || (fp[k].buyVol + fp[k].sellVol == volume && parse(k).value <= price))
  }

  ghost function VolWhere(ls: seq<Level>, keep: real -> bool): real {
    if ls == [] then 0.0 else (if keep(ls[0].price) then ls[0].vol else 0.0) + VolWhere(ls[1..], keep)
  }

  lemma {:induction false} VolWhereAppend(a: seq<Level>, b: seq<Level>, keep: real -> bool)
    ensures VolWhere(a + b, keep) == VolWhere(a, keep) + VolWhere(b, keep)
  {
    if a == [] {
      assert a + b == b;
    } else {
      assert (a + b)[1..] == a[1..] + b;
      VolWhereAppend(a[1..], b, keep);
    }
  }

  lemma {:induction false} VolWhereOne(l: Level, keep: real -> bool)
    ensures VolWhere([l], keep) == if keep(l.price) then l.vol else 0.0
  {
    assert [l][1..] == [];
  }

  lemma {:induction false} VolWhereInsert(l: Level, ls: seq<Level>, keep: real -> bool)
    ensures VolWhere(InsertLevel(l, ls), keep) == VolWhere([l], keep) + VolWhere(ls, keep)
  {
    if ls == [] || l.price <= ls[0].price {
      VolWhereAppend([l], ls, keep);
    } else {
      VolWhereOne(l, keep);
      assert ([ls[0]] + InsertLevel(l, ls[1..]))[1..] == InsertLevel(l, ls[1..]);
      VolWhereInsert(l, ls[1..], keep);
    }
  }

  lemma {:induction false} VolWhereSort(ls: seq<Level>, keep: real -> bool)
    ensures VolWhere(SortLevels(ls), keep) == VolWhere(ls, keep)
  {
    if ls != [] {
      VolWhereSort(ls[1..], keep);
      VolWhereInsert(ls[0], SortLevels(ls[1..]), keep);
      VolWhereOne(ls[0], keep);
    }
  }

  lemma {:induction false} VolWhereAll(ls: seq<Level>, keep: real -> bool)
    requires forall i :: 0 <= i < |ls| ==> keep(ls[i].price)
    ensures VolWhere(ls, keep) == SumVol(ls)
  {
    if ls != [] {
      assert forall i :: 0 <= i < |ls[1..]| ==> ls[1..][i] == ls[i + 1];
      VolWhereAll(ls[1..], keep);
    }
  }

  lemma {:induction false} VolWhereNonNegative(ls: seq<Level>, keep: real -> bool)
    requires NonNegativeVolumes(ls)
    ensures VolWhere(ls, keep) >= 0.0
  {
    if ls != [] {
      assert forall i :: 0 <= i < |ls[1..]| ==> ls[1..][i] == ls[i + 1];
      VolWhereNonNegative(ls[1..], keep);
    }
  }

  lemma {:induction false} CellsWithout(fp: map<string, Cell>, keys: set<string>, parse: string -> Option<real>, keep: real -> bool, k: string)
    requires k in keys
    ensures CellsWhere(fp, keys, parse, keep) - {k} == CellsWhere(fp, keys - {k}, parse, keep)
    ensures k !in CellsWhere(fp, keys, parse, keep) ==> CellsWhere(fp, keys, parse, keep) == CellsWhere(fp, keys - {k}, parse, keep)
  {}

  lemma {:induction false} NoCells(fp: map<string, Cell>, keys: set<string>, parse: string -> Option<real>, keep: real -> bool)
    requires keys == {}
    ensures CellsWhere(fp, keys, parse, keep) == map[]
  {}

  /** In whatever order the map is read, the levels carry the volume of the cells, price by price. */
  lemma {:induction false} LevelsCarryCells(fp: map<string, Cell>, parse: string -> Option<real>, order: seq<string>, keys: set<string>,
                                            keep: real -> bool)
    requires Enumerates(order, keys) && keys <= fp.Keys
    ensures VolWhere(LevelsOf(fp, parse, order), keep) == SumMap(CellsWhere(fp, keys, parse, keep), CellVolume())
    decreases |order|
  {
    hide SumMap, CellsWhere;
    if order == [] {
      assert forall k :: k in keys <==> k in order;
      NoCells(fp, keys, parse, keep);
      SumOfNoCells(CellsWhere(fp, keys, parse, keep), CellVolume());
    } else {
      var n := |order| - 1;
      var k := order[n];
      assert k in order;
      EnumerationWithout(order, keys, n);
      assert order[..n] + order[n + 1..] == order[..n];
      LevelsCarryCells(fp, parse, order[..n], keys - {k}, keep);
      CellsWithout(fp, keys, parse, keep, k);
      OneMoreLevel(fp, parse, order[..n], k, keep);
      assert order == order[..n] + [k];
      OneMoreCell(fp, keys, parse, keep, k);
    }
  }

  lemma {:induction false} SumOfNoCells(m: map<string, Cell>, f: Cell -> real)
    requires m == map[]
    ensures SumMap(m, f) == 0.0
  {}

  lemma {:induction false} OneMoreLevel(fp: map<string, Cell>, parse: string -> Option<real>, order: seq<string>, k: string, keep: real -> bool)
    requires k in fp && forall j :: j in order ==> j in fp
    ensures forall j :: j in order + [k] ==> j in fp
    ensures VolWhere(LevelsOf(fp, parse, order + [k]), keep) == VolWhere(LevelsOf(fp, parse, order), keep)
         + if parse(k).Some? && keep(parse(k).value) then fp[k].buyVol + fp[k].sellVol else 0.0
  {
    assert (order + [k])[..|order|] == order;
    if parse(k).Some? {
      var l := Level(parse(k).value, fp[k].buyVol + fp[k].sellVol);
      VolWhereAppend(LevelsOf(fp, parse, order), [l], keep);
      VolWhereOne(l, keep);
    }
  }

  lemma {:induction false} OneMoreCell(fp: map<string, Cell>, keys: set<string>, parse: string -> Option<real>, keep: real -> bool, k: string)
    requires k in keys && k in fp
    ensures SumMap(CellsWhere(fp, keys, parse, keep), CellVolume()) == SumMap(CellsWhere(fp, keys - {k}, parse, keep), CellVolume())
         + if parse(k).Some? && keep(parse(k).value) then fp[k].buyVol + fp[k].sellVol else 0.0
  {
    hide SumMap;
    CellsWithout(fp, keys, parse, keep, k);
    var m := CellsWhere(fp, keys, parse, keep);
    if k in m {
      SumMapTakes(m, k, CellVolume());
    }
  }

  /** A cell and a level stand for each other. */
  predicate StandsFor(k: string, l: Level, fp: map<string, Cell>, parse: string -> Option<real>) {
    k in fp && parse(k) == Some(l.price) && fp[k].buyVol + fp[k].sellVol == l.vol
  }

  lemma {:induction false} LevelOfCell(fp: map<string, Cell>, parse: string -> Option<real>, order: seq<string>, k: string) returns (l: Level)
    requires (forall j :: j in order ==> j in fp) && k in order && parse(k).Some?
    ensures l in LevelsOf(fp, parse, order) && StandsFor(k, l, fp, parse)
  {
    var n := |order| - 1;
    if order[n] == k {
      l := Level(parse(k).value, fp[k].buyVol + fp[k].sellVol);
      LastLevel(fp, parse, order, l);
    } else {
      StillIn(order, k);
      l := LevelOfCell(fp, parse, order[..n], k);
    }
  }

  lemma {:induction false} StillIn(order: seq<string>, k: string)
    requires k in order && order[|order| - 1] != k
    ensures k in order[..|order| - 1]
  {}

  lemma {:induction false} LastLevel(fp: map<string, Cell>, parse: string -> Option<real>, order: seq<string>, l: Level)
    requires (forall j :: j in order ==> j in fp) && order != [] && StandsFor(order[|order| - 1], l, fp, parse)
    ensures l in LevelsOf(fp, parse, order)
  {
    var rest := LevelsOf(fp, parse, order[..|order| - 1]);
    assert LevelsOf(fp, parse, order) == rest + [l];
  }

  lemma {:induction false} CellOfLevel(fp: map<string, Cell>, parse: string -> Option<real>, order: seq<string>, l: Level) returns (k: string)
    requires (forall j :: j in order ==> j in fp) && l in LevelsOf(fp, parse, order)
    ensures k in order && StandsFor(k, l, fp, parse)
  {
    var n := |order| - 1;
    if l in LevelsOf(fp, parse, order[..n]) {
      k := CellOfLevel(fp, parse, order[..n], l);
    } else {
      k := order[n];
      assert k in order;
    }
  }

  lemma {:induction false} SameMembers(a: seq<Level>, b: seq<Level>, l: Level) returns (j: nat)
    requires multiset(a) == multiset(b) && l in a
    ensures j < |b| && b[j] == l
  {
    assert l in multiset(a) && l in multiset(b);
    j :| j < |b| && b[j] == l;
  }

  /** The point of control of any reading is the heaviest cell. */
  lemma {:induction false} PocIsHeaviestCell(fp: map<string, Cell>, parse: string -> Option<real>, order: seq<string>, ls: seq<Level>, p: nat)
    requires Enumerates(order, fp.Keys) && multiset(ls) == multiset(LevelsOf(fp, parse, order)) && IsPoc(ls, p)
    ensures IsHeaviestCell(fp, parse, ls[p].price, ls[p].vol)
  {
    var levels := LevelsOf(fp, parse, order);
    hide LevelsOf;
    var i := SameMembers(ls, levels, ls[p]);
    var poc := CellOfLevel(fp, parse, order, levels[i]);
    forall k | k in fp && parse(k).Some?
      ensures var v := fp[k].buyVol + fp[k].sellVol; v < ls[p].vol || (v == ls[p].vol && parse(k).value <= ls[p].price)
    {
      var l := LevelOfCell(fp, parse, order, k);
      var j := SameMembers(levels, ls, l);
    }
  }

  /** The result is missing exactly when nothing was traded at a numeric price; otherwise it names the heaviest cell. */
  lemma {:induction false} ResultInCells(fp: map<string, Cell>, parse: string -> Option<real>, r: Option<ValueArea>)
    requires IsValueAreaOf(fp, parse, r)
    ensures r.None? <==> VolumeAt(fp, parse, Everywhere()) == 0.0
    ensures r.Some? ==> IsHeaviestCell(fp, parse, r.value.pocPrice, r.value.pocVolume)
  {
    var order :| Enumerates(order, fp.Keys) && (r.None? <==> SumVol(LevelsOf(fp, parse, order)) == 0.0)
      && (r.Some? ==> IsValueArea(SortLevels(LevelsOf(fp, parse, order)), r.value));
    var levels := LevelsOf(fp, parse, order);
    hide LevelsOf, SumMap, CellsWhere, IsHeaviestCell, SortLevels, IsPoc, IsValueRange, SumVol, VolWhere;
    LevelsCarryCells(fp, parse, order, fp.Keys, Everywhere());
    VolWhereAll(levels, Everywhere());
    if r.Some? {
      var v := r.value;
      var ls := SortLevels(levels);
      SortLevelsProperties(levels);
      var p: nat, a: Range :| IsPoc(ls, p) && IsValueRange(ls, p, a) && v == ValueArea(ls[p].price, ls[a.hi].price, ls[a.lo].price, ls[p].vol);
      PocIsHeaviestCell(fp, parse, order, ls, p);
    }
  }

  // ---- The algorithm ----

  /** Ranges over the map in an arbitrary order, collecting levels and their total volume. */
  method CollectLevels(fp: map<string, Cell>, parse: string -> Option<real>)
    returns (levels: seq<Level>, totalVol: real, ghost order: seq<string>)
    ensures Enumerates(order, fp.Keys) && levels == LevelsOf(fp, parse, order) && totalVol == SumVol(levels)
  {
    levels, totalVol, order := [], 0.0, [];
    var keys := fp.Keys;
    while keys != {}
      invariant keys <= fp.Keys && Enumerates(order, fp.Keys - keys)
      invariant levels == LevelsOf(fp, parse, order) && totalVol == SumVol(levels)
      decreases keys
    {
      var k :| k in keys;
      keys := keys - {k};
      var p := parse(k);
      if p.Some? {
        var v := fp[k].buyVol + fp[k].sellVol;
        SumVolSnoc(levels, Level(p.value, v));
        levels := levels + [Level(p.value, v)];
        totalVol := totalVol + v;
      }
      assert (order + [k])[..|order|] == order;
      order := order + [k];
    }
  }

  method FindPoc(ls: seq<Level>) returns (pocIdx: nat)
    requires ls != [] && Ascending(ls)
    ensures IsPoc(ls, pocIdx)
  {
    pocIdx := 0;
    for i := 0 to |ls|
      invariant pocIdx < |ls|
      invariant forall j :: 0 <= j < i ==>
        ls[j].vol < ls[pocIdx].vol || (ls[j].vol == ls[pocIdx].vol && ls[j].price <= ls[pocIdx].price)
    {
      if ls[i].vol > ls[pocIdx].vol || (ls[i].vol == ls[pocIdx].vol && ls[i].price > ls[pocIdx].price) {
        pocIdx := i;
      }
    }
  }

  lemma {:induction false} StartsAtPoc(ls: seq<Level>, p: nat)
    requires p < |ls|
    ensures Expansion(ls, p, 0) == Range(p, p) && Covered(ls, Range(p, p)) == ls[p].vol
  {
    assert ls[p..p + 1] == [] + [ls[p]];
    SumVolSnoc([], ls[p]);
  }

  /** One turn of the loop: the heavier neighbour, the upper one on a tie. */
  lemma {:induction false} NextExpansion(ls: seq<Level>, p: nat, n: nat, lo: nat, hi: nat)
    requires p < |ls| && Expansion(ls, p, n) == Range(lo, hi) && (lo > 0 || hi < |ls| - 1)
    ensures lo <= p <= hi < |ls|
    ensures var up := hi < |ls| - 1 && (lo == 0 || ls[hi + 1].vol >= ls[lo - 1].vol);
            && Expansion(ls, p, n + 1) == (if up then Range(lo, hi + 1) else Range(lo - 1, hi))
            && Covered(ls, Expansion(ls, p, n + 1)) == Covered(ls, Range(lo, hi)) + if up then ls[hi + 1].vol else ls[lo - 1].vol
  {
    hide Covered;
    CoveredGrows(ls, Range(lo, hi));
  }

  lemma {:induction false} StopsWhen(ls: seq<Level>, p: nat, n: nat, lo: nat, hi: nat, accumulated: real, target: real)
    requires p < |ls| && Expansion(ls, p, n) == Range(lo, hi) && accumulated == Covered(ls, Range(lo, hi)) && target == SumVol(ls) * 0.70
    ensures lo <= p <= hi < |ls|
    ensures Stops(ls, p, n) <==> accumulated >= target || (lo == 0 && hi == |ls| - 1)
  {
    hide Covered, SumVol, Expansion;
  }

  /** The side to expand: up where there is no lower neighbour, or the upper one is at least as heavy. */
  method ExpandsUp(ls: seq<Level>, lo: nat, hi: nat) returns (expandHi: bool)
    requires lo <= hi < |ls|
    ensures expandHi == (hi < |ls| - 1 && (lo == 0 || ls[hi + 1].vol >= ls[lo - 1].vol))
  {
    var canLo := lo > 0;
    var canHi := hi < |ls| - 1;
    expandHi := false;
    if canHi && canLo {
      expandHi := ls[hi + 1].vol >= ls[lo - 1].vol;
    } else if canHi {
      expandHi := true;
    }
  }

  ghost predicate NoStopBefore(ls: seq<Level>, p: nat, n: nat)
    requires p < |ls|
  {
    forall m: nat :: m < n ==> !Stops(ls, p, m)
  }

  lemma {:induction false} OneMoreWithoutStop(ls: seq<Level>, p: nat, n: nat)
    requires p < |ls| && NoStopBefore(ls, p, n) && !Stops(ls, p, n)
    ensures NoStopBefore(ls, p, n + 1)
  {
    hide Stops;
  }

  method ExpandFrom(ls: seq<Level>, pocIdx: nat, totalVol: real) returns (lo: nat, hi: nat)
    requires pocIdx < |ls| && totalVol == SumVol(ls)
    ensures IsValueRange(ls, pocIdx, Range(lo, hi))
  {
    var target := totalVol * 0.70;
    var accumulated := ls[pocIdx].vol;
    lo, hi := pocIdx, pocIdx;
    ghost var n: nat := 0;
    StartsAtPoc(ls, pocIdx);
    hide Covered, SumVol, Expansion, Stops, InRange;
    assert NoStopBefore(ls, pocIdx, 0);
    while accumulated < target && (lo > 0 || hi < |ls| - 1)
      invariant lo <= pocIdx <= hi < |ls|
      invariant Expansion(ls, pocIdx, n) == Range(lo, hi) && accumulated == Covered(ls, Range(lo, hi))
      invariant NoStopBefore(ls, pocIdx, n)
      decreases lo + |ls| - hi
    {
      StopsWhen(ls, pocIdx, n, lo, hi, accumulated, target);
      hide NoStopBefore;
      OneMoreWithoutStop(ls, pocIdx, n);
      NextExpansion(ls, pocIdx, n, lo, hi);
      var expandHi := ExpandsUp(ls, lo, hi);
      n := n + 1;
      if expandHi {
        hi := hi + 1;
        accumulated := accumulated + ls[hi].vol;
      } else {
        lo := lo - 1;
        accumulated := accumulated + ls[lo].vol;
      }
    }
    StopsWhen(ls, pocIdx, n, lo, hi, accumulated, target);
    assert LeastStop(ls, pocIdx, n);
  }

  /** What the result must be: read the map in some order, and summarise the sorted profile. */
  ghost predicate IsValueAreaOf(fp: map<string, Cell>, parse: string -> Option<real>, r: Option<ValueArea>) {
    exists order ::
      && Enumerates(order, fp.Keys)
      && (r.None? <==> SumVol(LevelsOf(fp, parse, order)) == 0.0)
      && (r.Some? ==> IsValueArea(SortLevels(LevelsOf(fp, parse, order)), r.value))
  }

  ghost predicate DistinctNumbers(fp: map<string, Cell>, parse: string -> Option<real>) {
    forall j, k :: j in fp && k in fp && j != k && parse(j).Some? && parse(k).Some? ==> parse(j) != parse(k)
  }

  lemma {:induction false} DistinctNumbersGiveDistinctPrices(fp: map<string, Cell>, parse: string -> Option<real>, order: seq<string>)
    requires (forall k :: k in order ==> k in fp) && DistinctNumbers(fp, parse)
    requires forall i, j :: 0 <= i < j < |order| ==> order[i] != order[j]
    ensures DistinctPrices(LevelsOf(fp, parse, order))
  {
    if order != [] {
      var n := |order| - 1;
      var rest := LevelsOf(fp, parse, order[..n]);
      DistinctNumbersGiveDistinctPrices(fp, parse, order[..n]);
      forall l | l in rest && parse(order[n]).Some? ensures l.price != parse(order[n]).value {
        var k := CellOfLevel(fp, parse, order[..n], l);
      }
    }
  }

  /** With distinct numeric prices there is only one right answer, whatever order the map is read in. */
  lemma {:induction false} IterationOrderDoesNotMatter(fp: map<string, Cell>, parse: string -> Option<real>,
                                                       r: Option<ValueArea>, q: Option<ValueArea>)
    requires DistinctNumbers(fp, parse) && IsValueAreaOf(fp, parse, r) && IsValueAreaOf(fp, parse, q)
    ensures r == q
  {
    var a :| Enumerates(a, fp.Keys) && (r.None? <==> SumVol(LevelsOf(fp, parse, a)) == 0.0)
      && (r.Some? ==> IsValueArea(SortLevels(LevelsOf(fp, parse, a)), r.value));
    var b :| Enumerates(b, fp.Keys) && (q.None? <==> SumVol(LevelsOf(fp, parse, b)) == 0.0)
      && (q.Some? ==> IsValueArea(SortLevels(LevelsOf(fp, parse, b)), q.value));
    DistinctNumbersGiveDistinctPrices(fp, parse, a);
    DistinctNumbersGiveDistinctPrices(fp, parse, b);
    ProfileIgnoresIterationOrder(fp, parse, a, b);
    SumVolSort(LevelsOf(fp, parse, a));
    SumVolSort(LevelsOf(fp, parse, b));
    SortIsStrict(LevelsOf(fp, parse, a));
    if r.Some? {
      ValueAreaIsUnique(SortLevels(LevelsOf(fp, parse, a)), r.value, q.value);
    }
  }

  /** The result is missing exactly when the volume is zero; otherwise it is the value area of the profile. */
  method ComputeValueArea(fp: map<string, Cell>, parse: string -> Option<real>) returns (r: Option<ValueArea>)
    ensures IsValueAreaOf(fp, parse, r)
    ensures r.None? <==> VolumeAt(fp, parse, Everywhere()) == 0.0
    ensures r.Some? ==> IsHeaviestCell(fp, parse, r.value.pocPrice, r.value.pocVolume)
  {
    var levels, totalVol;
    ghost var order;
    levels, totalVol, order := CollectLevels(fp, parse);
    var sorted := SortLevels(levels);
    SortLevelsProperties(levels);
    SumVolSort(levels);
    if |levels| == 0 || totalVol == 0.0 {
      ResultInCells(fp, parse, None);
      return None;
    }
    var pocIdx := FindPoc(sorted);
    var lo, hi := pocIdx, pocIdx;
    if |sorted| == 1 {
      assert Expansion(sorted, 0, 0) == Range(0, 0);
      assert LeastStop(sorted, 0, 0);
    } else {
      lo, hi := ExpandFrom(sorted, pocIdx, totalVol);
    }
    assert IsValueRange(sorted, pocIdx, Range(lo, hi));
    r := Some(ValueArea(sorted[pocIdx].price, sorted[hi].price, sorted[lo].price, sorted[pocIdx].vol));
    assert IsValueArea(sorted, r.value);
    ResultInCells(fp, parse, r);
  }

  lemma {:induction false} VolumesNonNegative(fp: map<string, Cell>, parse: string -> Option<real>, order: seq<string>)
    requires forall k :: k in order ==> k in fp && fp[k].buyVol >= 0.0 && fp[k].sellVol >= 0.0
    ensures NonNegativeVolumes(LevelsOf(fp, parse, order))
  {
    if order != [] {
      VolumesNonNegative(fp, parse, order[..|order| - 1]);
    }
  }

  /** A range of levels around the point of control, with at least 70% of the volume. */
  ghost predicate CoversMostAround(ls: seq<Level>, v: ValueArea) {
    exists p: nat, r: Range ::
      && IsPoc(ls, p) && InRange(ls, r) && r.lo <= p <= r.hi
      && v == ValueArea(ls[p].price, ls[r.hi].price, ls[r.lo].price, ls[p].vol)
      && Covered(ls, r) >= SumVol(ls) * 0.70
  }

  lemma {:induction false} ProfileCovers(ls: seq<Level>, v: ValueArea)
    requires SumVol(ls) >= 0.0 && IsValueArea(ls, v)
    ensures CoversMostAround(ls, v)
  {
    var p: nat, r: Range :| IsPoc(ls, p) && IsValueRange(ls, p, r)
      && v == ValueArea(ls[p].price, ls[r.hi].price, ls[r.lo].price, ls[p].vol);
    var n := ValueRangeCovers(ls, p, r);
  }

  /** In terms of the cells: the heaviest one, and around its price at least 70% of all that was bought and sold. */
  ghost predicate CoversMostOf(fp: map<string, Cell>, parse: string -> Option<real>, v: ValueArea) {
    && IsHeaviestCell(fp, parse, v.pocPrice, v.pocVolume) && v.low <= v.pocPrice <= v.high
    && VolumeAt(fp, parse, Between(v.low, v.high)) >= VolumeAt(fp, parse, Everywhere()) * 0.70
  }

  /** The levels of an index range lie in its price range. */
  lemma {:induction false} RangeWithinPrices(ls: seq<Level>, r: Range)
    requires InRange(ls, r) && Ascending(ls) && NonNegativeVolumes(ls)
    ensures VolWhere(ls, Between(ls[r.lo].price, ls[r.hi].price)) >= Covered(ls, r)
  {
    hide VolWhere, SumVol;
    var keep := Between(ls[r.lo].price, ls[r.hi].price);
    var front, mid, back := ls[..r.lo], ls[r.lo..r.hi + 1], ls[r.hi + 1..];
    ThreeParts(ls, r);
    VolWhereAppend(front, mid + back, keep);
    VolWhereAppend(mid, back, keep);
    VolWhereAll(mid, keep);
    VolWhereNonNegative(front, keep);
    VolWhereNonNegative(back, keep);
  }

  lemma {:induction false} ThreeParts(ls: seq<Level>, r: Range)
    requires InRange(ls, r)
    ensures ls == ls[..r.lo] + (ls[r.lo..r.hi + 1] + ls[r.hi + 1..])
  {}

  /** Where no cell is negative, the value area covers 70% of what the cells hold. */
  lemma {:induction false} ValueAreaCovers(fp: map<string, Cell>, parse: string -> Option<real>, v: ValueArea)
    requires (forall k :: k in fp ==> fp[k].buyVol >= 0.0 && fp[k].sellVol >= 0.0) && IsValueAreaOf(fp, parse, Some(v))
    ensures CoversMostOf(fp, parse, v)
  {
    ResultInCells(fp, parse, Some(v));
    var order :| Enumerates(order, fp.Keys) && IsValueArea(SortLevels(LevelsOf(fp, parse, order)), v);
    VolumesNonNegative(fp, parse, order);
    ReadingCovers(fp, parse, order, v);
  }

  lemma {:induction false} ReadingCovers(fp: map<string, Cell>, parse: string -> Option<real>, order: seq<string>, v: ValueArea)
    requires Enumerates(order, fp.Keys) && NonNegativeVolumes(LevelsOf(fp, parse, order))
    requires IsValueArea(SortLevels(LevelsOf(fp, parse, order)), v)
    ensures v.low <= v.pocPrice <= v.high
    ensures VolumeAt(fp, parse, Between(v.low, v.high)) >= VolumeAt(fp, parse, Everywhere()) * 0.70
  {
    var levels := LevelsOf(fp, parse, order);
    hide SortLevels, LevelsOf, IsValueArea, SumMap, CellsWhere, VolWhere, SumVol;
    var ls := SortLevels(levels);
    SumVolNonNegative(levels);
    SumVolSort(levels);
    SortLevelsProperties(levels);
    SortKeepsNonNegative(levels);
    ProfileCovers(ls, v);
    AreaWithinPrices(ls, v);
    VolWhereSort(levels, Between(v.low, v.high));
    VolWhereAll(levels, Everywhere());
    LevelsCarryCells(fp, parse, order, fp.Keys, Everywhere());
    LevelsCarryCells(fp, parse, order, fp.Keys, Between(v.low, v.high));
  }

  lemma {:induction false} AreaWithinPrices(ls: seq<Level>, v: ValueArea)
    requires Ascending(ls) && NonNegativeVolumes(ls) && CoversMostAround(ls, v)
    ensures v.low <= v.pocPrice <= v.high && VolWhere(ls, Between(v.low, v.high)) >= SumVol(ls) * 0.70
  {
    hide SumVol, VolWhere, Covered;
    var p: nat, r: Range :| IsPoc(ls, p) && InRange(ls, r) && r.lo <= p <= r.hi
      && v == ValueArea(ls[p].price, ls[r.hi].price, ls[r.lo].price, ls[p].vol) && Covered(ls, r) >= SumVol(ls) * 0.70;
    RangeWithinPrices(ls, r);
  }

  lemma {:induction false} SortKeepsNonNegative(ls: seq<Level>)
    requires NonNegativeVolumes(ls)
    ensures NonNegativeVolumes(SortLevels(ls))
  {
    SortLevelsProperties(ls);
    var s := SortLevels(ls);
    hide SortLevels;
    forall i | 0 <= i < |s| ensures s[i].vol >= 0.0 {
      assert s[i] in multiset(s) && s[i] in ls;
    }
  }
}
