/** The rolling 24-hour counter of internal gaps (aggregator/internal/gapwindow/window.go). */
module GapWindow {
  import opened Integers

  datatype Record = Record(cause: string, at: int)  // `at` in Unix seconds

  datatype Bucket = Bucket(hour: int, count: nat)

  predicate Internal(cause: string) {
    cause == "internal_buffer_overflow" || cause == "internal_merge_error"
  }

  function Hour(r: Record): int {
    TruncDiv(r.at, 3600)
  }

  function Slot(hour: int): int {
    TruncMod(TruncMod(hour, 24) + 24, 24)
  }

  lemma {:induction false} SlotIsMod(hour: int)
    ensures Slot(hour) == hour % 24
  {}

  // ---- Counting over the full history ----

  ghost function CountOf(h: seq<Record>, p: Record -> bool): nat {
    if h == [] then 0 else CountOf(h[..|h| - 1], p) + if p(h[|h| - 1]) then 1 else 0
  }

  lemma {:induction false} CountSame(h: seq<Record>, p: Record -> bool, q: Record -> bool)
    requires forall r :: r in h ==> p(r) == q(r)
    ensures CountOf(h, p) == CountOf(h, q)
  {
    if h != [] {
      assert h[|h| - 1] in h;
      CountSame(h[..|h| - 1], p, q);
    }
  }

  lemma {:induction false} CountSplit(h: seq<Record>, p: Record -> bool, q: Record -> bool, r: Record -> bool)
    requires forall x :: x in h ==> p(x) == (q(x) || r(x)) && !(q(x) && r(x))
    ensures CountOf(h, p) == CountOf(h, q) + CountOf(h, r)
  {
    if h != [] {
      assert h[|h| - 1] in h;
      CountSplit(h[..|h| - 1], p, q, r);
    }
  }

  lemma {:induction false} CountConcat(a: seq<Record>, b: seq<Record>, p: Record -> bool)
    ensures CountOf(a + b, p) == CountOf(a, p) + CountOf(b, p)
    decreases |b|
  {
    if b == [] {
      assert a + b == a;
    } else {
      assert (a + b)[..|a + b| - 1] == a + b[..|b| - 1];
      CountConcat(a, b[..|b| - 1], p);
    }
  }

  lemma {:induction false} CountSnoc(h: seq<Record>, r: Record, p: Record -> bool)
    ensures CountOf(h + [r], p) == CountOf(h, p) + if p(r) then 1 else 0
  {
    assert (h + [r])[..|h|] == h;
  }

  function Without(h: seq<Record>, j: nat): seq<Record>
    requires j < |h|
  {
    h[..j] + h[j + 1..]
  }

  lemma {:induction false} CountWithout(h: seq<Record>, j: nat, p: Record -> bool)
    requires j < |h|
    ensures CountOf(h, p) == CountOf(Without(h, j), p) + if p(h[j]) then 1 else 0
  {
    var front, back := h[..j], h[j + 1..];
    assert h == (front + [h[j]]) + back;
    CountConcat(front + [h[j]], back, p);
    CountSnoc(front, h[j], p);
    CountConcat(front, back, p);
  }

  lemma {:induction false} MultisetWithout(h: seq<Record>, j: nat)
    requires j < |h|
    ensures multiset(Without(h, j)) == multiset(h) - multiset{h[j]} && |Without(h, j)| == |h| - 1
  {
    assert h == h[..j] + [h[j]] + h[j + 1..];
  }

  lemma {:induction false} SameElementIn(a: seq<Record>, b: seq<Record>) returns (j: nat)
    requires multiset(a) == multiset(b) && a != []
    ensures j < |b| && b[j] == a[0]
  {
    assert a[0] in multiset(b);
    j :| j < |b| && b[j] == a[0];
  }

  lemma {:induction false} CountIgnoresOrder(a: seq<Record>, b: seq<Record>, p: Record -> bool)
    requires multiset(a) == multiset(b)
    ensures CountOf(a, p) == CountOf(b, p)
    decreases |a|
  {
    if a == [] {
      assert |multiset(b)| == 0;
    } else {
      var j := SameElementIn(a, b);
      hide CountOf, Without;
      MultisetWithout(a, 0);
      MultisetWithout(b, j);
      CountWithout(a, 0, p);
      CountWithout(b, j, p);
      CountIgnoresOrder(Without(a, 0), Without(b, j), p);
    }
  }

  ghost function InHour(hour: int): Record -> bool {
    (r: Record) => Internal(r.cause) && Hour(r) == hour
  }

  /** The last 24 hour buckets, the one of `now` included. */
  ghost function InWindow(now: int): Record -> bool {
    (r: Record) => Internal(r.cause) && TruncDiv(now, 3600) - 23 <= Hour(r) <= TruncDiv(now, 3600)
  }

  /** Events of the two internal causes from second `start` on. */
  ghost function InternalSince(start: int): Record -> bool {
    (r: Record) => (r.cause == "internal_buffer_overflow" || r.cause == "internal_merge_error") && r.at >= start
  }

  ghost predicate NoneAheadInSeconds(h: seq<Record>, now: int) {
    forall r :: r in h && (r.cause == "internal_buffer_overflow" || r.cause == "internal_merge_error") ==> 0 <= r.at <= now
  }

  /** In seconds: the window is the running hour and the 23 before it. */
  lemma {:induction false} WindowInSeconds(h: seq<Record>, now: int)
    requires NoneAheadInSeconds(h, now)
    ensures forall r :: r in h && Internal(r.cause) ==> 0 <= Hour(r) <= TruncDiv(now, 3600)
    ensures CountOf(h, InWindow(now)) == CountOf(h, InternalSince(now - now % 3600 - 23 * 3600))
  {
    CountSame(h, InWindow(now), InternalSince(now - now % 3600 - 23 * 3600));
  }

  /** So an event of the last 23 hours is in it, and one of 24 hours ago or more is not. */
  lemma {:induction false} WindowHoldsADay(r: Record, now: int)
    requires Internal(r.cause) && 0 <= r.at <= now
    ensures now - r.at <= 23 * 3600 ==> InWindow(now)(r)
    ensures now - r.at >= 24 * 3600 ==> !InWindow(now)(r)
  {}

  /** What a slot holds wins over anything older in the same slot, and over hours before the epoch. */
  ghost predicate Survives(h: seq<Record>, r: Record) {
    && Internal(r.cause) && Hour(r) >= 0
    && forall e :: e in h && Internal(e.cause) && Hour(e) % 24 == Hour(r) % 24 ==> Hour(e) <= Hour(r)
  }

  ghost function Surviving(h: seq<Record>, cutoff: int): Record -> bool {
    (r: Record) => Survives(h, r) && Hour(r) >= cutoff
  }

  /**
    The counter agrees with counting over the whole history, whatever the insertion order, as
    long as no internal event lies before the epoch or after now's hour.
  */
  lemma {:induction false} SurvivorsAreTheWindow(h: seq<Record>, now: int)
    requires forall r :: r in h && Internal(r.cause) ==> 0 <= Hour(r) <= TruncDiv(now, 3600)
    ensures CountOf(h, Surviving(h, TruncDiv(now, 3600) - 23)) == CountOf(h, InWindow(now))
  {
    CountSame(h, Surviving(h, TruncDiv(now, 3600) - 23), InWindow(now));
  }

  lemma {:induction false} InsertionOrderDoesNotMatter(a: seq<Record>, b: seq<Record>, cutoff: int)
    requires multiset(a) == multiset(b)
    ensures CountOf(a, Surviving(a, cutoff)) == CountOf(b, Surviving(b, cutoff))
  {
    forall r ensures r in a <==> r in b {
      assert r in multiset(a) <==> r in multiset(b);
    }
    CountSame(a, Surviving(a, cutoff), Surviving(b, cutoff));
    CountIgnoresOrder(a, b, Surviving(b, cutoff));
  }

  /** Window events that were evicted or never stored: not counted, though in the window. */
  ghost function Hidden(h: seq<Record>, now: int): Record -> bool {
    (r: Record) => Internal(r.cause) && TruncDiv(now, 3600) - 23 <= Hour(r) <= TruncDiv(now, 3600) && !Survives(h, r)
  }

  /** A window event is hidden only by lying before the epoch or by an event ahead of now's hour. */
  lemma {:induction false} HiddenBehindAhead(h: seq<Record>, now: int, r: Record)
    requires r in h && Hidden(h, now)(r) && Hour(r) >= 0
    ensures exists e :: e in h && Internal(e.cause) && Hour(e) % 24 == Hour(r) % 24 && Hour(e) > TruncDiv(now, 3600)
  {
    var e :| e in h && Internal(e.cause) && Hour(e) % 24 == Hour(r) % 24 && Hour(e) > Hour(r);
    NextSameSlot(Hour(r), Hour(e));
  }

  lemma {:induction false} NextSameSlot(a: int, b: int)
    requires a < b && a % 24 == b % 24
    ensures b >= a + 24
  {}

  // ---- The buckets ----

  /** Slot i holds the latest hour seen in that slot, with all of that hour's events. */
  ghost predicate SlotOk(h: seq<Record>, i: int, b: Bucket) {
    && b.hour >= 0
    && (forall r :: r in h && Internal(r.cause) && Hour(r) % 24 == i ==> Hour(r) <= b.hour)
    && (b.hour % 24 == i ==> b.count == CountOf(h, InHour(b.hour)))
    && (b.hour % 24 != i ==> b.count == 0)
    && (b.count == 0 ==> b.hour == 0)
  }

  lemma {:induction false} CountIsPositive(h: seq<Record>, p: Record -> bool)
    ensures CountOf(h, p) > 0 <==> exists r :: r in h && p(r)
  {
    if h != [] {
      var n := |h| - 1;
      CountIsPositive(h[..n], p);
      assert h == h[..n] + [h[n]];
    }
  }

  lemma {:induction false} SlotKept(h: seq<Record>, i: int, b: Bucket, r: Record)
    requires 0 <= i < 24 && SlotOk(h, i, b)
    requires !Internal(r.cause) || Hour(r) % 24 != i || Hour(r) < b.hour
    ensures SlotOk(h + [r], i, b)
  {
    assert (h + [r])[..|h|] == h;
  }

  lemma {:induction false} SlotTakes(h: seq<Record>, i: int, b: Bucket, r: Record)
    requires 0 <= i < 24 && SlotOk(h, i, b)
    requires Internal(r.cause) && Hour(r) % 24 == i && Hour(r) >= b.hour
    ensures SlotOk(h + [r], i, Bucket(Hour(r), (if b.hour == Hour(r) then b.count else 0) + 1))
  {
    assert (h + [r])[..|h|] == h;
    if b.hour != Hour(r) {
      CountIsPositive(h, InHour(Hour(r)));
    }
  }

  ghost function FromSlots(h: seq<Record>, cutoff: int, n: int): Record -> bool {
    (r: Record) => Survives(h, r) && Hour(r) >= cutoff && Hour(r) % 24 < n
  }

  ghost function FromSlot(h: seq<Record>, cutoff: int, i: int): Record -> bool {
    (r: Record) => Survives(h, r) && Hour(r) >= cutoff && Hour(r) % 24 == i
  }

  function Contribution(b: Bucket, cutoff: int): nat {
    if b.count > 0 && b.hour >= cutoff then b.count else 0
  }

  lemma {:induction false} SlotCountsItsSurvivors(h: seq<Record>, cutoff: int, i: int, b: Bucket)
    requires 0 <= i < 24 && SlotOk(h, i, b)
    ensures CountOf(h, FromSlot(h, cutoff, i)) == Contribution(b, cutoff)
  {
    CountIsPositive(h, InHour(b.hour));
    CountIsPositive(h, FromSlot(h, cutoff, i));
    if b.count > 0 {
      var e :| e in h && InHour(b.hour)(e);
      assert forall r :: r in h && Survives(h, r) && Hour(r) % 24 == i ==> Hour(e) <= Hour(r);
      if b.hour >= cutoff {
        CountSame(h, FromSlot(h, cutoff, i), InHour(b.hour));
      }
    }
  }

  lemma {:induction false} OneMoreSlot(h: seq<Record>, cutoff: int, i: int, b: Bucket)
    requires 0 <= i < 24 && SlotOk(h, i, b)
    ensures CountOf(h, FromSlots(h, cutoff, i + 1)) == CountOf(h, FromSlots(h, cutoff, i)) + Contribution(b, cutoff)
  {
    CountSplit(h, FromSlots(h, cutoff, i + 1), FromSlots(h, cutoff, i), FromSlot(h, cutoff, i));
    SlotCountsItsSurvivors(h, cutoff, i, b);
  }

  // ---- How far the counter is off, bucket by bucket ----

  /** The one hour of the window that belongs in slot i. */
  function WindowHour(now: int, i: int): int {
    TruncDiv(now, 3600) - (TruncDiv(now, 3600) - i) % 24
  }

  /** What a bucket adds to the count beyond the events of its slot's window hour. */
  ghost function SlotError(h: seq<Record>, b: Bucket, now: int, i: int): int {
    if b.hour > TruncDiv(now, 3600) then b.count - CountOf(h, InHour(WindowHour(now, i)))
    else if WindowHour(now, i) < 0 then 0 - CountOf(h, InHour(WindowHour(now, i)))
    else 0
  }

  ghost function ErrorSum(h: seq<Record>, bs: seq<Bucket>, now: int): int {
    if |bs| == 0 then 0 else ErrorSum(h, bs[..|bs| - 1], now) + SlotError(h, bs[|bs| - 1], now, |bs| - 1)
  }

  lemma {:induction false} WindowHourIsUnique(now: int, i: int, hour: int)
    requires 0 <= i < 24
    ensures WindowHour(now, i) % 24 == i
    ensures TruncDiv(now, 3600) - 23 <= WindowHour(now, i) <= TruncDiv(now, 3600)
    ensures TruncDiv(now, 3600) - 23 <= hour <= TruncDiv(now, 3600) && hour % 24 == i ==> hour == WindowHour(now, i)
  {
    hide TruncDiv;
  }

  lemma {:induction false} SlotErrorIsExact(h: seq<Record>, b: Bucket, now: int, i: int)
    requires 0 <= i < 24 && SlotOk(h, i, b)
    ensures Contribution(b, TruncDiv(now, 3600) - 23) == CountOf(h, InHour(WindowHour(now, i))) + SlotError(h, b, now, i)
  {
    var hour, wh := TruncDiv(now, 3600), WindowHour(now, i);
    WindowHourIsUnique(now, i, b.hour);
    hide TruncDiv, WindowHour;
    if b.hour < wh {
      NothingLater(h, b, i, wh);
    }
  }

  lemma {:induction false} NothingLater(h: seq<Record>, b: Bucket, i: int, hour: int)
    requires SlotOk(h, i, b) && hour % 24 == i && hour > b.hour
    ensures CountOf(h, InHour(hour)) == 0
  {
    CountIsPositive(h, InHour(hour));
  }

  ghost function InWindowSlots(now: int, n: int): Record -> bool {
    (r: Record) => InWindow(now)(r) && Hour(r) % 24 < n
  }

  lemma {:induction false} WindowSlotBySlot(h: seq<Record>, now: int, i: int)
    requires 0 <= i < 24
    ensures CountOf(h, InWindowSlots(now, i + 1)) == CountOf(h, InWindowSlots(now, i)) + CountOf(h, InHour(WindowHour(now, i)))
  {
    forall r ensures InHour(WindowHour(now, i))(r) <==> InWindow(now)(r) && Hour(r) % 24 == i {
      WindowHourIsUnique(now, i, Hour(r));
    }
    CountSplit(h, InWindowSlots(now, i + 1), InWindowSlots(now, i), InHour(WindowHour(now, i)));
  }

  lemma {:induction false} PartialErrorIsExact(h: seq<Record>, bs: seq<Bucket>, now: int)
    requires |bs| <= 24 && forall i :: 0 <= i < |bs| ==> SlotOk(h, i, bs[i])
    ensures CountOf(h, FromSlots(h, TruncDiv(now, 3600) - 23, |bs|)) == CountOf(h, InWindowSlots(now, |bs|)) + ErrorSum(h, bs, now)
  {
    var n, cutoff := |bs| - 1, TruncDiv(now, 3600) - 23;
    if n < 0 {
      CountIsPositive(h, FromSlots(h, cutoff, 0));
      CountIsPositive(h, InWindowSlots(now, 0));
    } else {
      PartialErrorIsExact(h, bs[..n], now);
      OneMoreSlot(h, cutoff, n, bs[n]);
      WindowSlotBySlot(h, now, n);
      SlotErrorIsExact(h, bs[n], now, n);
    }
  }

  /**
    For every history: the count is that of the window plus the slot errors. A slot errs only if it
    holds an hour later than now's, by what it holds less what it hides; or if its window hour lies
    before the epoch. So the counter is right if and only if these add up to nothing.
  */
  lemma {:induction false} CounterErrorIsExact(h: seq<Record>, bs: seq<Bucket>, now: int)
    requires |bs| == 24 && forall i :: 0 <= i < 24 ==> SlotOk(h, i, bs[i])
    ensures CountOf(h, Surviving(h, TruncDiv(now, 3600) - 23)) == CountOf(h, InWindow(now)) + ErrorSum(h, bs, now)
    ensures CountOf(h, Surviving(h, TruncDiv(now, 3600) - 23)) == CountOf(h, InWindow(now)) <==> ErrorSum(h, bs, now) == 0
  {
    PartialErrorIsExact(h, bs, now);
    CountSame(h, FromSlots(h, TruncDiv(now, 3600) - 23, 24), Surviving(h, TruncDiv(now, 3600) - 23));
    CountSame(h, InWindowSlots(now, 24), InWindow(now));
  }

  /** No error at all, at any time a day or more after the epoch, when no bucket holds a later hour. */
  lemma {:induction false} NothingAheadNoError(h: seq<Record>, bs: seq<Bucket>, now: int)
    requires |bs| <= 24 && TruncDiv(now, 3600) >= 23
    requires forall i :: 0 <= i < |bs| ==> bs[i].hour <= TruncDiv(now, 3600)
    ensures ErrorSum(h, bs, now) == 0
  {
    if |bs| > 0 {
      NothingAheadNoError(h, bs[..|bs| - 1], now);
      WindowHourIsUnique(now, |bs| - 1, 0);
    }
  }

  /** One event an hour ahead: counted, although the window is empty. */
  lemma {:induction false} AheadIsCounted(r: Record, now: int)
    requires Internal(r.cause) && Hour(r) == TruncDiv(now, 3600) + 1 && now >= 0
    ensures CountOf([r], Surviving([r], TruncDiv(now, 3600) - 23)) == 1 && CountOf([r], InWindow(now)) == 0
  {
    assert [r][..0] == [];
  }

  class Window {
    const buckets: array<Bucket>
    ghost var history: seq<Record>

    ghost predicate Valid()
      reads this, buckets
    {
      buckets.Length == 24 && forall i :: 0 <= i < 24 ==> SlotOk(history, i, buckets[i])
    }

    constructor ()
      ensures Valid() && history == [] && fresh(buckets)
    {
      buckets := new Bucket[24](_ => Bucket(0, 0));
      history := [];
    }

    method Add(cause: string, at: int)
      requires Valid()
      modifies this, buckets
      ensures Valid() && history == old(history) + [Record(cause, at)]
    {
      ghost var r := Record(cause, at);
      if Internal(cause) {
        var h := TruncDiv(at, 3600);
        var slot := Slot(h);
        SlotIsMod(h);
        if buckets[slot].hour <= h {
          SlotTakes(history, slot, buckets[slot], r);
          if buckets[slot].hour != h {
            buckets[slot] := Bucket(h, 0);
          }
          buckets[slot] := Bucket(buckets[slot].hour, buckets[slot].count + 1);
        }
      }
      forall i | 0 <= i < 24
        ensures SlotOk(history + [r], i, buckets[i])
      {
        if !Internal(cause) || i != Hour(r) % 24 || Hour(r) < buckets[i].hour {
          SlotKept(history, i, old(buckets[i]), r);
        }
      }
      history := history + [r];
    }

    /** Exactly the surviving events from the cutoff hour on. */
    method Count(now: int) returns (total: nat)
      requires Valid()
      ensures total == CountOf(history, Surviving(history, TruncDiv(now, 3600) - 23))
      ensures (forall r :: r in history && Internal(r.cause) ==> 0 <= Hour(r) <= TruncDiv(now, 3600)) ==>
                total == CountOf(history, InWindow(now))
      ensures total == CountOf(history, InWindow(now)) + ErrorSum(history, buckets[..], now)
      // with nothing before the epoch or ahead of now: the internal gaps of this hour and the 23 before it
      ensures NoneAheadInSeconds(history, now) ==>
                total == CountOf(history, InternalSince(now - now % 3600 - 23 * 3600))
    {
      var cutoff := TruncDiv(now, 3600) - 23;
      total := 0;
      CountIsPositive(history, FromSlots(history, cutoff, 0));
      for i := 0 to 24
        invariant total == CountOf(history, FromSlots(history, cutoff, i))
      {
        OneMoreSlot(history, cutoff, i, buckets[i]);
        var b := buckets[i];
        if b.count > 0 && b.hour >= cutoff {
          total := total + b.count;
        }
      }
      CountSame(history, FromSlots(history, cutoff, 24), Surviving(history, cutoff));
      CounterErrorIsExact(history, buckets[..], now);
      if forall r :: r in history && Internal(r.cause) ==> 0 <= Hour(r) <= TruncDiv(now, 3600) {
        SurvivorsAreTheWindow(history, now);
      }
      if NoneAheadInSeconds(history, now) {
        WindowInSeconds(history, now);
      }
    }

    method Populate(records: seq<Record>)
      requires Valid()
      modifies this, buckets
      ensures Valid() && history == old(history) + records
    {
      for i := 0 to |records|
        invariant Valid() && history == old(history) + records[..i]
      {
        Add(records[i].cause, records[i].at);
        assert records[..i + 1] == records[..i] + [records[i]];
      }
      assert records[..|records|] == records;
    }
  }
}
