/**
  The snapshot/delta merge state machine (aggregator/internal/reconnect/reconnect.go) and what
  a merge means for the order book.
*/
module Reconnect {
  import opened Options
  import opened OrderBooks

  const MAX_UINT64: nat := 0xFFFF_FFFF_FFFF_FFFF

  datatype State = Initial | Buffering | Live

  /** The sequence numbers of the buffer that lie above the snapshot, in buffer order. */
  function Above(buffer: seq<nat>, snapshot: nat): seq<nat> {
    if buffer == [] then []
    else
      var rest := Above(buffer[..|buffer| - 1], snapshot);
      if buffer[|buffer| - 1] > snapshot then rest + [buffer[|buffer| - 1]] else rest
  }

  /** The snapshot ends before the oldest buffered delta begins, so numbers in between are lost. */
  predicate Stale(buffer: seq<nat>, snapshot: nat) {
    buffer != [] && snapshot < MAX_UINT64 && buffer[0] > snapshot + 1
  }

  class Machine {
    var state: State
    var buffer: seq<nat>

    constructor ()
      ensures state == Initial && buffer == []
    {
      state, buffer := Initial, [];
    }

    /** Moves to Buffering and keeps whatever is already buffered. */
    method NeedsSnapshotNow(reason: string) returns (ns: string)
      modifies this
      ensures state == Buffering && buffer == old(buffer) && ns == reason
    {
      state := Buffering;
      ns := reason;
    }

    method Feed(seqNo: nat)
      modifies this
      ensures state == old(state)
      ensures buffer == if state == Buffering then old(buffer) + [seqNo] else old(buffer)
    {
      if state != Buffering {
        return;
      }
      buffer := buffer + [seqNo];
    }

    method MergeSnapshot(snapshot: nat) returns (replay: seq<nat>, ns: Option<string>)
      modifies this
      ensures old(state) != Buffering ==>
                replay == [] && ns == None && state == old(state) && buffer == old(buffer)
      ensures old(state) == Buffering && Stale(old(buffer), snapshot) ==>
                replay == [] && ns == Some("merge_error") && state == Buffering && buffer == old(buffer)
      ensures old(state) == Buffering && !Stale(old(buffer), snapshot) ==>
                replay == Above(old(buffer), snapshot) && ns == None && state == Live && buffer == []
    {
      replay, ns := [], None;
      if state != Buffering {
        return;
      }
      if |buffer| > 0 && snapshot < MAX_UINT64 && buffer[0] > snapshot + 1 {
        ns := Some("merge_error");
        return;
      }
      for i := 0 to |buffer|
        invariant replay == Above(buffer[..i], snapshot)
        invariant buffer == old(buffer) && state == Buffering
      {
        assert buffer[..i + 1][..i] == buffer[..i];
        if buffer[i] > snapshot {
          replay := replay + [buffer[i]];
        }
      }
      assert buffer[..|buffer|] == buffer;
      buffer := [];
      state := Live;
    }

    method GoLive()
      modifies this
      ensures state == Live && buffer == []
    {
      buffer := [];
      state := Live;
    }
  }

  // ---- What an accepted merge returns ----

  /** lo + 1, lo + 2, ..., hi. */
  function Numbers(lo: nat, hi: nat): seq<nat>
    requires lo <= hi
  {
    seq(hi - lo, i requires 0 <= i => lo + 1 + i)
  }

  function SeqNos(ds: seq<Delta>): seq<nat> {
    seq(|ds|, i requires 0 <= i < |ds| => ds[i].seqNo)
  }

  lemma {:induction false} NumbersSnoc(lo: nat, hi: nat)
    requires lo < hi
    ensures |Numbers(lo, hi)| == hi - lo && Numbers(lo, hi)[hi - lo - 1] == hi && Numbers(lo, hi)[..hi - lo - 1] == Numbers(lo, hi - 1)
    ensures Numbers(lo, hi) == Numbers(lo, hi - 1) + [hi]
  {}

  lemma {:induction false} AboveSnoc(buffer: seq<nat>, x: nat, s: nat)
    ensures Above(buffer + [x], s) == Above(buffer, s) + if x > s then [x] else []
  {
    assert (buffer + [x])[..|buffer|] == buffer;
  }

  lemma {:induction false} NoNumbers(n: nat, s: nat)
    ensures Numbers(n, n) == [] && Above(Numbers(n, n), s) == []
  {}

  lemma {:induction false} AboveOfRange(lo: nat, hi: nat, s: nat)
    requires lo <= hi && (lo < hi ==> lo <= s)
    ensures Above(Numbers(lo, hi), s) == if lo < hi && s < hi then Numbers(s, hi) else []
    decreases hi
  {
    hide Above, Numbers;
    if lo == hi {
      NoNumbers(lo, s);
    } else {
      NumbersSnoc(lo, hi);
      AboveSnoc(Numbers(lo, hi - 1), hi, s);
      AboveOfRange(lo, hi - 1, s);
      if s < hi {
        NumbersSnoc(s, hi);
        NoNumbers(s, s);
      }
    }
  }

  /** The highest number known after snapshot `s` and log entries first..last (as indices). */
  function Top(base: nat, s: nat, first: nat, last: nat): nat {
    if first < last && s < base + last then base + last else s
  }

  lemma {:induction false} MaxSeqOfRange(base: nat, log: seq<Delta>, s: nat, first: nat, last: nat)
    requires Contiguous(base, log) && first <= last <= |log|
    ensures MaxSeq(s, log[first..last], false) == Top(base, s, first, last)
    decreases last
  {
    if first < last {
      var ds := log[first..last];
      assert ds[..|ds| - 1] == log[first..last - 1];
      MaxSeqOfRange(base, log, s, first, last - 1);
    }
  }

  lemma {:induction false} RangeOfLogDelivers(base: nat, log: seq<Delta>, s: nat, first: nat, last: nat)
    requires Contiguous(base, log) && base <= s <= base + |log|
    requires first <= last <= |log| && (first < last ==> base + first <= s)
    ensures DeliveredFrom(base, log, s, log[first..last])
  {
    var ds := log[first..last];
    hide MaxSeq;
    forall i | 0 <= i < |ds|
      ensures ds[i].seqNo <= MaxSeq(s, ds[..i], false) + 1
    {
      SliceOfSlice(log, first, last, i);
      MaxSeqOfRange(base, log, s, first, first + i);
    }
  }

  lemma {:induction false} SliceOfSlice(log: seq<Delta>, first: nat, last: nat, i: nat)
    requires first <= last <= |log| && i <= last - first
    ensures log[first..last][..i] == log[first..first + i]
  {
  }

  /** Replaying log entries first..last on the true book at `s` gives the true book at the top. */
  lemma {:induction false} ReplayRangeReachesTruth(init: Levels, base: nat, log: seq<Delta>, s: nat, first: nat, last: nat)
    requires Contiguous(base, log) && base <= s <= base + |log|
    requires first <= last <= |log| && (first < last ==> base + first <= s)
    ensures Replay(Book(s, Truth(init, log[..s - base])), log[first..last]).levels
              == Truth(init, log[..Top(base, s, first, last) - base])
  {
    RangeOfLogDelivers(base, log, s, first, last);
    MaxSeqOfRange(base, log, s, first, last);
    DeliveryReachesTruth(init, base, log, s, log[first..last]);
  }

  /** The buffered deltas that lie above the snapshot. */
  function Newer(base: nat, log: seq<Delta>, s: nat, first: nat, last: nat): seq<Delta>
    requires base <= s <= base + |log| && first <= last <= |log|
  {
    if first < last && s < base + last then log[s - base..last] else []
  }

  lemma {:induction false} SeqNosOfRange(base: nat, log: seq<Delta>, first: nat, last: nat)
    requires Contiguous(base, log) && first <= last <= |log|
    ensures SeqNos(log[first..last]) == Numbers(base + first, base + last)
  {}

  /** A buffer without holes is accepted exactly if no number between the snapshot and the buffer's end is missing from it. */
  lemma {:induction false} AcceptedIffNothingMissing(buffer: seq<nat>, snapshot: nat)
    requires forall i :: 0 <= i < |buffer| ==> buffer[i] == buffer[0] + i <= MAX_UINT64
    ensures !Stale(buffer, snapshot) <==> forall k :: buffer != [] && snapshot < k <= buffer[|buffer| - 1] ==> k in buffer
  {
    if Stale(buffer, snapshot) {
      var lost := snapshot + 1;
      assert buffer[|buffer| - 1] == buffer[0] + (|buffer| - 1) && lost !in buffer;
      assert snapshot < lost <= buffer[|buffer| - 1];
    } else {
      forall k | buffer != [] && snapshot < k <= buffer[|buffer| - 1] ensures k in buffer {
        assert buffer[|buffer| - 1] == buffer[0] + (|buffer| - 1);
        assert buffer[k - buffer[0]] == k;
      }
    }
  }

  /** An accepted merge returns exactly the buffered numbers above the snapshot, in order. */
  lemma {:induction false} MergeReturnsNewer(base: nat, log: seq<Delta>, s: nat, first: nat, last: nat)
    requires Contiguous(base, log) && base <= s <= base + |log| && first <= last <= |log|
    requires first < last ==> base + first <= s
    ensures Above(SeqNos(log[first..last]), s) == SeqNos(Newer(base, log, s, first, last))
  {
    hide Above, SeqNos, Numbers;
    SeqNosOfRange(base, log, first, last);
    AboveOfRange(base + first, base + last, s);
    if first < last && s < base + last {
      SeqNosOfRange(base, log, s - base, last);
    } else {
      SeqNosOfNothing([]);
    }
  }

  lemma {:induction false} SeqNosOfNothing(ds: seq<Delta>)
    requires |ds| == 0
    ensures SeqNos(ds) == []
  {}

  lemma {:induction false} NotStaleMeansOverlap(base: nat, log: seq<Delta>, s: nat, first: nat, last: nat)
    requires Contiguous(base, log) && first <= last <= |log| && s < MAX_UINT64 && !Stale(SeqNos(log[first..last]), s)
    ensures first < last ==> base + first <= s
  {
    if first < last {
      assert SeqNos(log[first..last])[0] == base + first + 1;
    }
  }

  /**
    Merge correctness. The log holds deltas base+1, base+2, ...; the snapshot is the true book at
    `s`; log entries first..last were buffered. If the machine accepts, replaying either the
    returned deltas or the whole overlapping buffer on the snapshot gives the true book at the top.
  */
  lemma {:induction false} MergeRestoresTruth(init: Levels, base: nat, log: seq<Delta>, s: nat, first: nat, last: nat)
    requires Contiguous(base, log) && base <= s <= base + |log| && first <= last <= |log|
    requires s < MAX_UINT64 && !Stale(SeqNos(log[first..last]), s)
    ensures Above(SeqNos(log[first..last]), s) == SeqNos(Newer(base, log, s, first, last))
    ensures Replay(Book(s, Truth(init, log[..s - base])), Newer(base, log, s, first, last)).levels
              == Truth(init, log[..Top(base, s, first, last) - base])
    ensures Replay(Book(s, Truth(init, log[..s - base])), log[first..last]).levels
              == Truth(init, log[..Top(base, s, first, last) - base])
  {
    NotStaleMeansOverlap(base, log, s, first, last);
    hide Stale, SeqNos, Above;
    MergeReturnsNewer(base, log, s, first, last);
    hide Truth, Replay, Contiguous;
    ReplayRangeReachesTruth(init, base, log, s, first, last);
    ReplayNewerReachesTruth(init, base, log, s, first, last);
  }

  lemma {:induction false} ReplayNewerReachesTruth(init: Levels, base: nat, log: seq<Delta>, s: nat, first: nat, last: nat)
    requires Contiguous(base, log) && base <= s <= base + |log|
    requires first <= last <= |log| && (first < last ==> base + first <= s)
    ensures Replay(Book(s, Truth(init, log[..s - base])), Newer(base, log, s, first, last)).levels
              == Truth(init, log[..Top(base, s, first, last) - base])
  {
    hide Truth, Contiguous;
    if first < last && s < base + last {
      hide Replay;
      ReplayRangeReachesTruth(init, base, log, s, s - base, last);
    }
  }

  // ---- What happens when the caller throws the returned numbers away ----

  /** Whatever the log up to `top` contained, the true book at `s` is still the true book at `top`. */
  ghost predicate SnapshotIsCurrent(base: nat, s: nat, top: nat)
    requires base <= s <= top
  {
    forall init: Levels, log: seq<Delta> {:trigger Truth(init, log), Contiguous(base, log)} ::
      Contiguous(base, log) && |log| == top - base ==> Truth(init, log[..s - base]) == Truth(init, log)
  }

  /** A log that keeps one level away up to the snapshot and sets it afterwards. */
  function Misleading(base: nat, s: nat, top: nat): seq<Delta>
    requires base <= s <= top
  {
    seq(top - base, i requires 0 <= i => Delta(base + i + 1, Bid, "1", if base + i + 1 <= s then "0" else "1"))
  }

  lemma {:induction false} MisleadingMisleads(base: nat, s: nat, top: nat)
    requires base <= s < top
    ensures !SnapshotIsCurrent(base, s, top)
  {
    var log, init := Misleading(base, s, top), Levels(map[], map[]);
    var early := log[..s - base];
    hide Truth;
    TruthIsLastWriter(init, log, Bid, "1", top - base - 1);
    if s > base {
      TruthIsLastWriter(init, early, Bid, "1", s - base - 1);
    } else {
      TruthKeepsUnwritten(init, early, Bid, "1");
    }
    assert Truth(init, log).Lookup(Bid, "1") != Truth(init, early).Lookup(Bid, "1");
    assert Contiguous(base, log) && |log| == top - base;
  }

  /**
    The worker goes live on the snapshot alone. That book is the true one, whatever the buffered
    deltas contained, if and only if the merge returned nothing to replay.
  */
  lemma {:induction false} DiscardingReplayIsSoundIff(base: nat, s: nat, first: nat, last: nat)
    requires base <= s && first <= last && (first < last ==> base + first <= s)
    ensures SnapshotIsCurrent(base, s, Top(base, s, first, last)) <==>
            Above(Numbers(base + first, base + last), s) == []
  {
    AboveOfRange(base + first, base + last, s);
    var top := Top(base, s, first, last);
    if first < last && s < base + last {
      assert |Numbers(s, base + last)| > 0;
      MisleadingMisleads(base, s, top);
    } else {
      forall init: Levels, log: seq<Delta> {:trigger Truth(init, log), Contiguous(base, log)}
        | Contiguous(base, log) && |log| == s - base
        ensures Truth(init, log[..s - base]) == Truth(init, log)
      {
        assert log[..s - base] == log;
      }
    }
  }

  // ---- What missing deltas do to the book, and for how long, level by level ----

  /** The deltas of `ds` that reach the book. */
  function Delivered(ds: seq<Delta>, kept: seq<bool>): seq<Delta>
    requires |kept| == |ds|
  {
    if |ds| == 0 then []
    else
      var n := |ds| - 1;
      Delivered(ds[..n], kept[..n]) + if kept[n] then [ds[n]] else []
  }

  /** `b` is `a` with other sizes where deltas are missing. */
  ghost predicate SameWhereKept(a: seq<Delta>, b: seq<Delta>, kept: seq<bool>)
    requires |kept| == |a|
  {
    && |a| == |b|
    && forall i :: 0 <= i < |a| ==> a[i] == b[i].(size := a[i].size) && (kept[i] ==> a[i] == b[i])
  }

  /** Live on the true book `seed` at `s`, with some of the deltas above it delivered: is the level right? */
  ghost predicate LevelIsRight(seed: Levels, s: nat, ds: seq<Delta>, kept: seq<bool>, side: Side, price: string)
    requires |kept| == |ds|
  {
    Replay(Book(s, seed), Delivered(ds, kept)).levels.Lookup(side, price) == Truth(seed, ds).Lookup(side, price)
  }

  ghost predicate WrittenIn(ds: seq<Delta>, lo: nat, hi: nat, side: Side, price: string) {
    exists i :: lo <= i < hi <= |ds| && Writes(ds[i], side, price)
  }

  predicate IsLastWriter(ds: seq<Delta>, i: nat, side: Side, price: string) {
    i < |ds| && Writes(ds[i], side, price) && forall j :: i < j < |ds| ==> !Writes(ds[j], side, price)
  }

  lemma {:induction false} LastWriterIn(ds: seq<Delta>, lo: nat, side: Side, price: string) returns (i: nat)
    requires WrittenIn(ds, lo, |ds|, side, price)
    ensures lo <= i && IsLastWriter(ds, i, side, price)
  {
    i := |ds| - 1;
    while !Writes(ds[i], side, price)
      invariant lo <= i < |ds|
      invariant exists k :: lo <= k <= i && Writes(ds[k], side, price)
      invariant forall j :: i < j < |ds| ==> !Writes(ds[j], side, price)
      decreases i
    {
      i := i - 1;
    }
  }

  function Written(d: Delta): Option<string> {
    if d.Removes() then None else Some(d.size)
  }

  lemma {:induction false} TouchLookup(l: Levels, d: Delta, side: Side, price: string)
    requires side != Unknown
    ensures Touch(l, d).Lookup(side, price) == if Writes(d, side, price) then Written(d) else l.Lookup(side, price)
  {}

  /** Of a contiguous run, whatever is delivered is applied. */
  lemma {:induction false} DeliveredReplays(seed: Levels, s: nat, ds: seq<Delta>, kept: seq<bool>)
    requires Contiguous(s, ds) && |kept| == |ds|
    ensures var b := Replay(Book(s, seed), Delivered(ds, kept));
            b.levels == Truth(seed, Delivered(ds, kept)) && b.lastSeq <= s + |ds|
  {
    if |ds| > 0 {
      var n := |ds| - 1;
      var before := Delivered(ds[..n], kept[..n]);
      DeliveredReplays(seed, s, ds[..n], kept[..n]);
      if kept[n] {
        assert (before + [ds[n]])[..|before|] == before;
      } else {
        assert before + [] == before;
      }
    }
  }

  lemma {:induction false} TruthSnoc(seed: Levels, ds: seq<Delta>, d: Delta)
    ensures Truth(seed, ds + [d]) == Touch(Truth(seed, ds), d)
  {
    assert (ds + [d])[..|ds|] == ds;
  }

  /** A delivered last writer decides the level. */
  lemma {:induction false} DeliveredLastWriter(seed: Levels, ds: seq<Delta>, kept: seq<bool>, i: nat, side: Side, price: string)
    requires |kept| == |ds| && side != Unknown && IsLastWriter(ds, i, side, price) && kept[i]
    ensures Truth(seed, Delivered(ds, kept)).Lookup(side, price) == Written(ds[i])
  {
    var n := |ds| - 1;
    var before := Delivered(ds[..n], kept[..n]);
    TruthSnoc(seed, before, ds[n]);
    TouchLookup(Truth(seed, before), ds[n], side, price);
    hide Truth, Touch;
    if i < n {
      assert forall j :: 0 <= j < n ==> ds[..n][j] == ds[j];
      DeliveredLastWriter(seed, ds[..n], kept[..n], i, side, price);
      assert before + [] == before;
    }
  }

  lemma {:induction false} DeliveredUnwritten(seed: Levels, ds: seq<Delta>, kept: seq<bool>, side: Side, price: string)
    requires |kept| == |ds| && side != Unknown && !WrittenIn(ds, 0, |ds|, side, price)
    ensures Truth(seed, Delivered(ds, kept)).Lookup(side, price) == seed.Lookup(side, price)
  {
    if |ds| > 0 {
      var n := |ds| - 1;
      var before := Delivered(ds[..n], kept[..n]);
      TruthSnoc(seed, before, ds[n]);
      TouchLookup(Truth(seed, before), ds[n], side, price);
      hide Truth, Touch;
      assert forall j :: 0 <= j < n ==> ds[..n][j] == ds[j];
      DeliveredUnwritten(seed, ds[..n], kept[..n], side, price);
      assert before + [] == before;
    }
  }

  lemma {:induction false} DeliveredSame(a: seq<Delta>, b: seq<Delta>, kept: seq<bool>)
    requires |kept| == |a| && SameWhereKept(a, b, kept)
    ensures Delivered(a, kept) == Delivered(b, kept)
  {
    if |a| > 0 {
      DeliveredSame(a[..|a| - 1], b[..|a| - 1], kept[..|a| - 1]);
    }
  }

  /** The last writer, if any, was delivered. */
  ghost predicate LastWriterKept(ds: seq<Delta>, kept: seq<bool>, side: Side, price: string)
    requires |kept| == |ds|
  {
    forall i :: 0 <= i < |ds| && IsLastWriter(ds, i, side, price) ==> kept[i]
  }

  lemma {:induction false} KeptWriterIsRight(seed: Levels, s: nat, ds: seq<Delta>, kept: seq<bool>, side: Side, price: string)
    requires Contiguous(s, ds) && |kept| == |ds| && side != Unknown && LastWriterKept(ds, kept, side, price)
    ensures LevelIsRight(seed, s, ds, kept, side, price)
  {
    DeliveredReplays(seed, s, ds, kept);
    hide Replay, Truth;
    if WrittenIn(ds, 0, |ds|, side, price) {
      var i := LastWriterIn(ds, 0, side, price);
      DeliveredLastWriter(seed, ds, kept, i, side, price);
      TruthIsLastWriter(seed, ds, side, price, i);
    } else {
      DeliveredUnwritten(seed, ds, kept, side, price);
      TruthKeepsUnwritten(seed, ds, side, price);
    }
  }

  /** Otherwise some size of the missing writer makes the level wrong. */
  lemma {:induction false} MissingWriterMisleads(seed: Levels, s: nat, ds: seq<Delta>, kept: seq<bool>, i: nat, side: Side, price: string)
    returns (other: seq<Delta>)
    requires Contiguous(s, ds) && |kept| == |ds| && IsLastWriter(ds, i, side, price) && !kept[i]
    ensures SameWhereKept(ds, other, kept) && !LevelIsRight(seed, s, other, kept, side, price)
  {
    var live := Replay(Book(s, seed), Delivered(ds, kept)).levels.Lookup(side, price);
    other := ds[i := ds[i].(size := if live.None? then "1" else "0")];
    assert IsLastWriter(other, i, side, price);
    DeliveredSame(ds, other, kept);
    hide Replay, Truth, Delivered;
    TruthIsLastWriter(seed, other, side, price, i);
  }

  lemma {:induction false} SameLastWriter(a: seq<Delta>, b: seq<Delta>, kept: seq<bool>, side: Side, price: string)
    requires |kept| == |a| && SameWhereKept(a, b, kept) && LastWriterKept(a, kept, side, price)
    ensures LastWriterKept(b, kept, side, price)
  {
    assert forall i :: 0 <= i < |a| ==> Writes(a[i], side, price) == Writes(b[i], side, price);
    forall i | 0 <= i < |b| && IsLastWriter(b, i, side, price) ensures kept[i] {
      assert IsLastWriter(a, i, side, price);
    }
  }

  /**
    Whatever subset of the deltas after the snapshot is missing: a level of the live book is the true one,
    whatever sizes the missing deltas carried, if and only if the last delta to write it was delivered, or none did.
  */
  lemma {:induction false} MissingDeltasIff(seed: Levels, s: nat, ds: seq<Delta>, kept: seq<bool>, side: Side, price: string)
    requires Contiguous(s, ds) && |kept| == |ds| && side != Unknown
    ensures (forall other :: SameWhereKept(ds, other, kept) ==> LevelIsRight(seed, s, other, kept, side, price)) <==>
            LastWriterKept(ds, kept, side, price)
  {
    hide LevelIsRight;
    if LastWriterKept(ds, kept, side, price) {
      forall other | SameWhereKept(ds, other, kept) ensures LevelIsRight(seed, s, other, kept, side, price) {
        SameLastWriter(ds, other, kept, side, price);
        hide LastWriterKept;
        KeptWriterIsRight(seed, s, other, kept, side, price);
      }
    } else {
      var i :| 0 <= i < |ds| && IsLastWriter(ds, i, side, price) && !kept[i];
      var other := MissingWriterMisleads(seed, s, ds, kept, i, side, price);
    }
  }

  /** All but the first `m` are delivered: what a merge that throws away its replay amounts to. */
  function AfterFirst(n: nat, m: nat): seq<bool> {
    seq(n, i => i >= m)
  }

  lemma {:induction false} DeliveredAfterFirst(ds: seq<Delta>, m: nat)
    requires m <= |ds|
    ensures Delivered(ds, AfterFirst(|ds|, m)) == ds[m..]
  {
    if |ds| > 0 {
      var n := |ds| - 1;
      assert AfterFirst(|ds|, m)[..n] == AfterFirst(n, m);
      if m <= n {
        DeliveredAfterFirst(ds[..n], m);
      } else {
        DeliveredAfterFirst(ds[..n], n);
        assert AfterFirst(n, n) == AfterFirst(n, m);
      }
    }
  }

  /**
    The worker goes live on the snapshot with the first `m` deltas above it thrown away: a level is the true
    one, whatever sizes they carried, if and only if none of them wrote it or a later delta did.
  */
  lemma {:induction false} LevelIsRightIff(seed: Levels, s: nat, ds: seq<Delta>, m: nat, side: Side, price: string)
    requires Contiguous(s, ds) && m <= |ds| && side != Unknown
    ensures Delivered(ds, AfterFirst(|ds|, m)) == ds[m..]
    ensures (forall other :: SameWhereKept(ds, other, AfterFirst(|ds|, m)) ==> LevelIsRight(seed, s, other, AfterFirst(|ds|, m), side, price)) <==>
            (!WrittenIn(ds, 0, m, side, price) || WrittenIn(ds, m, |ds|, side, price))
  {
    var kept := AfterFirst(|ds|, m);
    DeliveredAfterFirst(ds, m);
    MissingDeltasIff(seed, s, ds, kept, side, price);
    hide LevelIsRight, Delivered;
    if WrittenIn(ds, 0, |ds|, side, price) {
      var i := LastWriterIn(ds, 0, side, price);
      assert LastWriterKept(ds, kept, side, price) <==> i >= m;
      if i >= m {
        assert WrittenIn(ds, m, |ds|, side, price);
      } else {
        assert WrittenIn(ds, 0, m, side, price);
      }
    }
  }
}
