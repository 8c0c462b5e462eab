/**
  The aggregator's in-memory L2 order book (aggregator/internal/orderbook/orderbook.go).

  The book discards every delta whose sequence number it has already passed. The lemmas
  compare it with the "truth": the log of all deltas replayed with no discarding at all.
*/
module OrderBooks {
  import opened Options

  /** The source's Side is a byte; every value other than bid and ask is `Unknown`. */
  datatype Side = Bid | Ask | Unknown

  datatype Delta = Delta(seqNo: nat, side: Side, price: string, size: string)
  {
    /** The deltas the book does not silently drop for their content. */
    predicate WellFormed() {
      side != Unknown && price != ""
    }

    predicate Removes() {
      size == "0" || size == ""
    }
  }

  datatype Levels = Levels(bids: map<string, string>, asks: map<string, string>)
  {
    function Lookup(side: Side, price: string): Option<string> {
      var m := if side == Bid then bids else asks;
      if price in m then Some(m[price]) else None
    }
  }

  datatype Book = Book(lastSeq: nat, levels: Levels)

  // ---- The truth: a log of deltas with nothing discarded ----

  function SetLevel(m: map<string, string>, d: Delta): map<string, string> {
    if d.Removes() then m - {d.price} else m[d.price := d.size]
  }

  function Touch(l: Levels, d: Delta): Levels {
    if !d.WellFormed() then l
    else if d.side == Bid then l.(bids := SetLevel(l.bids, d))
    else l.(asks := SetLevel(l.asks, d))
  }

  function Truth(init: Levels, log: seq<Delta>): Levels {
    if log == [] then init else Touch(Truth(init, log[..|log| - 1]), log[|log| - 1])
  }

  /** log[i] carries sequence number base + i + 1. */
  ghost predicate Contiguous(base: nat, log: seq<Delta>) {
    forall i :: 0 <= i < |log| ==> log[i].seqNo == base + i + 1
  }

  predicate Writes(d: Delta, side: Side, price: string) {
    d.WellFormed() && d.side == side && d.price == price
  }

  /** What a level of the true book holds: the size its last writer gave it. */
  lemma {:induction false} TruthIsLastWriter(init: Levels, log: seq<Delta>, side: Side, price: string, i: nat)
    requires i < |log| && Writes(log[i], side, price)
    requires forall j :: i < j < |log| ==> !Writes(log[j], side, price)
    ensures Truth(init, log).Lookup(side, price) == if log[i].Removes() then None else Some(log[i].size)
    decreases |log|
  {
    var n := |log| - 1;
    if i < n {
      assert forall j :: i < j < n ==> log[..n][j] == log[j];
      TruthIsLastWriter(init, log[..n], side, price, i);
    }
  }

  /** ... and a level nothing wrote is as it was. */
  lemma {:induction false} TruthKeepsUnwritten(init: Levels, log: seq<Delta>, side: Side, price: string)
    requires side != Unknown && forall j :: 0 <= j < |log| ==> !Writes(log[j], side, price)
    ensures Truth(init, log).Lookup(side, price) == init.Lookup(side, price)
  {
    if log != [] {
      var n := |log| - 1;
      assert forall j :: 0 <= j < n ==> log[..n][j] == log[j];
      TruthKeepsUnwritten(init, log[..n], side, price);
    }
  }

  // ---- The book: deltas at or below lastSeq are discarded ----

  function ApplyDelta(b: Book, d: Delta): Book {
    if d.seqNo <= b.lastSeq || !d.WellFormed() then b else Book(d.seqNo, Touch(b.levels, d))
  }

  function Replay(b: Book, ds: seq<Delta>): Book {
    if ds == [] then b else ApplyDelta(Replay(b, ds[..|ds| - 1]), ds[|ds| - 1])
  }

  /** The largest of `from` and the sequence numbers of the deltas selected by `wellFormedOnly`. */
  function MaxSeq(from: nat, ds: seq<Delta>, wellFormedOnly: bool): nat {
    if ds == [] then from
    else
      var m := MaxSeq(from, ds[..|ds| - 1], wellFormedOnly);
      var d := ds[|ds| - 1];
      if (!wellFormedOnly || d.WellFormed()) && d.seqNo > m then d.seqNo else m
  }

  lemma {:induction false} MaxSeqBounds(from: nat, ds: seq<Delta>, wellFormedOnly: bool)
    ensures MaxSeq(from, ds, wellFormedOnly) >= from
    ensures forall i :: 0 <= i < |ds| && (!wellFormedOnly || ds[i].WellFormed()) ==>
              ds[i].seqNo <= MaxSeq(from, ds, wellFormedOnly)
    ensures MaxSeq(from, ds, wellFormedOnly) == from ||
            exists i :: 0 <= i < |ds| && (!wellFormedOnly || ds[i].WellFormed()) && ds[i].seqNo == MaxSeq(from, ds, wellFormedOnly)
  {
    if ds != [] {
      var n := |ds| - 1;
      MaxSeqBounds(from, ds[..n], wellFormedOnly);
      forall i | 0 <= i < n ensures ds[i] == ds[..n][i] {}
      if MaxSeq(from, ds, wellFormedOnly) != from && MaxSeq(from, ds, wellFormedOnly) != ds[n].seqNo {
        var i :| 0 <= i < n && (!wellFormedOnly || ds[..n][i].WellFormed())
                 && ds[..n][i].seqNo == MaxSeq(from, ds[..n], wellFormedOnly);
        assert ds[i].seqNo == MaxSeq(from, ds, wellFormedOnly);
      }
    }
  }

  /** `lastSeq` is the running maximum of the well-formed sequence numbers. */
  lemma {:induction false} LastSeqIsRunningMax(b: Book, ds: seq<Delta>)
    ensures Replay(b, ds).lastSeq == MaxSeq(b.lastSeq, ds, true)
  {
    if ds != [] {
      LastSeqIsRunningMax(b, ds[..|ds| - 1]);
    }
  }

  /** Redelivering any deltas the book has already been given, in any order, changes nothing. */
  lemma {:induction false} RedeliveryIsNoOp(b: Book, ds: seq<Delta>, again: seq<Delta>)
    requires forall d :: d in again ==> d in ds
    ensures Replay(b, ds + again) == Replay(b, ds)
    decreases |again|
  {
    if again == [] {
      assert ds + again == ds;
    } else {
      var n := |again| - 1;
      assert (ds + again)[..|ds + again| - 1] == ds + again[..n];
      RedeliveryIsNoOp(b, ds, again[..n]);
      assert again[n] in ds;
      var i :| 0 <= i < |ds| && ds[i] == again[n];
      LastSeqIsRunningMax(b, ds);
      MaxSeqBounds(b.lastSeq, ds, true);
    }
  }

  // ---- Delivery against a contiguous log ----

  /**
    Deliveries of a contiguous log above a snapshot at `s`: everything above `s` comes from the
    log unchanged, and no delivery skips past the next number. Duplicates, reorderings and
    deltas from below the snapshot may be mixed in.
  */
  ghost predicate DeliveredFrom(base: nat, log: seq<Delta>, s: nat, ds: seq<Delta>)
    requires base <= s
  {
    forall i :: 0 <= i < |ds| ==>
      && ds[i].seqNo <= MaxSeq(s, ds[..i], false) + 1
      && (ds[i].seqNo > s ==> ds[i].seqNo <= base + |log| && ds[i] == log[ds[i].seqNo - base - 1])
  }

  lemma {:induction false} DeliveredPrefix(base: nat, log: seq<Delta>, s: nat, ds: seq<Delta>)
    requires ds != [] && base <= s && DeliveredFrom(base, log, s, ds)
    ensures DeliveredFrom(base, log, s, ds[..|ds| - 1])
  {
    var n := |ds| - 1;
    hide MaxSeq;
    forall i | 0 <= i < n
      ensures ds[..n][i] == ds[i] && ds[..n][..i] == ds[..i]
    {
      PrefixOfPrefix(ds, n, i);
    }
  }

  lemma {:induction false} PrefixOfPrefix(ds: seq<Delta>, n: nat, i: nat)
    requires i <= n <= |ds|
    ensures ds[..n][..i] == ds[..i]
  {}

  lemma {:induction false} DeliveredBelowTop(base: nat, log: seq<Delta>, s: nat, ds: seq<Delta>)
    requires base <= s <= base + |log| && DeliveredFrom(base, log, s, ds)
    ensures s <= MaxSeq(s, ds, false) <= base + |log|
  {
    MaxSeqBounds(s, ds, false);
  }

  /** The book `b` agrees with the log up to `top`: same levels, and anything above lastSeq was malformed. */
  ghost predicate InStep(init: Levels, base: nat, log: seq<Delta>, b: Book, top: nat)
    requires base <= top <= base + |log|
  {
    && b.levels == Truth(init, log[..top - base])
    && base <= b.lastSeq <= top
    && forall i :: b.lastSeq - base <= i < top - base ==> !log[i].WellFormed()
  }

  lemma {:induction false} InStepAdvances(init: Levels, base: nat, log: seq<Delta>, b: Book, top: nat, d: Delta)
    requires Contiguous(base, log) && base <= top <= base + |log| && InStep(init, base, log, b, top)
    requires d.seqNo <= top + 1
    requires d.seqNo > b.lastSeq ==> d.seqNo <= base + |log| && d == log[d.seqNo - base - 1]
    ensures InStep(init, base, log, ApplyDelta(b, d), if d.seqNo > top then d.seqNo else top)
  {
    if d.seqNo == top + 1 {
      assert log[..top + 1 - base][..top - base] == log[..top - base];
    }
  }

  /**
    A book seeded with the true levels at `s` and fed such deliveries holds the true levels at
    the highest number delivered. Numbers it has passed without moving lastSeq were malformed.
  */
  lemma {:induction false} DeliveryReachesTruth(init: Levels, base: nat, log: seq<Delta>, s: nat, ds: seq<Delta>)
    requires Contiguous(base, log) && base <= s <= base + |log|
    requires DeliveredFrom(base, log, s, ds)
    ensures s <= MaxSeq(s, ds, false) <= base + |log|
    ensures InStep(init, base, log, Replay(Book(s, Truth(init, log[..s - base])), ds), MaxSeq(s, ds, false))
  {
    hide Truth, InStep;
    DeliveredBelowTop(base, log, s, ds);
    var b0 := Book(s, Truth(init, log[..s - base]));
    if ds == [] {
      SeedInStep(init, base, log, s);
    } else {
      var n := |ds| - 1;
      var earlier, d := ds[..n], ds[n];
      DeliveredPrefix(base, log, s, ds);
      DeliveryReachesTruth(init, base, log, s, earlier);
      var b, top := Replay(b0, earlier), MaxSeq(s, earlier, false);
      assert b.lastSeq >= s by {
        LastSeqIsRunningMax(b0, earlier);
        MaxSeqBounds(s, earlier, true);
      }
      InStepAdvances(init, base, log, b, top, d);
    }
  }

  lemma {:induction false} SeedInStep(init: Levels, base: nat, log: seq<Delta>, s: nat)
    requires base <= s <= base + |log|
    ensures InStep(init, base, log, Book(s, Truth(init, log[..s - base])), s)
  {}

  /** The class of the source: fields updated in place. */
  class OrderBook {
    var lastSeq: nat
    var bids: map<string, string>
    var asks: map<string, string>

    ghost function View(): Book
      reads this
    {
      Book(lastSeq, Levels(bids, asks))
    }

    constructor ()
      ensures View() == Book(0, Levels(map[], map[]))
    {
      lastSeq, bids, asks := 0, map[], map[];
    }

    method Apply(d: Delta)
      modifies this
      ensures View() == ApplyDelta(old(View()), d)
    {
      if d.seqNo <= lastSeq {
        return;
      }
      if d.side != Bid && d.side != Ask {
        return;
      }
      if d.price == "" {
        return;
      }
      lastSeq := d.seqNo;
      var levels := if d.side == Bid then bids else asks;
      if d.size == "0" || d.size == "" {
        levels := levels - {d.price};
      } else {
        levels := levels[d.price := d.size];
      }
      if d.side == Bid {
        bids := levels;
      } else {
        asks := levels;
      }
    }

    method Reset()
      modifies this
      ensures View() == Book(0, Levels(map[], map[]))
    {
      lastSeq, bids, asks := 0, map[], map[];
    }

    method ApplySnapshot(seqNo: nat, newBids: map<string, string>, newAsks: map<string, string>)
      modifies this
      ensures View() == Book(seqNo, Levels(newBids, newAsks))
    {
      lastSeq, bids, asks := seqNo, newBids, newAsks;
    }

    /** A copy of the book; the caller's copy is a value, so later updates cannot reach it. */
    method Snapshot() returns (s: Book)
      ensures s == View()
    {
      s := Book(lastSeq, Levels(bids, asks));
    }
  }
}
