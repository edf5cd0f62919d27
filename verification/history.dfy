/** Whole signal histories: the store after a sequence of webhook signals,
    and what it is determined by. */
module History {
  import opened Wrappers
  import opened Domain
  import opened Tracker
  import opened Stats
  import PnL

  /** The store after logging and applying `recs` in arrival order. */
  function Run(s: Store, recs: seq<SignalRecord>): Store
    decreases |recs|
  {
    if |recs| == 0 then s
    else Ingest(Run(s, recs[..|recs| - 1]), recs[|recs| - 1]).store
  }

  /** The direction of a tradable signal, as a one-element sequence; empty
      for an informational one. */
  function DirectionOf(rec: SignalRecord): seq<Direction> {
    match ParseDirection(rec.signal)
    case Some(d) => [d]
    case None => []
  }

  /** The directions of the tradable signals of `recs`, in order. */
  function Tradable(recs: seq<SignalRecord>): seq<Direction> {
    if |recs| == 0 then []
    else Tradable(recs[..|recs| - 1]) + DirectionOf(recs[|recs| - 1])
  }

  /** The number of adjacent positions of `ds` where the direction changes. */
  function Changes(ds: seq<Direction>): nat {
    if |ds| < 2 then 0
    else Changes(ds[..|ds| - 1]) + (if ds[|ds| - 2] != ds[|ds| - 1] then 1 else 0)
  }

  /** The direction already held before a history starts, if any. */
  function Held(s: Store): seq<Direction> {
    match s.position
    case Some(p) => [p.direction]
    case None => []
  }

  /** Signal `rec`, arriving when the directions so far are `ds`, opens a
      position: it is tradable and either nothing is held yet or it reverses
      the last direction. */
  predicate OpensAfter(ds: seq<Direction>, rec: SignalRecord) {
    match ParseDirection(rec.signal)
    case Some(d) => |ds| == 0 || ds[|ds| - 1] != d
    case None => false
  }

  /** Every signal of `recs` that opens a position, starting from store `s`,
      carries a nonzero price. Repeats of the held direction and informational
      signals may carry any price. */
  predicate PricedOpenings(s: Store, recs: seq<SignalRecord>) {
    forall i :: 0 <= i < |recs| ==> PricedAt(s, recs, i)
  }

  /** Signal `i` of `recs` has a nonzero price if it opens a position. */
  predicate PricedAt(s: Store, recs: seq<SignalRecord>, i: nat)
    requires i < |recs|
  {
    OpensAfter(Held(s) + Tradable(recs[..i]), recs[i]) ==> recs[i].price != 0.0
  }

  /** The open position, if any, has a nonzero entry price. */
  predicate NonZeroEntry(s: Store) {
    s.position.Some? ==> s.position.value.entryPrice != 0.0
  }

  /** Every signal of a history is logged, in arrival order, whatever it did. */
  lemma {:induction false} RunLogsEverySignal(s: Store, recs: seq<SignalRecord>)
    ensures Run(s, recs).signals == s.signals + recs
  {
    if |recs| > 0 {
      var prefix := recs[..|recs| - 1];
      RunLogsEverySignal(s, prefix);
      assert recs == prefix + [recs[|recs| - 1]];
    }
  }

  /** A history keeps the store consistent: one unbroken, alternating chain of
      realised trades ending at the open position. */
  lemma {:induction false} RunPreservesConsistent(s: Store, recs: seq<SignalRecord>)
    requires Consistent(s)
    ensures Consistent(Run(s, recs))
  {
    if |recs| > 0 {
      RunPreservesConsistent(s, recs[..|recs| - 1]);
      IngestPreservesConsistent(Run(s, recs[..|recs| - 1]), recs[|recs| - 1]);
    }
  }

  /** Appending one direction adds a change exactly when it differs from the
      previous last direction. */
  lemma ChangesSnoc(ds: seq<Direction>, d: Direction)
    requires |ds| > 0
    ensures Changes(ds + [d]) == Changes(ds) + (if ds[|ds| - 1] != d then 1 else 0)
  {
    assert (ds + [d])[..|ds|] == ds;
  }

  /** The store `s` agrees with the direction sequence `ds`: it holds
      `base` trades more than `ds` has changes, and its position is held in the
      last direction of `ds`, or absent when `ds` is empty. */
  predicate Tracks(s: Store, ds: seq<Direction>, base: nat) {
    && |s.trades| == base + Changes(ds)
    && (s.position.None? <==> |ds| == 0)
    && (s.position.Some? ==> s.position.value.direction == ds[|ds| - 1])
  }

  /** One signal with a nonzero price if it opens a position keeps a store
      with a nonzero entry price tracking the direction sequence extended by
      it. */
  lemma IngestTracks(s: Store, rec: SignalRecord, ds: seq<Direction>, base: nat)
    requires NonZeroEntry(s) && Tracks(s, ds, base)
    requires OpensAfter(ds, rec) ==> rec.price != 0.0
    ensures NonZeroEntry(Ingest(s, rec).store)
    ensures Tracks(Ingest(s, rec).store, ds + DirectionOf(rec), base)
  {
    match ParseDirection(rec.signal)
    case None =>
      assert ds + DirectionOf(rec) == ds;
    case Some(d) =>
      if |ds| > 0 {
        ChangesSnoc(ds, d);
      }
  }

  /** The opening-price hypothesis holds of every prefix of a history, and
      covers its last signal against the directions before it. */
  lemma PricedOpeningsPrefix(s: Store, recs: seq<SignalRecord>)
    requires |recs| > 0 && PricedOpenings(s, recs)
    ensures PricedOpenings(s, recs[..|recs| - 1])
    ensures OpensAfter(Held(s) + Tradable(recs[..|recs| - 1]), recs[|recs| - 1]) ==> recs[|recs| - 1].price != 0.0
  {
    var prefix := recs[..|recs| - 1];
    forall i | 0 <= i < |prefix|
      ensures PricedAt(s, prefix, i)
    {
      assert PricedAt(s, recs, i);
      assert prefix[i] == recs[i] && prefix[..i] == recs[..i];
    }
    assert PricedAt(s, recs, |recs| - 1);
  }

  /** When the held position and every signal that opens one have a nonzero
      price, the trades a history adds are exactly the direction changes among
      the held direction and the tradable signals, and the position afterwards
      is held in the last of those directions (none if there were none). */
  lemma {:induction false} RunCountsChanges(s: Store, recs: seq<SignalRecord>)
    requires NonZeroEntry(s) && PricedOpenings(s, recs)
    ensures NonZeroEntry(Run(s, recs))
    ensures Tracks(Run(s, recs), Held(s) + Tradable(recs), |s.trades|)
  {
    if |recs| == 0 {
      assert Held(s) + Tradable(recs) == Held(s);
    } else {
      var prefix, rec := recs[..|recs| - 1], recs[|recs| - 1];
      var ds := Held(s) + Tradable(prefix);
      PricedOpeningsPrefix(s, recs);
      RunCountsChanges(s, prefix);
      var before := Run(s, prefix);
      assert Run(s, recs) == Ingest(before, rec).store;
      IngestTracks(before, rec, ds, |s.trades|);
      assert Tradable(recs) == Tradable(prefix) + DirectionOf(rec);
      assert Held(s) + Tradable(recs) == ds + DirectionOf(rec);
    }
  }

  /** `RunCountsChanges` specialised to the empty store. */
  lemma RunFromEmptyTracks(recs: seq<SignalRecord>)
    requires PricedOpenings(EmptyStore, recs)
    ensures Tracks(Run(EmptyStore, recs), Tradable(recs), 0)
  {
    RunCountsChanges(EmptyStore, recs);
    assert Held(EmptyStore) + Tradable(recs) == Tradable(recs);
  }

  /** From an empty store, a history where every signal that opens a position
      (the first tradable one, and each that reverses direction) has a nonzero
      price records one trade per direction change among its tradable signals,
      and leaves the position in the direction of the last tradable signal, or
      no position when there was none. */
  lemma RunFromEmpty(recs: seq<SignalRecord>)
    requires PricedOpenings(EmptyStore, recs)
    ensures Consistent(Run(EmptyStore, recs))
    ensures Run(EmptyStore, recs).signals == recs
    ensures |Run(EmptyStore, recs).trades| == Changes(Tradable(recs))
    ensures Run(EmptyStore, recs).position.None? <==> |Tradable(recs)| == 0
    ensures Run(EmptyStore, recs).position.Some? ==>
      Run(EmptyStore, recs).position.value.direction == Tradable(recs)[|Tradable(recs)| - 1]
  {
    RunLogsEverySignal(EmptyStore, recs);
    RunFromEmptyTracks(recs);
    assert Consistent(Run(EmptyStore, recs)) by {
      EmptyStoreConsistent();
      RunPreservesConsistent(EmptyStore, recs);
    }
  }

  /** A position opened at price zero can never be closed: every later signal
      is logged, but the position stays and no trade is ever recorded, because
      each attempt to close it fails on the percent division. */
  lemma {:induction false} ZeroEntryIsStuck(s: Store, recs: seq<SignalRecord>)
    requires s.position.Some? && s.position.value.entryPrice == 0.0
    ensures Run(s, recs).position == s.position
    ensures Run(s, recs).trades == s.trades
  {
    if |recs| > 0 {
      ZeroEntryIsStuck(s, recs[..|recs| - 1]);
    }
  }

  /** The long and short counts of the statistics together count exactly the
      tradable signals of the log. */
  lemma {:induction false} StatsCountTradables(recs: seq<SignalRecord>)
    ensures CountSignal(recs, "LONG") + CountSignal(recs, "SHORT") == |Tradable(recs)|
  {
    if |recs| > 0 {
      StatsCountTradables(recs[..|recs| - 1]);
    }
  }

  /** Which instrument a signal names only labels the position it opens: the
      position is one singleton across instruments, so a signal for any symbol
      closes and reverses it alike. */
  lemma SymbolOnlyLabels(s: Store, rec: SignalRecord, symbol: string)
    ensures Ingest(s, rec.(symbol := symbol)).store.trades == Ingest(s, rec).store.trades
    ensures Ingest(s, rec.(symbol := symbol)).result == Ingest(s, rec).result
    ensures Ingest(s, rec.(symbol := symbol)).store.position.Some? <==> Ingest(s, rec).store.position.Some?
    ensures Ingest(s, rec).store.position.Some? ==>
      Ingest(s, rec.(symbol := symbol)).store.position.value.direction == Ingest(s, rec).store.position.value.direction
  {
  }

  /** A worked history: LONG at 100, LONG at 105, SHORT at 110, SHORT at 90,
      one minute apart. The repeat long and repeat short change nothing; the
      first short closes the long for 10 points (10%) after two minutes and
      leaves a short open at 110. */
  lemma ReversalScenario()
    ensures
      var p := Payload(None, None, None, None);
      var recs := [
        SignalRecord(0, "LONG", 100.0, "USTEC", "1m", p),
        SignalRecord(60_000_000, "LONG", 105.0, "USTEC", "1m", p),
        SignalRecord(120_000_000, "SHORT", 110.0, "USTEC", "1m", p),
        SignalRecord(180_000_000, "SHORT", 90.0, "USTEC", "1m", p)];
      var e := Run(EmptyStore, recs);
      && e.trades == [Trade("USTEC", Long, 0, 100.0, 120_000_000, 110.0, 10.0, 10.0, 120)]
      && e.position == Some(Position(Short, 120_000_000, 110.0, "USTEC"))
  {
    var p := Payload(None, None, None, None);
    var r0 := SignalRecord(0, "LONG", 100.0, "USTEC", "1m", p);
    var r1 := SignalRecord(60_000_000, "LONG", 105.0, "USTEC", "1m", p);
    var r2 := SignalRecord(120_000_000, "SHORT", 110.0, "USTEC", "1m", p);
    var r3 := SignalRecord(180_000_000, "SHORT", 90.0, "USTEC", "1m", p);
    var recs := [r0, r1, r2, r3];
    assert recs[..3] == [r0, r1, r2] && recs[..3][..2] == [r0, r1] && recs[..3][..2][..1] == [r0];
    assert [r0][..0] == [];
    assert Run(EmptyStore, [r0][..0]) == EmptyStore;
    assert ParseDirection("LONG") == Some(Long) && ParseDirection("SHORT") == Some(Short);
    var s1 := Run(EmptyStore, [r0]);
    assert s1 == Ingest(EmptyStore, r0).store;
    assert s1.position == Some(Position(Long, 0, 100.0, "USTEC")) && s1.trades == [];
    var s2 := Run(EmptyStore, [r0, r1]);
    assert s2 == Ingest(s1, r1).store;
    assert s2.position == s1.position && s2.trades == [];
    var s3 := Run(EmptyStore, [r0, r1, r2]);
    assert s3 == Ingest(s2, r2).store;
    assert PnL.GrossPoints(Long, 100.0, 110.0) == 10.0;
    assert PnL.Percent(10.0, 100.0) == 10.0;
    assert PnL.DurationSeconds(0, 120_000_000) == 120;
    assert s3.trades == [Trade("USTEC", Long, 0, 100.0, 120_000_000, 110.0, 10.0, 10.0, 120)];
    assert s3.position == Some(Position(Short, 120_000_000, 110.0, "USTEC"));
    assert Run(EmptyStore, recs) == Ingest(s3, r3).store;
  }

  /** A repeat of the held direction may come without a price: LONG at 100, a
      LONG with no price, then SHORT at 110 meets the hypothesis of
      `RunFromEmpty` and records its one direction change as one trade. */
  lemma UnpricedRepeatScenario()
    ensures
      var p := Payload(None, None, None, None);
      var recs := [
        SignalRecord(0, "LONG", 100.0, "USTEC", "1m", p),
        SignalRecord(60_000_000, "LONG", 0.0, "USTEC", "1m", p),
        SignalRecord(120_000_000, "SHORT", 110.0, "USTEC", "1m", p)];
      && PricedOpenings(EmptyStore, recs)
      && |Run(EmptyStore, recs).trades| == 1
  {
    var p := Payload(None, None, None, None);
    var r0 := SignalRecord(0, "LONG", 100.0, "USTEC", "1m", p);
    var r1 := SignalRecord(60_000_000, "LONG", 0.0, "USTEC", "1m", p);
    var r2 := SignalRecord(120_000_000, "SHORT", 110.0, "USTEC", "1m", p);
    var recs := [r0, r1, r2];
    assert [r0][..0] == [] && Tradable([]) == [];
    assert Tradable([r0]) == [Long];
    assert [r0, r1][..1] == [r0];
    assert Tradable([r0, r1]) == [Long, Long];
    assert recs[..0] == [] && recs[..1] == [r0] && recs[..2] == [r0, r1] && recs[..3] == recs;
    assert PricedOpenings(EmptyStore, recs) by {
      forall i | 0 <= i < 3
        ensures PricedAt(EmptyStore, recs, i)
      {
      }
    }
    RunFromEmpty(recs);
    assert Tradable(recs) == [Long, Long, Short];
    assert Changes([Long, Long, Short]) == 1 by {
      assert [Long, Long, Short][..2] == [Long, Long] && [Long, Long][..1] == [Long];
    }
  }
}
