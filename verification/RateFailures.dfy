/** A run of the rate controller, over rows of the AR9271 table, after which the search misses the best rate. */
module RateFailures {
  import opened RateList
  import opened RateControl
  import opened RateUpdate
  import RateTables

  /** The AR9271 table. */
  ghost predicate Ar9271Table(t: Table) {
    RateTables.IsTable(t, RateTables.Ar9271) && t.probeInterval == 100 && t.rssiReduceInterval == 50
  }

  /** Its rows 6 to 10. */
  ghost predicate Ar9271Rows(t: Table) {
    && !t.merlin && |t.info| == 54 && t.probeInterval == 100 && t.rssiReduceInterval == 50
    && t.info[6] == Rate(RateTables.OFDM, 12000, 10100, 24) && t.info[7] == Rate(RateTables.OFDM, 18000, 14100, 36)
    && t.info[8] == Rate(RateTables.OFDM, 24000, 17700, 48) && t.info[9] == Rate(RateTables.OFDM, 36000, 23700, 72)
    && t.info[10] == Rate(RateTables.OFDM, 48000, 27400, 96)
  }

  lemma TableRows(t: Table)
    requires Ar9271Table(t)
    ensures Ar9271Rows(t)
  {
    assert t.info[6] == RateTables.RowAt(RateTables.Ar9271, 6).rate;
    assert t.info[7] == RateTables.RowAt(RateTables.Ar9271, 7).rate;
    assert t.info[8] == RateTables.RowAt(RateTables.Ar9271, 8).rate;
    assert t.info[9] == RateTables.RowAt(RateTables.Ar9271, 9).rate;
    assert t.info[10] == RateTables.RowAt(RateTables.Ar9271, 10).rate;
  }

  /** A peer with OFDM rates only, and no HT, is given those rows if it names them. */
  const NO_HT: RateTables.Caps := RateTables.Caps(false, false, false, false, false, false)

  lemma LegacyInstallable()
    ensures RateTables.Installable(RateTables.Ar9271, NO_HT, LEGACY)
  {}

  /** Estimates above that do not exceed the new one are raised to it. */
  lemma {:induction false} UpFills(per: seq<nat>, rate: nat, size: nat, j: nat)
    requires rate <= j < size <= |per| && forall m :: rate < m < size ==> per[m] <= per[rate]
    ensures UpPass(per, rate, size)[j] == per[rate]
    ensures forall m :: 0 <= m < rate ==> UpPass(per, rate, size)[m] == per[m]
    decreases size - rate
  {
    if rate + 1 < size {
      var per' := per[rate + 1 := Max(per[rate + 1], per[rate])];
      UpFills(per', rate + 1, size, if j == rate then rate + 1 else j);
      UpBelow(per', rate + 1, size, rate);
    }
  }

  lemma {:induction false} UpBelow(per: seq<nat>, rate: nat, size: nat, j: nat)
    requires j <= rate < |per| && size <= |per|
    ensures UpPass(per, rate, size)[j] == per[j]
    decreases size - rate
  {
    if rate + 1 < size { UpBelow(per[rate + 1 := Max(per[rate + 1], per[rate])], rate + 1, size, j); }
  }

  // ---------------------------------------------------------------------------------
  // The lower rate delivers more

  /** After SetRates with rows 6 to 10: row 7 is the highest allowed, its estimate v, that of row 6 zero. */
  ghost predicate Falling(t: Table, rc: Rc, v: nat) {
    && Inv(t, rc) && rc.size == 11 && rc.list == [6, 7, 8, 9, 10] && rc.maxPhy == 7 && rc.probe == 0
    && rc.per[6] == 0 && rc.per[7] == v && forall m :: 7 < m < 11 ==> rc.per[m] == v
  }

  const LEGACY: seq<nat> := [6, 7, 8, 9, 10]

  lemma LegacySorted(t: Table)
    requires Ar9271Rows(t)
    ensures Bubbled(t, LEGACY, 4) == LEGACY && MaxOf(LEGACY) == 10
  {
    assert Sorted(t, LEGACY);
    StaysSorted(t, LEGACY, 4);
    hide Bubbled, MaxOf;
    assert LEGACY[4] in LEGACY;
  }

  lemma LegacyUsable(t: Table, start: Rc)
    requires Ar9271Rows(t) && |start.per| >= 11
    ensures Usable(t, start, LEGACY)
  {}

  lemma FallingStarts(t: Table, start: Rc)
    requires Ar9271Rows(t) && |start.per| >= 11 && start.probe == 0
    ensures Usable(t, start, LEGACY) && Falling(t, SetRates(t, start, LEGACY), 0)
  {
    LegacySorted(t);
    LegacyUsable(t, start);
    hide Inv, Bubbled, MaxOf, Usable;
    SetRatesInv(t, start, LEGACY);
  }

  /** One failed transmission at row 7 raises its estimate from v to w and, w being below 55, does nothing else. */
  lemma FallsOn(t: Table, rc: Rc, xretries: nat, v: nat, w: nat)
    requires Ar9271Rows(t) && Falling(t, rc, v) && xretries > 0 && v < w < 55
    requires w == NewPer(v, Outcome(xretries, 0, 1, 1))
    ensures var e := Sent(7, Outcome(xretries, 0, 1, 1), rc.downTime);
      Possible(rc, e) && Falling(t, Step(t, rc, e), w) && Step(t, rc, e).downTime == rc.downTime
  {
    var o := Outcome(xretries, 0, 1, 1);
    StepInv(t, rc, Sent(7, o, rc.downTime));
    hide Inv, NewPer;
    var a := AfterTx(t, rc, 7, o, rc.downTime);
    assert a.per == rc.per[7 := w];
    assert LowerMax(t, a, 7, rc.downTime) == a;
    forall m | 7 <= m < 11 ensures UpPass(a.per, 7, 11)[m] == w { UpFills(a.per, 7, 11, m); }
    UpFills(a.per, 7, 11, 7);
  }

  /** The search returns row 7, though row 6 is valid and allowed and promises more. */
  ghost predicate Misses(t: Table, rc: Rc) {
    && InTable(t, rc) && 6 in rc.list && 7 in rc.list && 6 <= rc.maxPhy
    && Best(t, rc, |rc.list|, 0, 0) == 7 && Throughput(t, rc, 7) < Throughput(t, rc, 6)
  }

  lemma FallingMisses(t: Table, rc: Rc)
    requires Ar9271Rows(t) && Falling(t, rc, 54)
    ensures Misses(t, rc)
  {
    InvFacts(t, rc);
    hide Inv;
    assert rc.list[0] == 6 && rc.list[1] == 7 && rc.list[2] == 8 && rc.list[3] == 9 && rc.list[4] == 10;
    assert Best(t, rc, 1, 7, 14100 * 46) == 7;
    assert Best(t, rc, 2, 0, 0) == 7;
    assert Best(t, rc, 4, 0, 0) == 7;
  }

  // ---------------------------------------------------------------------------------
  // Runs of known length

  /** rc is where a run of the given events from a rate set ends. */
  ghost predicate EndsAt(t: Table, start: Rc, found: seq<nat>, es: seq<Event>, rc: Rc) {
    Usable(t, start, found) && exists rcs :: Runs(t, rcs, es) && rcs[0] == SetRates(t, start, found) && rcs[|es|] == rc
  }

  lemma EndsBegin(t: Table, start: Rc, found: seq<nat>)
    requires Usable(t, start, found)
    ensures EndsAt(t, start, found, [], SetRates(t, start, found))
  {
    assert Runs(t, [SetRates(t, start, found)], []);
  }

  lemma RunsNext(t: Table, rcs: seq<Rc>, es: seq<Event>, e: Event, r: Rc)
    requires Runs(t, rcs, es) && Follows(t, rcs[|es|], e, r)
    ensures Runs(t, rcs + [r], es + [e])
  {
    hide Follows;
    var rcs', es' := rcs + [r], es + [e];
    forall i | 0 <= i < |es'| ensures Follows(t, rcs'[i], es'[i], rcs'[i + 1]) {
      if i < |es| { assert Follows(t, rcs[i], es[i], rcs[i + 1]); }
    }
  }

  lemma EndsNext(t: Table, start: Rc, found: seq<nat>, es: seq<Event>, rc: Rc, e: Event)
    requires EndsAt(t, start, found, es, rc) && Inv(t, rc) && Possible(rc, e)
    ensures EndsAt(t, start, found, es + [e], Step(t, rc, e))
  {
    assert |found| >= 4;
    var r := Step(t, rc, e);
    assert Follows(t, rc, e, r);
    hide Inv, Possible, Step, SetRates, Usable, Follows, Runs;
    var rcs :| Runs(t, rcs, es) && rcs[0] == SetRates(t, start, found) && rcs[|es|] == rc;
    RunsLength(t, rcs, es);
    RunsNext(t, rcs, es, e, r);
    assert (rcs + [r])[|es + [e]|] == r && (rcs + [r])[0] == rcs[0];
  }

  lemma RunsLength(t: Table, rcs: seq<Rc>, es: seq<Event>)
    requires Runs(t, rcs, es)
    ensures |rcs| == |es| + 1
  {}

  /** A frame lost altogether at row 7, its status reported as 1 or as 2. */
  function Lost(xretries: nat, time: nat): Event {
    Sent(7, Outcome(xretries, 0, 1, 1), time)
  }

  lemma LostNext(t: Table, start: Rc, es: seq<Event>, rc: Rc, xretries: nat, v: nat, w: nat) returns (r: Rc)
    requires Ar9271Rows(t) && EndsAt(t, start, LEGACY, es, rc) && Falling(t, rc, v) && xretries > 0 && v < w < 55
    requires w == NewPer(v, Outcome(xretries, 0, 1, 1))
    ensures EndsAt(t, start, LEGACY, es + [Lost(xretries, rc.downTime)], r)
    ensures Falling(t, r, w) && r.downTime == rc.downTime
  {
    hide EndsAt, NewPer, Inv;
    FallsOn(t, rc, xretries, v, w);
    hide Step, Possible;
    r := Step(t, rc, Lost(xretries, rc.downTime));
    EndsNext(t, start, LEGACY, es, rc, Lost(xretries, rc.downTime));
  }

  lemma LostEstimates()
    ensures NewPer(0, Outcome(1, 0, 1, 1)) == 30 && NewPer(30, Outcome(2, 0, 1, 1)) == 39
    ensures NewPer(39, Outcome(2, 0, 1, 1)) == 47 && NewPer(47, Outcome(2, 0, 1, 1)) == 54
  {}

  /**
   The search can miss the rate that delivers most. A node is given rows 6 to 10, then four frames at row 7 are
   lost: its estimate is 54, still below the 55 that would lower the highest rate allowed. The search
   stops at row 7, though row 6 promises more.
   */
  lemma EarlyStop(t: Table, start: Rc) returns (es: seq<Event>, rc: Rc)
    requires Ar9271Table(t) && |start.per| >= 11 && start.probe == 0
    ensures RateTables.Installable(RateTables.Ar9271, NO_HT, LEGACY)
    ensures EndsAt(t, start, LEGACY, es, rc) && |es| == 4 && Misses(t, rc)
  {
    LegacyInstallable();
    TableRows(t);
    FallingStarts(t, start);
    LostEstimates();
    hide *;
    EndsBegin(t, start, LEGACY);
    es, rc := [], SetRates(t, start, LEGACY);
    var d := rc.downTime;
    rc := LostNext(t, start, es, rc, 1, 0, 30);
    es := es + [Lost(1, d)];
    rc := LostNext(t, start, es, rc, 2, 30, 39);
    es := es + [Lost(2, d)];
    rc := LostNext(t, start, es, rc, 2, 39, 47);
    es := es + [Lost(2, d)];
    rc := LostNext(t, start, es, rc, 2, 47, 54);
    es := es + [Lost(2, d)];
    FallingMisses(t, rc);
  }
}
