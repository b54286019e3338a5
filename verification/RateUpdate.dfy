/**
 What one outcome does to the rate controller, and one choice: the new estimates, the end of a probe, and when
 the highest rate allowed goes up or down, in one update and over runs.
 */
module RateUpdate {
  import opened RateList
  import opened RateControl

  // ---------------------------------------------------------------------------------
  // The estimate of the rate used

  /** An eighth of the error rate that so many failed attempts before a success count as. */
  function EighthLost(retries: nat): nat {
    if retries == 0 then 0 else if retries == 1 then 3 else if retries == 2 then 6 else if retries == 3 then 9
    else if retries < 8 then 10 else 11
  }

  /** Of the attempts at all frames sent, up to nine before the last, the percentage that failed. */
  function LostPercent(o: Outcome): nat
    requires o.nFrames > 0
  {
    var r := if o.retries > 9 then 9 else o.retries;
    100 * (r * o.nFrames + o.nBad) / (o.nFrames * (r + 1))
  }

  /**
   The estimate moves an eighth of the way to what the outcome shows: everything lost, by another 30 if
   the report says so, attempts before a success, and bad subframes.
   */
  lemma EstimateMoves(per: nat, o: Outcome)
    requires per <= 100 && Sane(o)
    ensures NewPer(per, o) ==
      if o.xretries == 1 then if per > 70 then 100 else per + 30
      else if o.xretries > 1 then per - per / 8 + 12
      else if o.nBad == 0 then per - per / 8 + EighthLost(o.retries)
      else per - per / 8 + LostPercent(o) / 8
  {
    NewPerPercent(per, o);
    hide Current, Blend, U8;
    BlendPercent(per, 100);
    BlendPercent(per, PER_LOOKUP[Capped(o.retries)]);
    LookupEighth(o.retries);
    if o.nBad > 0 { CappedPercent(o); }
  }

  lemma LookupEighth(retries: nat)
    ensures PER_LOOKUP[Capped(retries)] / 8 == EighthLost(retries)
  {}

  lemma CappedPercent(o: Outcome)
    requires o.nFrames > 0
    ensures Current(Capped(o.retries), o.nFrames, o.nBad) == LostPercent(o)
  {}

  // ---------------------------------------------------------------------------------
  // The end of a probe, and the highest rate allowed

  /** The outcome is that of the pending probe, which got through at the first attempt with most subframes good. */
  predicate GoodProbe(rc: Rc, tx: nat, o: Outcome) {
    rc.probe != 0 && rc.probe == tx && o.xretries == 0 && o.retries == 0 && 2 * o.nBad <= o.nFrames
  }

  /** The estimate of the rate used; a probe that went well is not held against its rate. */
  function Estimate(rc: Rc, tx: nat, o: Outcome): nat
    requires tx < |rc.per|
  {
    if GoodProbe(rc, tx, o) && NewPer(rc.per[tx], o) > 30 then 20 else NewPer(rc.per[tx], o)
  }

  /** The rate used looks bad, and is not above the highest allowed. */
  predicate LooksBad(t: Table, rc: Rc, tx: nat, o: Outcome)
    requires tx < |rc.per| && tx < |t.info| && rc.maxPhy < |t.info|
  {
    tx > 0 && NewPer(rc.per[tx], o) >= 55 && t.info[tx].rateKbps <= t.info[rc.maxPhy].rateKbps
  }

  /**
   How a probe ends, and what becomes of the highest rate allowed. An outcome at the rate of the pending probe
   ends it. If it went well that rate is the highest allowed, and the next probe may come half an interval
   sooner. Otherwise the highest rate stays, or, if the rate used looks bad, is the one below that.
   */
  lemma ProbeEnds(t: Table, rc: Rc, tx: nat, o: Outcome, now: nat)
    requires Inv(t, rc) && Sane(o) && tx < rc.size
    ensures Ready(t, rc, tx)
    ensures var r := UpdateHt(t, rc, tx, o, now);
      && r.probe == (if rc.probe == tx then 0 else rc.probe)
      && (if GoodProbe(rc, tx, o) then r.maxPhy == tx && r.probeTime == Sub32(now, t.probeInterval / 2)
          else if !LooksBad(t, rc, tx, o) then r.maxPhy == rc.maxPhy && r.probeTime == rc.probeTime
          else r.probeTime == now
               && r.maxPhy == if NextLower(rc.list, tx).Some? then NextLower(rc.list, tx).value else rc.maxPhy)
      && r.hwCnt == (if o.xretries > 0 then rc.hwCnt
                     else if o.retries > 0 then 0
                     else if (tx == rc.maxPhy || GoodProbe(rc, tx, o)) && rc.hwCnt < 255 then rc.hwCnt + 1
                     else rc.hwCnt)
  {
    InvFacts(t, rc);
    AfterIs(t, rc, tx, o, now);
    hide Inv, NewPer, UpPass, DownPass, Decayed, Sub32, NextLower, AfterTx;
  }

  /** The state just after the outcome is noted. */
  lemma AfterIs(t: Table, rc: Rc, tx: nat, o: Outcome, now: nat)
    requires tx < |rc.per|
    ensures var a := AfterTx(t, rc, tx, o, now);
      && a.per == rc.per[tx := Estimate(rc, tx, o)]
      && a.list == rc.list && a.size == rc.size && a.downTime == rc.downTime
      && a.probe == (if rc.probe == tx then 0 else rc.probe)
      && a.maxPhy == (if GoodProbe(rc, tx, o) then tx else rc.maxPhy)
      && a.probeTime == (if GoodProbe(rc, tx, o) then Sub32(now, t.probeInterval / 2) else rc.probeTime)
      && a.hwCnt == (if o.xretries > 0 then rc.hwCnt
                     else if o.retries > 0 then 0
                     else if tx == a.maxPhy && rc.hwCnt < 255 then rc.hwCnt + 1
                     else rc.hwCnt)
  {
    hide NewPer, Sub32;
  }

  // ---------------------------------------------------------------------------------
  // The other estimates

  /** Rows j to rate are of the kind phy. */
  predicate SameKind(t: Table, j: nat, rate: nat, phy: nat) {
    rate < |t.info| && forall m :: j <= m < rate ==> t.info[m].phy == phy
  }

  /** Of estimates in order below rate, the downward pass cuts those of the same kind to the one of rate. */
  lemma {:induction false} DownIs(t: Table, per: seq<nat>, rate: nat, phy: nat, j: nat)
    requires j < rate < |per| && rate < |t.info|
    requires forall m :: 0 <= m < rate - 1 ==> Edge(t, per, m)
    ensures DownPass(t, per, rate, phy)[j] == if SameKind(t, j, rate, phy) then Min(per[j], per[rate]) else per[j]
    decreases rate
  {
    if t.info[rate - 1].phy == phy {
      var per' := per[rate - 1 := Min(per[rate - 1], per[rate])];
      if j < rate - 1 {
        forall m | 0 <= m < rate - 2 ensures Edge(t, per', m) { assert Edge(t, per, m); }
        DownIs(t, per', rate - 1, phy, j);
        if SameKind(t, j, rate - 1, phy) { InOrder(t, per, j, rate - 1, phy); }
      } else {
        DownAbove(t, per', rate - 1, phy, j);
      }
    }
  }

  lemma {:induction false} InOrder(t: Table, per: seq<nat>, j: nat, k: nat, phy: nat)
    requires j <= k < |per| && k < |t.info| && SameKind(t, j, k + 1, phy)
    requires forall m :: 0 <= m < k ==> Edge(t, per, m)
    ensures per[j] <= per[k]
    decreases k
  {
    if j < k {
      InOrder(t, per, j, k - 1, phy);
      assert Edge(t, per, k - 1);
    }
  }

  lemma {:induction false} DownAbove(t: Table, per: seq<nat>, rate: nat, phy: nat, j: nat)
    requires rate <= j < |per| && rate < |t.info|
    ensures DownPass(t, per, rate, phy)[j] == per[j]
    decreases rate
  {
    if rate > 0 && t.info[rate - 1].phy == phy {
      DownAbove(t, per[rate - 1 := Min(per[rate - 1], per[rate])], rate - 1, phy, j);
    }
  }

  /** The greatest of the estimates from rate to j. */
  function Greatest(per: seq<nat>, rate: nat, j: nat): nat
    requires rate <= j < |per|
  {
    if j == rate then per[rate] else Max(Greatest(per, rate, j - 1), per[j])
  }

  lemma {:induction false} GreatestIs(per: seq<nat>, rate: nat, j: nat)
    requires rate <= j < |per|
    ensures forall m :: rate <= m <= j ==> per[m] <= Greatest(per, rate, j)
    ensures exists m :: rate <= m <= j && per[m] == Greatest(per, rate, j)
  {
    if j > rate {
      GreatestIs(per, rate, j - 1);
    } else {
      assert per[rate] == Greatest(per, rate, rate);
    }
  }

  lemma {:induction false} GreatestFrom(per: seq<nat>, rate: nat, j: nat)
    requires rate < j < |per|
    ensures Greatest(per[rate + 1 := Max(per[rate + 1], per[rate])], rate + 1, j) == Greatest(per, rate, j)
  {
    if j == rate + 1 {
      assert Greatest(per, rate, rate) == per[rate];
    } else {
      GreatestFrom(per, rate, j - 1);
    }
  }

  /** The upward pass gives every rate above the greatest estimate from the rate used up to it. */
  lemma {:induction false} UpIs(per: seq<nat>, rate: nat, size: nat, j: nat)
    requires j < |per| && rate < size <= |per|
    ensures UpPass(per, rate, size)[j] == if rate <= j < size then Greatest(per, rate, j) else per[j]
    decreases size - rate
  {
    if rate + 1 < size {
      UpIs(per[rate + 1 := Max(per[rate + 1], per[rate])], rate + 1, size, j);
      if rate < j < size { GreatestFrom(per, rate, j); }
    }
  }

  /** An estimate as it is after the aging that an update at this time may bring. */
  function Aged(t: Table, rc: Rc, now: nat, v: nat): nat {
    if Sub32(now, rc.downTime) >= t.rssiReduceInterval then 7 * v / 8 else v
  }

  /** What the estimate of rate j is, before aging, the one of tx being v now. */
  function Ordered(t: Table, rc: Rc, tx: nat, v: nat, j: nat): nat
    requires tx < |rc.per| && j < |rc.per| && tx < |t.info|
  {
    if j == tx then v
    else if j < tx then if v < rc.per[tx] && SameKind(t, j, tx, t.info[tx].phy) then Min(rc.per[j], v) else rc.per[j]
    else if j < rc.size then Greatest(rc.per[tx := v], tx, j)
    else rc.per[j]
  }

  /**
   All estimates after an update. The rate used has its new one; no rate of its kind below has a higher
   one if it went down, and no rate above a lower one; all others are as before, and all are aged alike.
   */
  lemma EstimatesAre(t: Table, rc: Rc, tx: nat, o: Outcome, now: nat, j: nat)
    requires Inv(t, rc) && Sane(o) && tx < rc.size && j < rc.size
    ensures Ready(t, rc, tx) && |UpdateHt(t, rc, tx, o, now).per| == |rc.per|
    ensures UpdateHt(t, rc, tx, o, now).per[j] == Aged(t, rc, now, Ordered(t, rc, tx, Estimate(rc, tx, o), j))
  {
    InvFacts(t, rc);
    AfterIs(t, rc, tx, o, now);
    var a := AfterTx(t, rc, tx, o, now);
    var b := LowerMax(t, a, tx, now);
    assert b.per == a.per && b.size == rc.size && b.downTime == rc.downTime by { hide AfterTx, NextLower; }
    SmoothIs(t, rc, b, tx, j);
    SmoothPercent(t, rc, b, tx, o);
    var c := Smooth(t, b, tx, rc.per[tx]);
    hide AfterTx, LowerMax, Smooth, Inv, Sub32;
    if c.per[j] <= 100 { Fits(7 * c.per[j] / 8); }
  }

  lemma SmoothPercent(t: Table, rc: Rc, b: Rc, tx: nat, o: Outcome)
    requires Inv(t, rc) && Sane(o) && tx < rc.size && b.size == rc.size && b.per == rc.per[tx := Estimate(rc, tx, o)]
    ensures rc.size <= |rc.per| && rc.size <= |t.info|
    ensures var c := Smooth(t, b, tx, rc.per[tx]);
      && |c.per| == |rc.per| && c.size == rc.size && c.downTime == b.downTime
      && forall i :: 0 <= i < |c.per| ==> c.per[i] <= 100
  {
    NewPerPercent(rc.per[tx], o);
    hide NewPer;
    SmoothMono(t, rc.per, b, tx);
    hide DownPass, UpPass;
  }

  lemma SmoothIs(t: Table, rc: Rc, b: Rc, tx: nat, j: nat)
    requires Inv(t, rc) && tx < rc.size && j < rc.size && b.size == rc.size
    requires |b.per| == |rc.per| && b.per == rc.per[tx := b.per[tx]]
    ensures rc.size <= |rc.per| && rc.size <= |t.info|
    ensures Smooth(t, b, tx, rc.per[tx]).per[j] == Ordered(t, rc, tx, b.per[tx], j)
  {
    hide UpPass, DownPass, Greatest, Percents, SameKind;
    var v := b.per[tx];
    var phy := t.info[tx].phy;
    forall m | 0 <= m < tx - 1 ensures Edge(t, b.per, m) { assert Edge(t, rc.per, m); }
    var d := if v < rc.per[tx] then DownPass(t, b.per, tx, phy) else b.per;
    UpIs(d, tx, rc.size, j);
    if j < tx {
      if v < rc.per[tx] { DownIs(t, b.per, tx, phy, j); }
    } else {
      if v < rc.per[tx] { DownsAbove(t, b.per, tx, phy, j); }
      SameGreatest(d, b.per, tx, j);
      if j == tx { GreatestOne(b.per, tx); }
    }
  }

  lemma GreatestOne(per: seq<nat>, rate: nat)
    requires rate < |per|
    ensures Greatest(per, rate, rate) == per[rate]
  {}

  lemma DownsAbove(t: Table, per: seq<nat>, rate: nat, phy: nat, j: nat)
    requires rate <= j < |per| && rate < |t.info|
    ensures forall m :: rate <= m <= j ==> DownPass(t, per, rate, phy)[m] == per[m]
  {
    forall m | rate <= m <= j ensures DownPass(t, per, rate, phy)[m] == per[m] { DownAbove(t, per, rate, phy, m); }
  }

  lemma {:induction false} SameGreatest(a: seq<nat>, b: seq<nat>, rate: nat, j: nat)
    requires rate <= j < |a| == |b| && forall m :: rate <= m <= j ==> a[m] == b[m]
    ensures Greatest(a, rate, j) == Greatest(b, rate, j)
  {
    if j > rate { SameGreatest(a, b, rate, j - 1); }
  }

  // ---------------------------------------------------------------------------------
  // A choice

  /**
   The rate to send at is the one the search finds, unless a probe is made instead: exactly when probes are
   allowed, the search finds the highest rate allowed, there is a rate after it in the list, the interval
   has passed, and a frame has got through at once at the highest rate since the last probe.
   */
  lemma ChoiceIs(t: Table, rc: Rc, probeAllowed: bool, now: nat)
    requires Inv(t, rc)
    ensures rc.size > 0 && InTable(t, rc)
    ensures var (r, c) := FindHt(t, rc, probeAllowed, now);
            var best := Best(t, rc, |rc.list|, 0, 0);
      && (c.isProbe <==> probeAllowed && best == rc.maxPhy && Next(rc.list, rc.maxPhy).Some?
                         && Sub32(now, rc.probeTime) > t.probeInterval && rc.hwCnt > 0)
      && (if c.isProbe then Next(rc.list, rc.maxPhy) == Some(c.rate)
                            && r == rc.(probe := c.rate, probeTime := now, hwCnt := 0)
          else c.rate == best && r == rc)
  {
    InvFacts(t, rc);
    assert rc.list[..|rc.list|] == rc.list;
    BestAllowed(t, rc, |rc.list|, 0, 0);
    NextMember(rc.list, rc.maxPhy);
    hide Best, Next, Percents, Sub32;
  }

  /**
   Where a rate set starts: every estimate is zero, and the highest rate allowed is the fourth from the end of the
   rates found, so if they were found in order, three rates are above it.
   */
  lemma RateSetStarts(t: Table, rc: Rc, found: seq<nat>)
    requires Usable(t, rc, found) && rc.probe == 0
    ensures var r := SetRates(t, rc, found);
      && |r.per| == |rc.per| && (forall i :: 0 <= i < |r.per| ==> r.per[i] == 0)
      && r.maxPhy == found[|found| - 4] && r.probe == 0
      && (forall x :: x in found ==> x < r.size)
      && (Sorted(t, found) ==> Key(t, r.maxPhy) == Key(t, r.list[|r.list| - 4]))
  {
    hide Key;
    if Sorted(t, found) { StaysSorted(t, found, |found| - 1); }
    hide Bubbled, Sorted;
  }

  /** A sorted list stays as it is. */
  lemma {:induction false} StaysSwept(t: Table, s: seq<nat>, j: nat)
    requires j < |s| && Sorted(t, s)
    ensures Swept(t, s, j) == s
  {
    hide Key;
    if j > 0 { StaysSwept(t, s, j - 1); }
  }

  lemma {:induction false} StaysSorted(t: Table, s: seq<nat>, i: nat)
    requires i < |s| && Sorted(t, s)
    ensures Bubbled(t, s, i) == s
    decreases i
  {
    hide Sorted, Swept;
    if i > 0 {
      StaysSwept(t, s, i);
      StaysSorted(t, s, i - 1);
    }
  }

  // ---------------------------------------------------------------------------------
  // Over runs

  /** The order of the list is that of the rates themselves. */
  ghost predicate ByRate(t: Table, list: seq<nat>) {
    && (forall a :: a in list ==> a < |t.info|)
    && forall a, b :: a in list && b in list && Key(t, a) <= Key(t, b) ==> t.info[a].rateKbps <= t.info[b].rateKbps
  }

  /** No other outcome raises the highest rate allowed. */
  lemma OnlyProbesRaise(t: Table, rc: Rc, tx: nat, o: Outcome, now: nat)
    requires Inv(t, rc) && Sane(o) && tx < rc.size && ByRate(t, rc.list) && !GoodProbe(rc, tx, o)
    ensures Ready(t, rc, tx) && UpdateHt(t, rc, tx, o, now).maxPhy < |t.info|
    ensures t.info[UpdateHt(t, rc, tx, o, now).maxPhy].rateKbps <= t.info[rc.maxPhy].rateKbps
  {
    InvFacts(t, rc);
    ProbeEnds(t, rc, tx, o, now);
    InvSorted(t, rc);
    hide Inv, UpdateHt, NewPer, NextLower, Key, GoodProbe, Sorted;
    NextLowerDescends(t, rc.list, tx);
    NextLowerMember(rc.list, tx);
  }

  lemma InvSorted(t: Table, rc: Rc)
    requires Inv(t, rc)
    ensures Sorted(t, rc.list)
  {}

  /** Event e, from state rc, is the outcome of a probe that went well. */
  predicate Raises(rc: Rc, e: Event) {
    e.Sent? && GoodProbe(rc, e.tx, e.o)
  }

  lemma StepRaises(t: Table, rc: Rc, e: Event)
    requires Inv(t, rc) && Possible(rc, e) && ByRate(t, rc.list)
    ensures Step(t, rc, e).maxPhy < |t.info| && rc.maxPhy < |t.info|
    ensures if Raises(rc, e) then Step(t, rc, e).maxPhy == rc.probe
            else t.info[Step(t, rc, e).maxPhy].rateKbps <= t.info[rc.maxPhy].rateKbps
  {
    InvFacts(t, rc);
    StepInv(t, rc, e);
    InvFacts(t, Step(t, rc, e));
    hide Inv, UpdateHt, FindHt;
    match e
    case Sent(tx, o, time) =>
      ProbeEnds(t, rc, tx, o, time);
      if !GoodProbe(rc, tx, o) { OnlyProbesRaise(t, rc, tx, o, time); }
    case Choose(probeAllowed, time) => RateChoice(t, rc, probeAllowed, time);
  }

  /** In a run whose list is in the order of the rates, a higher highest rate has come of a probe that went well. */
  lemma {:induction false} HighestRises(t: Table, start: Rc, found: seq<nat>, rcs: seq<Rc>, es: seq<Event>,
                                        i: nat, j: nat)
    requires Usable(t, start, found) && start.probe == 0 && ByRate(t, found)
    requires Runs(t, rcs, es) && rcs[0] == SetRates(t, start, found) && i <= j < |rcs|
    ensures rcs[i].maxPhy < |t.info| && rcs[j].maxPhy < |t.info|
    ensures t.info[rcs[j].maxPhy].rateKbps > t.info[rcs[i].maxPhy].rateKbps
            ==> exists k :: i <= k < j && Raises(rcs[k], es[k]) && rcs[k + 1].maxPhy == rcs[k].probe
    decreases j
  {
    RunInv(t, start, found, rcs, es, i);
    InvFacts(t, rcs[i]);
    if i < j {
      var m := j - 1;
      HighestRises(t, start, found, rcs, es, i, m);
      RunInv(t, start, found, rcs, es, m);
      FoundByRate(t, start, found, rcs[m].list);
      hide Inv, SetRates, Usable, ByRate, Raises;
      assert Follows(t, rcs[m], es[m], rcs[m + 1]);
      StepRaises(t, rcs[m], es[m]);
    }
  }

  lemma FoundByRate(t: Table, start: Rc, found: seq<nat>, list: seq<nat>)
    requires Usable(t, start, found) && start.probe == 0 && ByRate(t, found) && list == SetRates(t, start, found).list
    ensures ByRate(t, list)
  {
    SetRatesInv(t, start, found);
    hide SetRates, Inv, Key;
  }

  /**
   Where a pending probe comes from: a choice earlier in the run made it, of the rate next above the highest
   allowed then, and no frame has been sent at it since.
   */
  lemma {:induction false} PendingProbe(t: Table, start: Rc, found: seq<nat>, rcs: seq<Rc>, es: seq<Event>, i: nat)
    requires Usable(t, start, found) && start.probe == 0
    requires Runs(t, rcs, es) && rcs[0] == SetRates(t, start, found) && i < |rcs|
    ensures rcs[i].probe != 0 ==> exists k :: 0 <= k < i && Probes(rcs, es, k, i)
    decreases i
  {
    if i > 0 {
      var m := i - 1;
      PendingProbe(t, start, found, rcs, es, m);
      RunInv(t, start, found, rcs, es, m);
      hide Inv, SetRates, Usable, Probes;
      assert Follows(t, rcs[m], es[m], rcs[m + 1]);
      InvFacts(t, rcs[m]);
      StepProbe(t, rcs[m], es[m]);
      if rcs[i].probe != 0 {
        if es[m].Choose? && rcs[i] != rcs[m] {
          ProbesNow(rcs, es, m);
        } else {
          var k :| 0 <= k < m && Probes(rcs, es, k, m);
          ProbesOn(rcs, es, k, m);
        }
      }
    }
  }

  /** Choice k made the probe pending in state i, and no event between was the outcome of a frame sent at it. */
  ghost predicate Probes(rcs: seq<Rc>, es: seq<Event>, k: nat, i: nat)
    requires k < i < |rcs| == |es| + 1
  {
    && es[k].Choose? && es[k].probeAllowed
    && Next(rcs[k].list, rcs[k].maxPhy) == Some(rcs[i].probe)
    && forall m :: k < m < i ==> rcs[m].probe == rcs[i].probe && (es[m].Sent? ==> es[m].tx != rcs[i].probe)
  }

  lemma StepProbe(t: Table, rc: Rc, e: Event)
    requires Inv(t, rc) && Possible(rc, e)
    ensures var r := Step(t, rc, e);
      && (e.Sent? ==> r.probe == if e.tx == rc.probe then 0 else rc.probe)
      && (e.Choose? && r != rc ==> e.probeAllowed && Next(rc.list, rc.maxPhy) == Some(r.probe))
  {
    InvFacts(t, rc);
    hide Inv, UpdateHt, FindHt, Next;
    match e
    case Sent(tx, o, time) => ProbeEnds(t, rc, tx, o, time);
    case Choose(probeAllowed, time) => RateChoice(t, rc, probeAllowed, time);
  }

  lemma ProbesNow(rcs: seq<Rc>, es: seq<Event>, m: nat)
    requires m + 1 < |rcs| == |es| + 1 && es[m].Choose? && es[m].probeAllowed
    requires Next(rcs[m].list, rcs[m].maxPhy) == Some(rcs[m + 1].probe)
    ensures Probes(rcs, es, m, m + 1)
  {}

  lemma ProbesOn(rcs: seq<Rc>, es: seq<Event>, k: nat, m: nat)
    requires k < m && m + 1 < |rcs| == |es| + 1 && Probes(rcs, es, k, m)
    requires rcs[m + 1].probe == rcs[m].probe && (es[m].Sent? ==> es[m].tx != rcs[m].probe)
    ensures Probes(rcs, es, k, m + 1)
  {
    hide Next;
  }
}
