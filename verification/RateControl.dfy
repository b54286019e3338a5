/** The rate controller of a node: error estimates, the highest rate allowed, probing, and the retry series. */
module RateControl {
  import opened RateList

  const PER_LOOKUP: seq<nat> := [0, 25, 50, 75, 80, 83, 85, 87, 88, 90]
  const U32: nat := 0x1_0000_0000

  /** Storing into an 8-bit field. */
  function U8(x: int): nat {
    x % 256
  }

  function Sub32(x: nat, y: nat): nat {
    (x - y) % U32
  }

  /** The controller's state: the estimate of every rate, the valid rates in order, and the probe. */
  datatype Rc = Rc(per: seq<nat>, list: seq<nat>, size: nat, maxPhy: nat, probe: nat,
                   probeTime: nat, hwCnt: nat, downTime: nat)

  /** How a transmission at some rate went: Xretries, the retries, and the subframes sent and failed. */
  datatype Outcome = Outcome(xretries: nat, retries: nat, nFrames: nat, nBad: nat)

  ghost predicate Sane(o: Outcome) {
    o.nBad <= o.nFrames
  }

  // ---------------------------------------------------------------------------------
  // The invariant

  /** Neighbouring rates i and i + 1 of one kind: the higher one has no lower error rate. */
  predicate Edge(t: Table, per: seq<nat>, i: nat)
    requires i + 1 < |per| && i + 1 < |t.info|
  {
    t.info[i].phy == t.info[i + 1].phy ==> per[i] <= per[i + 1]
  }

  /** Every pair of neighbours below size is in order, but perhaps the pair at position k. */
  ghost predicate MonoBut(t: Table, per: seq<nat>, size: nat, k: int)
    requires size <= |per| && size <= |t.info|
  {
    forall i :: 0 <= i < size - 1 && i != k ==> Edge(t, per, i)
  }

  ghost predicate Percents(per: seq<nat>) {
    forall i :: 0 <= i < |per| ==> per[i] <= 100
  }

  /** The rates are in the table, their user rates are not zero, and the chosen ones are valid. */
  ghost predicate Legal(t: Table, rc: Rc) {
    && rc.size <= |rc.per| && rc.size <= |t.info|
    && (forall r :: r in rc.list ==> r < rc.size && t.info[r].userRateKbps > 0)
    && rc.maxPhy in rc.list
    && (rc.probe == 0 || rc.probe in rc.list)
    && Sorted(t, rc.list)
  }

  ghost predicate Inv(t: Table, rc: Rc) {
    Legal(t, rc) && Percents(rc.per) && MonoBut(t, rc.per, rc.size, -1)
  }

  // ---------------------------------------------------------------------------------
  // The estimate of one rate

  /** 7/8 of the old value and 1/8 of the current one, in integers. */
  function Blend(per: nat, current: nat): nat {
    U8(per - per / 8 + current / 8)
  }

  function Capped(retries: nat): nat {
    if retries >= |PER_LOOKUP| then |PER_LOOKUP| - 1 else retries
  }

  /** The error rate that retries failed attempts and one with nBad of nFrames failed amount to. */
  function Current(retries: nat, nFrames: nat, nBad: nat): nat
    requires nFrames > 0
  {
    100 * (retries * nFrames + nBad) / (nFrames * (retries + 1))
  }

  /** The new estimate of the rate used (ratectrl_11n_ln.c lines 741-798). */
  function NewPer(per: nat, o: Outcome): nat {
    if o.xretries == 1 then (if U8(per + 30) > 100 then 100 else U8(per + 30))
    else if o.xretries != 0 then Blend(per, 100)
    else if o.nBad > 0 then (if o.nFrames > 0 then Blend(per, Current(Capped(o.retries), o.nFrames, o.nBad)) else per)
    else Blend(per, PER_LOOKUP[Capped(o.retries)])
  }

  lemma MulLe(x: nat, y: nat, d: nat)
    requires x <= y
    ensures x * d <= y * d
  {
    assert y * d == x * d + (y - x) * d;
  }

  lemma QuotientBound(a: nat, d: nat, q: nat)
    requires d > 0 && a <= q * d
    ensures a / d <= q
  {
    var r := a / d;
    assert r * d <= a;
    assert (q + 1) * d == q * d + d;
    if r > q {
      MulLe(q + 1, r, d);
    }
  }

  lemma CurrentPercent(retries: nat, nFrames: nat, nBad: nat)
    requires 0 < nFrames && nBad <= nFrames
    ensures Current(retries, nFrames, nBad) <= 100
  {
    var n, d := retries * nFrames + nBad, nFrames * (retries + 1);
    assert d == retries * nFrames + nFrames;
    QuotientBound(100 * n, d, 100);
  }

  lemma BlendPercent(per: nat, current: nat)
    requires per <= 100 && current <= 100
    ensures Blend(per, current) == per - per / 8 + current / 8 <= 100
  {
    hide U8;
    assert per - per / 8 <= 88 && current / 8 <= 12;
    Fits(per - per / 8 + current / 8);
  }

  lemma Fits(x: nat)
    requires x < 256
    ensures U8(x) == x
  {}

  /** The estimate stays a percentage, so no 8-bit store wraps. */
  lemma NewPerPercent(per: nat, o: Outcome)
    requires per <= 100 && Sane(o)
    ensures NewPer(per, o) <= 100
    ensures o.xretries == 1 ==> NewPer(per, o) == if per + 30 > 100 then 100 else per + 30
    ensures o.xretries == 0 && o.nBad > 0 ==>
      NewPer(per, o) == per - per / 8 + Current(Capped(o.retries), o.nFrames, o.nBad) / 8
  {
    hide Current, Blend;
    BlendPercent(per, 100);
    if o.nBad > 0 {
      CurrentPercent(Capped(o.retries), o.nFrames, o.nBad);
      BlendPercent(per, Current(Capped(o.retries), o.nFrames, o.nBad));
    } else {
      BlendPercent(per, PER_LOOKUP[Capped(o.retries)]);
    }
  }

  // ---------------------------------------------------------------------------------
  // The passes that keep the estimates in order

  function Min(x: nat, y: nat): nat {
    if x < y then x else y
  }

  function Max(x: nat, y: nat): nat {
    if x < y then y else x
  }

  /** Rates below, as long as they are of the same kind, take no higher estimate than the one above. */
  function DownPass(t: Table, per: seq<nat>, rate: nat, phy: nat): (r: seq<nat>)
    requires rate < |per| && rate < |t.info|
    ensures |r| == |per|
    decreases rate
  {
    if rate == 0 || t.info[rate - 1].phy != phy then per
    else DownPass(t, per[rate - 1 := Min(per[rate - 1], per[rate])], rate - 1, phy)
  }

  /** Rates above take no lower estimate than the one below. */
  function UpPass(per: seq<nat>, rate: nat, size: nat): (r: seq<nat>)
    requires size <= |per|
    ensures |r| == |per|
    decreases size - rate
  {
    if rate + 1 >= size then per
    else UpPass(per[rate + 1 := Max(per[rate + 1], per[rate])], rate + 1, size)
  }

  lemma {:induction false} DownMono(t: Table, per: seq<nat>, size: nat, rate: nat)
    requires rate < size <= |per| && size <= |t.info|
    requires MonoBut(t, per, size, rate - 1) && Percents(per)
    ensures var r := DownPass(t, per, rate, t.info[rate].phy);
      MonoBut(t, r, size, -1) && Percents(r) && (forall i :: rate <= i < |per| ==> r[i] == per[i])
    decreases rate
  {
    if rate > 0 && t.info[rate - 1].phy == t.info[rate].phy {
      var per' := per[rate - 1 := Min(per[rate - 1], per[rate])];
      assert forall i :: 0 <= i < size - 1 && i != rate - 1 && i != rate - 2 ==> Edge(t, per, i) ==> Edge(t, per', i);
      DownMono(t, per', size, rate - 1);
    }
  }

  lemma {:induction false} UpMono(t: Table, per: seq<nat>, size: nat, rate: nat)
    requires size <= |per| && size <= |t.info|
    requires MonoBut(t, per, size, rate) && Percents(per)
    ensures var r := UpPass(per, rate, size); MonoBut(t, r, size, -1) && Percents(r)
    decreases size - rate
  {
    if rate + 1 < size {
      var per' := per[rate + 1 := Max(per[rate + 1], per[rate])];
      assert forall i :: 0 <= i < size - 1 && i != rate && i != rate + 1 ==> Edge(t, per, i) ==> Edge(t, per', i);
      UpMono(t, per', size, rate + 1);
    }
  }

  function Decayed(per: seq<nat>, size: nat): (r: seq<nat>)
    ensures |r| == |per|
  {
    seq(|per|, i requires 0 <= i < |per| => if i < size then U8(7 * per[i] / 8) else per[i])
  }

  lemma DecayMono(t: Table, per: seq<nat>, size: nat)
    requires size <= |per| && size <= |t.info|
    requires MonoBut(t, per, size, -1) && Percents(per)
    ensures MonoBut(t, Decayed(per, size), size, -1) && Percents(Decayed(per, size))
  {
    var r := Decayed(per, size);
    forall i | 0 <= i < |per|
      ensures r[i] <= 100 && (i < size ==> r[i] == 7 * per[i] / 8)
    {
      Fits(7 * per[i] / 8);
    }
    forall i | 0 <= i < size - 1
      ensures Edge(t, r, i)
    {
      assert Edge(t, per, i);
    }
  }

  // ---------------------------------------------------------------------------------
  // rcUpdate_ht

  predicate Ready(t: Table, rc: Rc, tx: nat) {
    tx < rc.size <= |rc.per| && rc.size <= |t.info| && rc.maxPhy < |t.info|
  }

  /** The probe succeeded: its rate is the highest allowed now, with no bad estimate, and the next may come sooner. */
  function ProbeOk(t: Table, rc: Rc, now: nat): Rc
    requires rc.probe < |rc.per|
  {
    rc.(maxPhy := rc.probe, probe := 0, probeTime := Sub32(now, t.probeInterval / 2),
        per := if rc.per[rc.probe] > 30 then rc.per[rc.probe := 20] else rc.per)
  }

  /** The estimate of the rate used, the end of a probe, and the count of packets sent at the highest rate. */
  function AfterTx(t: Table, rc: Rc, tx: nat, o: Outcome, now: nat): Rc
    requires tx < |rc.per|
  {
    var a := rc.(per := rc.per[tx := NewPer(rc.per[tx], o)]);
    if o.xretries != 0 then a.(probe := if a.probe == tx then 0 else a.probe)
    else
      var b := if a.probe == 0 || a.probe != tx then a
               else if o.retries > 0 || 2 * o.nBad > o.nFrames then a.(probe := 0)
               else ProbeOk(t, a, now);
      if o.retries > 0 then b.(hwCnt := 0)
      else if tx == b.maxPhy && b.hwCnt < 255 then b.(hwCnt := b.hwCnt + 1)
      else b
  }

  /** A rate that looks bad lowers the highest rate allowed. */
  function LowerMax(t: Table, rc: Rc, tx: nat, now: nat): Rc
    requires Ready(t, rc, tx)
  {
    if rc.per[tx] >= 55 && tx > 0 && t.info[tx].rateKbps <= t.info[rc.maxPhy].rateKbps then
      var lower := NextLower(rc.list, tx);
      rc.(maxPhy := if lower.Some? then lower.value else rc.maxPhy, probeTime := now)
    else rc
  }

  function Smooth(t: Table, rc: Rc, tx: nat, last: nat): Rc
    requires tx < rc.size <= |rc.per| && rc.size <= |t.info|
  {
    var per := if rc.per[tx] < last then DownPass(t, rc.per, tx, t.info[tx].phy) else rc.per;
    rc.(per := UpPass(per, tx, rc.size))
  }

  function Age(t: Table, rc: Rc, now: nat): Rc {
    if Sub32(now, rc.downTime) >= t.rssiReduceInterval
    then rc.(per := Decayed(rc.per, rc.size), downTime := now) else rc
  }

  function UpdateHt(t: Table, rc: Rc, tx: nat, o: Outcome, now: nat): Rc
    requires Ready(t, rc, tx)
  {
    Age(t, Smooth(t, LowerMax(t, AfterTx(t, rc, tx, o, now), tx, now), tx, rc.per[tx]), now)
  }

  /** Only the estimate of the rate used changes at first; the chosen rates stay legal. */
  lemma AfterTxLegal(t: Table, rc: Rc, tx: nat, o: Outcome, now: nat)
    requires Legal(t, rc) && Percents(rc.per) && Sane(o) && tx < rc.size
    ensures var a := AfterTx(t, rc, tx, o, now);
      && Legal(t, a) && a.list == rc.list && a.size == rc.size
      && a.per == rc.per[tx := a.per[tx]] && a.per[tx] <= 100
  {
    NewPerPercent(rc.per[tx], o);
    hide NewPer, Sub32, Sorted;
  }

  lemma LowerMaxLegal(t: Table, rc: Rc, tx: nat, now: nat)
    requires Legal(t, rc) && tx < rc.size
    ensures var a := LowerMax(t, rc, tx, now);
      Legal(t, a) && a.list == rc.list && a.size == rc.size && a.per == rc.per
  {
    hide Sorted;
    NextLowerMember(rc.list, tx);
  }

  /** From estimates in order, one changed: the passes restore the order. */
  lemma SmoothMono(t: Table, per: seq<nat>, rc: Rc, tx: nat)
    requires tx < rc.size <= |per| == |rc.per| && rc.size <= |t.info| && rc.per == per[tx := rc.per[tx]]
    requires MonoBut(t, per, rc.size, -1) && Percents(per) && rc.per[tx] <= 100
    ensures var a := Smooth(t, rc, tx, per[tx]); MonoBut(t, a.per, rc.size, -1) && Percents(a.per)
  {
    assert forall i :: 0 <= i < rc.size - 1 && i != tx - 1 && i != tx ==> Edge(t, per, i) ==> Edge(t, rc.per, i);
    if rc.per[tx] < per[tx] {
      assert tx + 1 < rc.size ==> Edge(t, per, tx);
      DownMono(t, rc.per, rc.size, tx);
      UpMono(t, DownPass(t, rc.per, tx, t.info[tx].phy), rc.size, tx);
    } else {
      assert tx > 0 ==> Edge(t, per, tx - 1);
      UpMono(t, rc.per, rc.size, tx);
    }
  }

  /** An update keeps the invariant. */
  lemma UpdateInv(t: Table, rc: Rc, tx: nat, o: Outcome, now: nat)
    requires Inv(t, rc) && Sane(o) && tx < rc.size
    ensures Inv(t, UpdateHt(t, rc, tx, o, now)) && UpdateHt(t, rc, tx, o, now).list == rc.list
    ensures UpdateHt(t, rc, tx, o, now).size == rc.size
  {
    hide AfterTx, LowerMax, DownPass, UpPass, Decayed, MonoBut, Percents, Sorted, NewPer;
    AfterTxLegal(t, rc, tx, o, now);
    var a := AfterTx(t, rc, tx, o, now);
    LowerMaxLegal(t, a, tx, now);
    var b := LowerMax(t, a, tx, now);
    SmoothMono(t, rc.per, b, tx);
    DecayMono(t, Smooth(t, b, tx, rc.per[tx]).per, rc.size);
  }

  // ---------------------------------------------------------------------------------
  // rcRateFind_ht

  /** The product of user rate and success rate; error rates up to 12% do not count. */
  function Throughput(t: Table, rc: Rc, rate: nat): int
    requires rate < |t.info| && rate < |rc.per|
  {
    t.info[rate].userRateKbps * (100 - Max(12, rc.per[rate]))
  }

  ghost predicate InTable(t: Table, rc: Rc) {
    forall r :: r in rc.list ==> r < |t.info| && r < |rc.per| && r < rc.size && t.info[r].userRateKbps > 0
  }

  /**
   The scan over the first k valid rates, from the highest. It ends early at a rate whose user rate
   does not exceed the product found so far, though one is a percentage times the other.
   */
  function Best(t: Table, rc: Rc, k: nat, best: nat, thruput: int): nat
    requires k <= |rc.list| && InTable(t, rc)
  {
    if k == 0 then best
    else
      var rate := rc.list[k - 1];
      assert rate in rc.list;
      if rate > rc.maxPhy then Best(t, rc, k - 1, best, thruput)
      else if thruput >= t.info[rate].userRateKbps then best
      else if thruput <= Throughput(t, rc, rate) then Best(t, rc, k - 1, rate, Throughput(t, rc, rate))
      else Best(t, rc, k - 1, best, thruput)
  }

  lemma InvFacts(t: Table, rc: Rc)
    requires Inv(t, rc)
    ensures InTable(t, rc) && rc.size > 0 && rc.maxPhy in rc.list && Percents(rc.per)
    ensures rc.size <= |rc.per| && rc.size <= |t.info|
  {}

  /** What is found is a valid rate not above the highest allowed. */
  lemma {:induction false} BestAllowed(t: Table, rc: Rc, k: nat, best: nat, thruput: int)
    requires InTable(t, rc) && k <= |rc.list| && Percents(rc.per)
    requires (best in rc.list && best <= rc.maxPhy) || (thruput == 0 && rc.maxPhy in rc.list[..k])
    ensures Best(t, rc, k, best, thruput) in rc.list && Best(t, rc, k, best, thruput) <= rc.maxPhy
  {
    if k > 0 {
      var rate := rc.list[k - 1];
      PrefixMember(rc.list, k, rc.maxPhy);
      ThroughputNotNegative(t, rc, rate);
      hide InTable, Throughput, Percents;
      if rate > rc.maxPhy {
        BestAllowed(t, rc, k - 1, best, thruput);
      } else if thruput < t.info[rate].userRateKbps {
        if thruput <= Throughput(t, rc, rate) {
          BestAllowed(t, rc, k - 1, rate, Throughput(t, rc, rate));
        } else {
          BestAllowed(t, rc, k - 1, best, thruput);
        }
      }
    }
  }

  lemma PrefixMember(list: seq<nat>, k: nat, x: nat)
    requires 0 < k <= |list|
    ensures x in list[..k] ==> x == list[k - 1] || x in list[..k - 1]
    ensures list[k - 1] in list
  {
    assert list[..k] == list[..k - 1] + [list[k - 1]];
  }

  lemma ThroughputNotNegative(t: Table, rc: Rc, rate: nat)
    requires InTable(t, rc) && Percents(rc.per) && rate in rc.list
    ensures rate < |t.info| && rate < |rc.per|
    ensures 0 <= Throughput(t, rc, rate) && t.info[rate].userRateKbps > 0
    ensures if rc.per[rate] == 100 then Throughput(t, rc, rate) == 0
            else Throughput(t, rc, rate) >= t.info[rate].userRateKbps
  {
    var u, p: int := t.info[rate].userRateKbps, 100 - Max(12, rc.per[rate]);
    MulLe(0, p, u);
    assert u * p == p * u;
    if p > 0 { MulLe(1, p, u); }
  }

  /** Position i of the list holds a rate not above the highest allowed. */
  predicate Allowed(rc: Rc, i: int) {
    0 <= i < |rc.list| && rc.list[i] <= rc.maxPhy
  }

  /** The user rate of the rate at position i. */
  function UserAt(t: Table, rc: Rc, i: int): int
    requires InTable(t, rc) && 0 <= i < |rc.list|
  {
    assert rc.list[i] in rc.list;
    t.info[rc.list[i]].userRateKbps
  }

  /** The product the scan compares at position i. */
  function ThruputAt(t: Table, rc: Rc, i: int): int
    requires InTable(t, rc) && 0 <= i < |rc.list|
  {
    assert rc.list[i] in rc.list;
    Throughput(t, rc, rc.list[i])
  }

  /** It is the user rate times the percentage of success, 88 at most. */
  lemma ThruputIs(t: Table, rc: Rc, i: nat)
    requires InTable(t, rc) && Percents(rc.per) && i < |rc.list|
    ensures rc.list[i] < |t.info| && rc.list[i] < |rc.per|
    ensures var per := rc.per[rc.list[i]];
      ThruputAt(t, rc, i) == t.info[rc.list[i]].userRateKbps * if per < 12 then 88 else 100 - per
  {
    assert rc.list[i] in rc.list;
  }

  /** From position k, with product thruput, the scan gets down to b: no rate on the way ends it. */
  ghost predicate Reaches(t: Table, rc: Rc, k: nat, thruput: int, b: nat)
    requires InTable(t, rc) && k <= |rc.list|
  {
    && (forall j :: b <= j < k && Allowed(rc, j) ==> thruput < UserAt(t, rc, j))
    && (forall i, j :: b <= j < i < k && Allowed(rc, i) && Allowed(rc, j) ==> ThruputAt(t, rc, i) < UserAt(t, rc, j))
  }

  /** From b on nothing comes that delivers as much, unless behind a rate that ends the scan. */
  ghost predicate Lasts(t: Table, rc: Rc, b: nat)
    requires InTable(t, rc) && b < |rc.list|
  {
    forall j :: 0 <= j < b && Allowed(rc, j) && ThruputAt(t, rc, j) >= ThruputAt(t, rc, b) ==>
      exists m :: j <= m < b && Allowed(rc, m) && UserAt(t, rc, m) <= ThruputAt(t, rc, b)
  }

  /** Position b is where the scan over the first k rates ends up. */
  ghost predicate Wins(t: Table, rc: Rc, k: nat, thruput: int, b: nat)
    requires InTable(t, rc) && k <= |rc.list|
  {
    && b < k && Allowed(rc, b) && thruput <= ThruputAt(t, rc, b) && Reaches(t, rc, k, thruput, b)
    && (forall i :: b < i < k && Allowed(rc, i) ==> ThruputAt(t, rc, i) <= ThruputAt(t, rc, b))
    && Lasts(t, rc, b)
  }

  lemma WinsBelow(t: Table, rc: Rc, k: nat, thruput: int, b: nat)
    requires InTable(t, rc) && 0 < k <= |rc.list| && Wins(t, rc, k - 1, thruput, b)
    requires Allowed(rc, k - 1) ==> thruput < UserAt(t, rc, k - 1) && ThruputAt(t, rc, k - 1) <= thruput
    ensures Wins(t, rc, k, thruput, b)
  {
    hide Lasts, UserAt, ThruputAt;
  }

  lemma WinsHigher(t: Table, rc: Rc, k: nat, thruput: int, b: nat)
    requires InTable(t, rc) && 0 < k <= |rc.list| && Allowed(rc, k - 1)
    requires thruput < UserAt(t, rc, k - 1) && thruput <= ThruputAt(t, rc, k - 1)
    requires Wins(t, rc, k - 1, ThruputAt(t, rc, k - 1), b)
    ensures Wins(t, rc, k, thruput, b)
  {
    hide Lasts, UserAt, ThruputAt;
  }

  /** The scan below position k changes nothing: a rate ends it before one that delivers as much. */
  ghost predicate Stays(t: Table, rc: Rc, k: nat, thruput: int)
    requires InTable(t, rc) && k <= |rc.list|
  {
    forall j :: 0 <= j < k && Allowed(rc, j) && ThruputAt(t, rc, j) >= thruput ==>
      exists m :: j <= m < k && Allowed(rc, m) && UserAt(t, rc, m) <= thruput
  }

  lemma StaysDown(t: Table, rc: Rc, k: nat, thruput: int)
    requires InTable(t, rc) && 0 < k <= |rc.list| && Stays(t, rc, k - 1, thruput)
    requires Allowed(rc, k - 1) ==> ThruputAt(t, rc, k - 1) < thruput
    ensures Stays(t, rc, k, thruput)
  {
    hide UserAt, ThruputAt, Allowed;
    forall j | 0 <= j < k && Allowed(rc, j) && ThruputAt(t, rc, j) >= thruput
      ensures exists m :: j <= m < k && Allowed(rc, m) && UserAt(t, rc, m) <= thruput
    {
      var m :| j <= m < k - 1 && Allowed(rc, m) && UserAt(t, rc, m) <= thruput;
    }
  }

  lemma StaysWins(t: Table, rc: Rc, k: nat, thruput: int)
    requires InTable(t, rc) && 0 < k <= |rc.list| && Allowed(rc, k - 1)
    requires thruput < UserAt(t, rc, k - 1) && thruput <= ThruputAt(t, rc, k - 1)
    requires Stays(t, rc, k - 1, ThruputAt(t, rc, k - 1))
    ensures Wins(t, rc, k, thruput, k - 1)
  {
    hide UserAt, ThruputAt;
  }

  /** The scan ends up where the conditions say, or with what it came with. */
  lemma {:induction false} ScanWins(t: Table, rc: Rc, k: nat, best: nat, thruput: int) returns (b: int)
    requires InTable(t, rc) && k <= |rc.list|
    ensures b < 0 ==> Best(t, rc, k, best, thruput) == best && Stays(t, rc, k, thruput)
    ensures b >= 0 ==> Wins(t, rc, k, thruput, b) && Best(t, rc, k, best, thruput) == rc.list[b]
  {
    hide Wins, Throughput, Stays;
    if k == 0 {
      b := -1;
      StaysNone(t, rc, thruput);
    } else {
      var rate := rc.list[k - 1];
      assert rate in rc.list;
      var there := ThruputAt(t, rc, k - 1);
      if Allowed(rc, k - 1) && thruput >= UserAt(t, rc, k - 1) {
        b := -1;
        StaysStopped(t, rc, k, thruput);
      } else if Allowed(rc, k - 1) && thruput <= there {
        b := ScanWins(t, rc, k - 1, rate, there);
        if b < 0 {
          b := k - 1;
          StaysWins(t, rc, k, thruput);
        } else {
          WinsHigher(t, rc, k, thruput, b);
        }
      } else {
        b := ScanWins(t, rc, k - 1, best, thruput);
        if b < 0 { StaysDown(t, rc, k, thruput); } else { WinsBelow(t, rc, k, thruput, b); }
      }
    }
  }

  lemma StaysNone(t: Table, rc: Rc, thruput: int)
    requires InTable(t, rc)
    ensures Stays(t, rc, 0, thruput)
  {}

  lemma StaysStopped(t: Table, rc: Rc, k: nat, thruput: int)
    requires InTable(t, rc) && 0 < k <= |rc.list| && Allowed(rc, k - 1) && UserAt(t, rc, k - 1) <= thruput
    ensures Stays(t, rc, k, thruput)
  {
    hide UserAt, ThruputAt;
  }

  lemma WinsOnce(t: Table, rc: Rc, k: nat, thruput: int, a: nat, b: nat)
    requires InTable(t, rc) && k <= |rc.list| && a <= b && Wins(t, rc, k, thruput, a) && Wins(t, rc, k, thruput, b)
    ensures a == b
  {
    hide UserAt, ThruputAt, Throughput;
  }

  lemma SomethingFound(t: Table, rc: Rc)
    requires InTable(t, rc) && Percents(rc.per) && rc.maxPhy in rc.list
    ensures !Stays(t, rc, |rc.list|, 0)
  {
    var i :| 0 <= i < |rc.list| && rc.list[i] == rc.maxPhy;
    forall m | 0 <= m < |rc.list| ensures UserAt(t, rc, m) > 0 { LiveThruput(t, rc, m); }
    hide UserAt, ThruputAt;
    LiveThruput(t, rc, i);
    assert Allowed(rc, i) && ThruputAt(t, rc, i) >= 0;
  }

  /**
   What the search returns, whatever the list is sorted by: the rate at the one position b such that the scan
   gets that far, no rate before it delivers more, and none after it as much unless the scan has ended.
   */
  lemma SearchFinds(t: Table, rc: Rc) returns (b: nat)
    requires InTable(t, rc) && Percents(rc.per) && rc.maxPhy in rc.list
    ensures Wins(t, rc, |rc.list|, 0, b) && Best(t, rc, |rc.list|, 0, 0) == rc.list[b]
    ensures forall a: nat :: Wins(t, rc, |rc.list|, 0, a) ==> a == b
  {
    var p := ScanWins(t, rc, |rc.list|, 0, 0);
    SomethingFound(t, rc);
    b := p;
    forall a: nat | Wins(t, rc, |rc.list|, 0, a) ensures a == b {
      hide Wins;
      if a <= b { WinsOnce(t, rc, |rc.list|, 0, a, b); } else { WinsOnce(t, rc, |rc.list|, 0, b, a); }
    }
  }

  /** The rate at position i is allowed and does not always fail. */
  predicate Live(t: Table, rc: Rc, i: int)
    requires InTable(t, rc)
  {
    Allowed(rc, i) && (assert rc.list[i] in rc.list; rc.per[rc.list[i]] < 100)
  }

  /** The highest position that is live. */
  ghost predicate TopLive(t: Table, rc: Rc, p: nat)
    requires InTable(t, rc)
  {
    Live(t, rc, p) && forall j :: p < j < |rc.list| ==> !Live(t, rc, j)
  }

  /** Below p, and before any rate that ends the scan, is a live rate whose user rate exceeds the product at p. */
  ghost predicate Overtaken(t: Table, rc: Rc, p: nat)
    requires InTable(t, rc) && p < |rc.list|
  {
    exists i :: 0 <= i < p && Live(t, rc, i)
      && forall j :: i <= j < p && Allowed(rc, j) ==> ThruputAt(t, rc, p) < UserAt(t, rc, j)
  }

  lemma LiveThruput(t: Table, rc: Rc, i: nat)
    requires InTable(t, rc) && Percents(rc.per) && i < |rc.list|
    ensures UserAt(t, rc, i) > 0
    ensures Allowed(rc, i) ==>
      if Live(t, rc, i) then ThruputAt(t, rc, i) >= UserAt(t, rc, i) else ThruputAt(t, rc, i) == 0
  {
    assert rc.list[i] in rc.list;
    ThroughputNotNegative(t, rc, rc.list[i]);
  }

  lemma TopWins(t: Table, rc: Rc, p: nat)
    requires InTable(t, rc) && Percents(rc.per) && TopLive(t, rc, p) && !Overtaken(t, rc, p)
    ensures Wins(t, rc, |rc.list|, 0, p)
  {
    hide UserAt, ThruputAt, Throughput, Percents;
    forall i | 0 <= i < |rc.list| ensures UserAt(t, rc, i) > 0 { LiveThruput(t, rc, i); }
    forall i | p <= i < |rc.list| && Allowed(rc, i)
      ensures if i == p then ThruputAt(t, rc, i) >= UserAt(t, rc, i) else ThruputAt(t, rc, i) == 0
    {
      LiveThruput(t, rc, i);
    }
    forall j | 0 <= j < p && Allowed(rc, j) && ThruputAt(t, rc, j) >= ThruputAt(t, rc, p)
      ensures exists m :: j <= m < p && Allowed(rc, m) && UserAt(t, rc, m) <= ThruputAt(t, rc, p)
    {
      LiveThruput(t, rc, j);
      assert Live(t, rc, j);
    }
  }

  lemma OvertakenLoses(t: Table, rc: Rc, p: nat)
    requires InTable(t, rc) && Percents(rc.per) && TopLive(t, rc, p) && Overtaken(t, rc, p)
    ensures !Lasts(t, rc, p)
  {
    hide UserAt, ThruputAt, Throughput, Percents;
    var i :| 0 <= i < p && Live(t, rc, i)
      && forall j :: i <= j < p && Allowed(rc, j) ==> ThruputAt(t, rc, p) < UserAt(t, rc, j);
    LiveThruput(t, rc, i);
    assert ThruputAt(t, rc, i) >= ThruputAt(t, rc, p);
  }

  lemma WinnerDiffers(t: Table, rc: Rc, p: nat, b: nat)
    requires InTable(t, rc) && Percents(rc.per) && TopLive(t, rc, p)
    requires !Lasts(t, rc, p) && Wins(t, rc, |rc.list|, 0, b)
    ensures rc.list[b] != rc.list[p]
  {
    hide Throughput, Percents, Lasts;
    LiveThruput(t, rc, p);
    assert Live(t, rc, b) ==> b <= p;
    assert b < p ==> ThruputAt(t, rc, p) < UserAt(t, rc, b);
  }

  /**
   Exactly when the search finds the highest allowed rate that does not always fail, for both sort keys: when no
   live rate further down, ahead of the rate that ends the scan, has a user rate above the product found.
   */
  lemma FindsTopIff(t: Table, rc: Rc, p: nat)
    requires InTable(t, rc) && Percents(rc.per) && rc.maxPhy in rc.list && TopLive(t, rc, p)
    ensures Best(t, rc, |rc.list|, 0, 0) == rc.list[p] <==> !Overtaken(t, rc, p)
  {
    hide Best, Wins, Overtaken, Lasts;
    var b := SearchFinds(t, rc);
    if Overtaken(t, rc, p) {
      OvertakenLoses(t, rc, p);
      WinnerDiffers(t, rc, p, b);
    } else {
      TopWins(t, rc, p);
    }
  }

  /** Where user rates do not fall along the list, nothing is overtaken: the search finds that rate. */
  lemma OrderedFindsTop(t: Table, rc: Rc, p: nat)
    requires InTable(t, rc) && Percents(rc.per) && rc.maxPhy in rc.list && TopLive(t, rc, p)
    requires forall i, j :: 0 <= i < j < |rc.list| ==> UserAt(t, rc, i) <= UserAt(t, rc, j)
    ensures Best(t, rc, |rc.list|, 0, 0) == rc.list[p]
  {
    FindsTopIff(t, rc, p);
    hide Best, ThruputAt, Throughput, Percents, UserAt;
    LiveThruput(t, rc, p);
    forall i | 0 <= i < p ensures UserAt(t, rc, i) <= ThruputAt(t, rc, p) {
      assert UserAt(t, rc, i) <= UserAt(t, rc, p);
    }
  }

  /** So always on AR9271, whose list is in order of user rate. */
  lemma Ar9271FindsTop(t: Table, rc: Rc, p: nat)
    requires InTable(t, rc) && Percents(rc.per) && rc.maxPhy in rc.list && TopLive(t, rc, p)
    requires Sorted(t, rc.list) && !t.merlin
    ensures Best(t, rc, |rc.list|, 0, 0) == rc.list[p]
  {
    hide Best, Percents, TopLive;
    forall i, j | 0 <= i < j < |rc.list| ensures UserAt(t, rc, i) <= UserAt(t, rc, j) {
      assert Key(t, rc.list[i]) <= Key(t, rc.list[j]);
      assert rc.list[i] in rc.list && rc.list[j] in rc.list;
    }
    OrderedFindsTop(t, rc, p);
  }

  datatype Choice = Choice(rate: nat, isProbe: bool)

  /** The scan's result, or the highest rate allowed, or a probe of the next one above that. */
  function Decide(t: Table, rc: Rc, best: nat, probeAllowed: bool, now: nat): (Rc, Choice)
    requires rc.size > 0
  {
    var next := Next(rc.list, rc.maxPhy);
    if best >= rc.maxPhy && probeAllowed then
      if next.Some? && Sub32(now, rc.probeTime) > t.probeInterval && rc.hwCnt >= 1
      then (rc.(probe := next.value, probeTime := now, hwCnt := 0), Choice(Min(next.value, rc.size - 1), true))
      else (rc, Choice(Min(rc.maxPhy, rc.size - 1), false))
    else (rc, Choice(Min(best, rc.size - 1), false))
  }

  /** The rate to send at. */
  function FindHt(t: Table, rc: Rc, probeAllowed: bool, now: nat): (Rc, Choice)
    requires rc.size > 0 && InTable(t, rc)
  {
    Decide(t, rc, Best(t, rc, |rc.list|, 0, 0), probeAllowed, now)
  }

  lemma ProbeInv(t: Table, rc: Rc, probe: nat, now: nat)
    requires Inv(t, rc) && probe in rc.list
    ensures Inv(t, rc.(probe := probe, probeTime := now, hwCnt := 0))
  {
    hide MonoBut, Percents, Sorted;
  }

  /** What Decide makes of a rate that is valid and allowed. */
  lemma DecideLegal(t: Table, rc: Rc, best: nat, probeAllowed: bool, now: nat)
    requires rc.maxPhy in rc.list && best in rc.list && best <= rc.maxPhy
    requires forall r :: r in rc.list ==> r < rc.size
    ensures rc.size > 0
    ensures var (rc', c) := Decide(t, rc, best, probeAllowed, now);
      && c.rate in rc.list
      && (c.isProbe ==> probeAllowed && Next(rc.list, rc.maxPhy) == Some(c.rate)
                        && rc' == rc.(probe := c.rate, probeTime := now, hwCnt := 0))
      && (!c.isProbe ==> c.rate <= rc.maxPhy && rc' == rc)
  {
    hide Sub32, Next;
    NextMember(rc.list, rc.maxPhy);
  }

  /**
   The rate chosen is always valid. Without a probe it is not above the highest rate allowed; with
   one it is the next in the list after it, remembered as the probe, and probes were allowed.
   */
  lemma RateChoice(t: Table, rc: Rc, probeAllowed: bool, now: nat)
    requires Inv(t, rc)
    ensures rc.size > 0 && InTable(t, rc)
    ensures var (rc', c) := FindHt(t, rc, probeAllowed, now);
      && Inv(t, rc') && rc' == rc.(probe := rc'.probe, probeTime := rc'.probeTime, hwCnt := rc'.hwCnt)
      && c.rate in rc.list
      && (c.isProbe ==> probeAllowed && rc'.probe == c.rate && Next(rc.list, rc.maxPhy) == Some(c.rate))
      && (!c.isProbe ==> c.rate <= rc.maxPhy && rc' == rc)
  {
    InvFacts(t, rc);
    assert rc.list[..|rc.list|] == rc.list;
    BestAllowed(t, rc, |rc.list|, 0, 0);
    DecideLegal(t, rc, Best(t, rc, |rc.list|, 0, 0), probeAllowed, now);
    hide Best, Inv, Next, Percents, Decide, InTable;
    var c := FindHt(t, rc, probeAllowed, now).1;
    if c.isProbe {
      ProbeInv(t, rc, c.rate, now);
    }
  }

  // ---------------------------------------------------------------------------------
  // Runs

  function MaxOf(s: seq<nat>): (m: nat)
    ensures forall x :: x in s ==> x <= m
    ensures s != [] ==> m in s
  {
    if s == [] then 0
    else
      var m := MaxOf(s[1..]);
      assert s == [s[0]] + s[1..];
      if s[1..] == [] then s[0] else Max(s[0], m)
  }

  /** rcSibUpdate_ht: start over with the rates found, kind by kind; the list is then sorted. */
  function SetRates(t: Table, rc: Rc, found: seq<nat>): Rc
    requires |found| >= 4
  {
    rc.(per := seq(|rc.per|, _ => 0), size := MaxOf(found) + 1, maxPhy := found[|found| - 4],
        list := Bubbled(t, found, |found| - 1))
  }

  /** The rates found are rates of the table that fit the estimates. */
  ghost predicate Usable(t: Table, rc: Rc, found: seq<nat>) {
    |found| >= 4 && forall r :: r in found ==> r < |t.info| && r < |rc.per| && t.info[r].userRateKbps > 0
  }

  lemma SamePrefix(s: seq<nat>, r: seq<nat>)
    requires multiset(s) == multiset(r)
    ensures forall x :: x in s <==> x in r
  {
    forall x
      ensures x in s <==> x in r
    {
      assert x in s <==> x in multiset(s);
      assert x in r <==> x in multiset(r);
    }
  }

  lemma ZeroesMono(t: Table, n: nat, size: nat)
    requires size <= n && size <= |t.info|
    ensures var z := seq(n, _ => 0); MonoBut(t, z, size, -1) && Percents(z)
  {}

  lemma SortedFound(t: Table, found: seq<nat>)
    requires found != []
    ensures var list := Bubbled(t, found, |found| - 1);
      Sorted(t, list) && forall r :: r in list <==> r in found
  {
    SortOrders(t, found, |found|);
    hide Sorted, Bubbled;
    var list := Bubbled(t, found, |found| - 1);
    assert list[..|found|] == list && found[..|found|] == found;
    SamePrefix(list, found);
  }

  /** A rate set with no probe pending starts the invariant. */
  lemma SetRatesInv(t: Table, rc: Rc, found: seq<nat>)
    requires Usable(t, rc, found) && rc.probe == 0
    ensures Inv(t, SetRates(t, rc, found)) && SetRates(t, rc, found).size == MaxOf(found) + 1
    ensures forall r :: r in SetRates(t, rc, found).list <==> r in found
  {
    SortedFound(t, found);
    hide Sorted, Bubbled, MonoBut, Percents;
    assert found[|found| - 4] in found;
    ZeroesMono(t, |rc.per|, MaxOf(found) + 1);
  }

  datatype Event =
    | Sent(tx: nat, o: Outcome, time: nat)
    | Choose(probeAllowed: bool, time: nat)

  ghost predicate Possible(rc: Rc, e: Event) {
    e.Sent? ==> e.tx < rc.size && Sane(e.o)
  }

  ghost function Step(t: Table, rc: Rc, e: Event): Rc
    requires Inv(t, rc) && Possible(rc, e)
  {
    InvFacts(t, rc);
    match e
    case Sent(tx, o, time) => UpdateHt(t, rc, tx, o, time)
    case Choose(probeAllowed, time) => FindHt(t, rc, probeAllowed, time).0
  }

  lemma StepInv(t: Table, rc: Rc, e: Event)
    requires Inv(t, rc) && Possible(rc, e)
    ensures Inv(t, Step(t, rc, e)) && Step(t, rc, e).size == rc.size && Step(t, rc, e).list == rc.list
  {
    InvFacts(t, rc);
    hide Inv, UpdateHt, FindHt, Sane;
    match e {
      case Sent(tx, o, time) => UpdateInv(t, rc, tx, o, time);
      case Choose(probeAllowed, time) => RateChoice(t, rc, probeAllowed, time);
    }
  }

  ghost predicate Follows(t: Table, a: Rc, e: Event, b: Rc) {
    Inv(t, a) ==> Possible(a, e) && b == Step(t, a, e)
  }

  /** The states a run goes through, each event being possible where it happens. */
  ghost predicate Runs(t: Table, rcs: seq<Rc>, es: seq<Event>) {
    && |rcs| == |es| + 1
    && forall i :: 0 <= i < |es| ==> Follows(t, rcs[i], es[i], rcs[i + 1])
  }

  /**
   Over every run after a rate set with no probe pending: all estimates are percentages, in order
   across neighbours of one kind; the highest rate allowed is valid, and so is a pending probe.
   */
  lemma {:induction false} RunInv(t: Table, start: Rc, found: seq<nat>, rcs: seq<Rc>, es: seq<Event>, i: nat)
    requires Usable(t, start, found) && start.probe == 0
    requires Runs(t, rcs, es) && rcs[0] == SetRates(t, start, found) && i < |rcs|
    ensures Inv(t, rcs[i]) && rcs[i].list == rcs[0].list && rcs[i].size == rcs[0].size
  {
    if i == 0 {
      SetRatesInv(t, start, found);
    } else {
      var j := i - 1;
      RunInv(t, start, found, rcs, es, j);
      hide Inv, SetRates, Usable;
      assert Follows(t, rcs[j], es[j], rcs[j + 1]);
      StepInv(t, rcs[j], es[j]);
    }
  }
}
