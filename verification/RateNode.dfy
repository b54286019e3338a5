/**
 The rate controller as the firmware keeps it for one node: fields and arrays updated in place. Each
 method is proved to do what the functions of RateControl and RateSeries say.
 */
module RateNode {
  import opened RateList
  import opened RateControl
  import opened RateSeries
  import C = RateControl

  class Node {
    const t: Table
    const per: array<nat>
    const validRateIndex: array<nat>
    var maxValidRate: nat
    var rateTableSize: nat
    var rateMaxPhy: nat
    var probeRate: nat
    var probeTime: nat
    var hwMaxRetryPktCnt: nat
    var perDownTime: nat

    ghost function Abs(): Rc
      requires maxValidRate <= validRateIndex.Length
      reads this, per, validRateIndex
    {
      Rc(per[..], validRateIndex[..maxValidRate], rateTableSize, rateMaxPhy,
         probeRate, probeTime, hwMaxRetryPktCnt, perDownTime)
    }

    ghost predicate Shape()
      reads this
    {
      per != validRateIndex && maxValidRate <= validRateIndex.Length
    }

    ghost predicate Valid()
      reads this, per, validRateIndex
    {
      Shape() && Inv(t, Abs())
    }

    constructor (t: Table, maxTable: nat)
      ensures Shape() && fresh(per) && fresh(validRateIndex) && this.t == t
      ensures per.Length == maxTable == validRateIndex.Length && probeRate == 0
    {
      this.t := t;
      per, validRateIndex := new nat[maxTable](_ => 0), new nat[maxTable](_ => 0);
      maxValidRate, rateTableSize, rateMaxPhy := 0, 0, 0;
      probeRate, probeTime, hwMaxRetryPktCnt, perDownTime := 0, 0, 0, 0;
    }

    method ZeroPer()
      modifies per
      ensures per[..] == seq(per.Length, _ => 0)
    {
      for i := 0 to per.Length
        invariant forall k :: 0 <= k < i ==> per[k] == 0
      {
        per[i] := 0;
      }
    }

    method StoreRates(found: seq<nat>)
      requires |found| <= validRateIndex.Length
      modifies validRateIndex
      ensures validRateIndex[..|found|] == found
    {
      for k := 0 to |found|
        invariant validRateIndex[..k] == found[..k]
      {
        validRateIndex[k] := found[k];
      }
    }

    method SortRates(n: nat, ghost found: seq<nat>)
      requires 0 < n == |found| <= validRateIndex.Length && validRateIndex[..n] == found
      modifies validRateIndex
      ensures validRateIndex[..n] == Bubbled(t, found, n - 1)
    {
      hide Bubbled;
      BubbledPrefix(t, validRateIndex[..], n, n - 1);
      assert validRateIndex[..][..n] == found;
      SortValidRates(t, validRateIndex, n);
      assert validRateIndex[..n] == validRateIndex[..][..n];
    }

    /** rcSibUpdate_ht, with the rates found kind by kind. */
    method SibUpdate(found: seq<nat>)
      requires Shape() && |found| <= validRateIndex.Length && Usable(t, Abs(), found)
      modifies this, per, validRateIndex
      ensures Shape() && Abs() == SetRates(t, old(Abs()), found)
      ensures old(probeRate) == 0 ==> Valid()
    {
      hide Inv, SetRates;
      if probeRate == 0 { SetRatesInv(t, Abs(), found); }
      Rebuild(found);
    }

    method Rebuild(found: seq<nat>)
      requires Shape() && 4 <= |found| <= validRateIndex.Length
      modifies this, per, validRateIndex
      ensures Shape() && Abs() == SetRates(t, old(Abs()), found)
    {
      hide Bubbled, MaxOf;
      ZeroPer();
      StoreRates(found);
      rateTableSize := MaxOf(found) + 1;
      rateMaxPhy := found[|found| - 4];
      maxValidRate := |found|;
      SortRates(|found|, found);
    }

    // -------------------------------------------------------------------------------
    // Choosing

    /** rcRateFind_ht */
    method RateFind(probeAllowed: bool, now: nat) returns (c: Choice)
      requires Valid()
      modifies this
      ensures Valid() && (Abs(), c) == FindHt(t, old(Abs()), probeAllowed, now)
    {
      RateChoice(t, Abs(), probeAllowed, now);
      hide Inv, Best, C.Decide, InTable;
      var best := Scan();
      c := Decide(best, probeAllowed, now);
    }

    method Decide(best: nat, probeAllowed: bool, now: nat) returns (c: Choice)
      requires Shape() && rateTableSize > 0
      modifies this
      ensures Shape() && (Abs(), c) == C.Decide(t, old(Abs()), best, probeAllowed, now)
    {
      hide Next, Sub32;
      var rate := best;
      var isProbe := false;
      if rate >= rateMaxPhy && probeAllowed {
        rate := rateMaxPhy;
        var next := GetNext(validRateIndex, maxValidRate, rate);
        if next.Some? && Sub32(now, probeTime) > t.probeInterval && hwMaxRetryPktCnt >= 1 {
          rate := next.value;
          probeRate, probeTime, hwMaxRetryPktCnt := rate, now, 0;
          isProbe := true;
        }
      }
      if rate > rateTableSize - 1 {
        rate := rateTableSize - 1;
      }
      c := Choice(rate, isProbe);
    }

    /** The loop of rcRateFind_ht over the valid rates, from the highest. */
    method Scan() returns (best: nat)
      requires Valid()
      ensures InTable(t, Abs()) && best == Best(t, Abs(), maxValidRate, 0, 0)
    {
      ghost var rc := Abs();
      InvFacts(t, rc);
      hide Inv;
      best := 0;
      var thruput: int := 0;
      var index := maxValidRate;
      while index > 0
        invariant 0 <= index <= maxValidRate
        invariant Best(t, rc, index, best, thruput) == Best(t, rc, maxValidRate, 0, 0)
      {
        index := index - 1;
        var rate := validRateIndex[index];
        assert rate == rc.list[index] && rate in rc.list;
        if rate <= rateMaxPhy {
          if thruput >= t.info[rate].userRateKbps {
            break;
          }
          var thr := t.info[rate].userRateKbps * (100 - Max(12, per[rate]));
          assert thr == Throughput(t, rc, rate);
          if thruput <= thr {
            best, thruput := rate, thr;
          }
        }
      }
    }

    // -------------------------------------------------------------------------------
    // Updating

    method SetPer(rate: nat, value: nat)
      requires Shape() && rate < per.Length
      modifies per
      ensures Abs() == old(Abs()).(per := old(per[..])[rate := value])
    {
      per[rate] := value;
    }

    /** The end of a successful probe. */
    method ProbeOk(now: nat)
      requires Shape() && probeRate < per.Length
      modifies this, per
      ensures Shape() && Abs() == C.ProbeOk(t, old(Abs()), now)
    {
      rateMaxPhy := probeRate;
      if per[probeRate] > 30 {
        SetPer(probeRate, 20);
      }
      probeRate := 0;
      probeTime := Sub32(now, t.probeInterval / 2);
    }

    /** The first part of rcUpdate_ht: the estimate of the rate used, the probe, and the packet count. */
    method TxResult(tx: nat, o: Outcome, now: nat)
      requires Shape() && tx < per.Length
      modifies this, per
      ensures Shape() && Abs() == AfterTx(t, old(Abs()), tx, o, now)
    {
      hide NewPer, C.ProbeOk;
      SetPer(tx, NewPer(per[tx], o));
      if o.xretries != 0 {
        if probeRate == tx {
          probeRate := 0;
        }
      } else {
        if probeRate != 0 && probeRate == tx {
          if o.retries > 0 || 2 * o.nBad > o.nFrames {
            probeRate := 0;
          } else {
            ProbeOk(now);
          }
        }
        if o.retries > 0 {
          hwMaxRetryPktCnt := 0;
        } else if tx == rateMaxPhy && hwMaxRetryPktCnt < 255 {
          hwMaxRetryPktCnt := hwMaxRetryPktCnt + 1;
        }
      }
    }

    /** A bad rate lowers the highest rate allowed. */
    method LowerMaxPhy(tx: nat, now: nat)
      requires Shape() && Ready(t, Abs(), tx)
      modifies this
      ensures Shape() && Abs() == LowerMax(t, old(Abs()), tx, now)
    {
      if per[tx] >= 55 && tx > 0 && t.info[tx].rateKbps <= t.info[rateMaxPhy].rateKbps {
        var lower := GetNextLower(validRateIndex, maxValidRate, tx);
        if lower.Some? {
          rateMaxPhy := lower.value;
        }
        probeTime := now;
      }
    }

    method PassDown(tx: nat)
      requires tx < per.Length && tx < |t.info|
      modifies per
      ensures per[..] == DownPass(t, old(per[..]), tx, t.info[tx].phy)
    {
      var rate := tx;
      while rate > 0 && t.info[rate - 1].phy == t.info[tx].phy
        invariant 0 <= rate <= tx
        invariant DownPass(t, per[..], rate, t.info[tx].phy) == DownPass(t, old(per[..]), tx, t.info[tx].phy)
      {
        ghost var was := per[..];
        if per[rate - 1] > per[rate] {
          per[rate - 1] := per[rate];
        }
        assert per[..] == was[rate - 1 := Min(was[rate - 1], was[rate])];
        rate := rate - 1;
      }
    }

    method PassUp(tx: nat)
      requires tx < rateTableSize <= per.Length
      modifies per
      ensures per[..] == UpPass(old(per[..]), tx, rateTableSize)
    {
      var rate := tx;
      while rate < rateTableSize - 1
        invariant tx <= rate < rateTableSize
        invariant UpPass(per[..], rate, rateTableSize) == UpPass(old(per[..]), tx, rateTableSize)
      {
        ghost var was := per[..];
        if per[rate + 1] < per[rate] {
          per[rate + 1] := per[rate];
        }
        assert per[..] == was[rate + 1 := Max(was[rate + 1], was[rate])];
        rate := rate + 1;
      }
    }

    /** The two passes. */
    method SmoothPer(tx: nat, last: nat)
      requires Shape() && tx < rateTableSize <= per.Length && rateTableSize <= |t.info|
      modifies per
      ensures Abs() == Smooth(t, old(Abs()), tx, last)
    {
      hide DownPass, UpPass;
      if per[tx] < last {
        PassDown(tx);
      }
      PassUp(tx);
    }

    /** Every so often all estimates shrink by an eighth. */
    method AgePer(now: nat)
      requires Shape() && rateTableSize <= per.Length
      modifies this, per
      ensures Shape() && Abs() == Age(t, old(Abs()), now)
    {
      hide U8, Sub32;
      if Sub32(now, perDownTime) >= t.rssiReduceInterval {
        for rate := 0 to rateTableSize
          invariant forall k :: 0 <= k < per.Length ==>
            per[k] == if k < rate then U8(7 * old(per[k]) / 8) else old(per[k])
          invariant Shape() && Abs() == old(Abs()).(per := per[..])
        {
          per[rate] := U8(7 * per[rate] / 8);
        }
        assert per[..] == Decayed(old(per[..]), rateTableSize);
        perDownTime := now;
      }
    }

    /** rcUpdate_ht */
    method Update(tx: nat, o: Outcome, now: nat)
      requires Valid() && tx < rateTableSize && Sane(o)
      modifies this, per
      ensures Valid() && Abs() == UpdateHt(t, old(Abs()), tx, o, now)
    {
      UpdateInv(t, Abs(), tx, o, now);
      AfterTxLegal(t, Abs(), tx, o, now);
      var last := per[tx];
      TxResult(tx, o, now);
      LowerMaxPhy(tx, now);
      SmoothPer(tx, last);
      AgePer(now);
    }

    // -------------------------------------------------------------------------------
    // The series

    /** rcRateFind_11n */
    method FindSeries(numTries: nat, numRates: nat, step: nat, probeAllowed: bool, minLast: bool, ng: bool, now: nat)
      returns (series: seq<Entry>, isProbe: bool)
      requires Valid() && numRates > 0
      modifies this
      ensures Valid() && Abs() == FindHt(t, old(Abs()), probeAllowed, now).0
      ensures var c := FindHt(t, old(Abs()), probeAllowed, now).1;
        && isProbe == c.isProbe && c.rate < |t.info|
        && series == Overridden(t, ng, Series(t, Abs().list, c, numTries, numRates, step, minLast))
    {
      ghost var rc := Abs();
      RateChoice(t, rc, probeAllowed, now);
      var c := RateFind(probeAllowed, now);
      isProbe := c.isProbe;
      assert c.rate < |t.info|;
      hide Inv, FindHt, Series;
      series := FillSeries(c, numTries, numRates, step, minLast);
      series := Override(ng, series);
    }

    /** The entries, the rate being chosen. */
    method FillSeries(c: Choice, numTries: nat, numRates: nat, step: nat, minLast: bool) returns (series: seq<Entry>)
      requires Shape() && numRates > 0
      ensures series == Series(t, Abs().list, c, numTries, numRates, step, minLast)
      ensures series != [] && series[0].rate == c.rate
    {
      hide Rest, StepDown, U8;
      var tpr := U8(numTries / numRates);
      var nrix := c.rate;
      series := [];
      if c.isProbe {
        series := [Entry(1, nrix, false)];
        nrix := GetIndex(t, validRateIndex, maxValidRate, nrix, 1, false);
      }
      series := series + [Entry(tpr, nrix, false)];
      var rest := FillRest(nrix, |series|, numTries, numRates, step, minLast);
      series := series + rest;
    }

    /** The loop that fills in the other rates. */
    method FillRest(rix: nat, i: nat, numTries: nat, numRates: nat, step: nat, minLast: bool) returns (r: seq<Entry>)
      requires Shape() && numRates > 0
      ensures r == Rest(t, Abs().list, rix, i, numTries, numRates, step, minLast)
    {
      hide U8, StepDown;
      r := [];
      var j, nrix := i, rix;
      ghost var goal := Rest(t, Abs().list, rix, i, numTries, numRates, step, minLast);
      assert r + goal == goal;
      while j < numRates
        invariant i <= j && (j <= numRates || j == i)
        invariant r + Rest(t, Abs().list, nrix, j, numTries, numRates, step, minLast) == goal
      {
        var last := j + 1 == numRates;
        var tpr := PerRate(numTries, numRates);
        var tryNum := if last then U8(numTries - tpr * j) else tpr;
        ghost var rest := Rest(t, Abs().list, nrix, j, numTries, numRates, step, minLast);
        nrix := GetIndex(t, validRateIndex, maxValidRate, nrix, step, last && minLast);
        var e := Entry(tryNum, nrix, true);
        ghost var tail := Rest(t, Abs().list, nrix, j + 1, numTries, numRates, step, minLast);
        assert rest == [e] + tail;
        assert r + ([e] + tail) == (r + [e]) + tail;
        r := r + [e];
        j := j + 1;
      }
      assert Rest(t, Abs().list, nrix, j, numTries, numRates, step, minLast) == [];
    }

    method Override(ng: bool, s: seq<Entry>) returns (r: seq<Entry>)
      requires s != [] && s[0].rate < |t.info|
      ensures r == Overridden(t, ng, s)
    {
      r := s;
      if ng {
        var rix := s[0].rate;
        if |s| == 4 && LowMcs(t, rix) {
          r := r[3 := r[2].(tries := r[3].tries)];
        }
        if t.info[rix].dot11Rate <= 3 {
          r := r[0 := r[0].(rts := true)];
        }
      }
    }
  }

  /** Sorting the first n entries of a longer array sorts them by themselves. */
  lemma {:induction false} BubbledPrefix(t: Table, s: seq<nat>, n: nat, i: nat)
    requires i < n <= |s|
    ensures Bubbled(t, s, i)[..n] == Bubbled(t, s[..n], i)
    decreases i
  {
    hide Swept;
    if i > 0 {
      SweptPrefix(t, s, n, i);
      BubbledPrefix(t, Swept(t, s, i), n, i - 1);
    }
  }

  lemma {:induction false} SweptPrefix(t: Table, s: seq<nat>, n: nat, j: nat)
    requires j < n <= |s|
    ensures Swept(t, s, j)[..n] == Swept(t, s[..n], j)
  {
    if j > 0 {
      SweptPrefix(t, s, n, j - 1);
    }
  }
}
