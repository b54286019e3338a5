/** The multi-rate retry series made from the rate chosen. */
module RateSeries {
  import opened RateList
  import opened RateControl

  const PHY_HT_20_SS: nat := 4
  const PHY_HT_40_SS: nat := 6

  /** One entry: how often to try, the row of the rate table, and whether RTS goes before. */
  datatype Entry = Entry(tries: nat, rate: nat, rts: bool)

  function PerRate(numTries: nat, numRates: nat): nat
    requires numRates > 0
  {
    U8(numTries / numRates)
  }

  /** The entries from i on, each a step below the one before; the last one takes the tries left. */
  function Rest(t: Table, list: seq<nat>, rix: nat, i: nat,
                numTries: nat, numRates: nat, step: nat, minLast: bool): (r: seq<Entry>)
    requires numRates > 0
    ensures |r| == if i < numRates then numRates - i else 0
    decreases numRates - i
  {
    if i >= numRates then []
    else
      var last := i + 1 == numRates;
      var tpr := PerRate(numTries, numRates);
      var next := StepDown(list, rix, if last && minLast then TableSize(t) else step);
      [Entry(if last then U8(numTries - tpr * i) else tpr, next, true)]
      + Rest(t, list, next, i + 1, numTries, numRates, step, minLast)
  }

  /** rcRateFind_11n, once the rate is chosen: one try at a probe, then the rate below it as any other. */
  function Series(t: Table, list: seq<nat>, c: Choice, numTries: nat, numRates: nat, step: nat, minLast: bool)
    : seq<Entry>
    requires numRates > 0
  {
    var tpr := PerRate(numTries, numRates);
    if c.isProbe then
      var rix := StepDown(list, c.rate, 1);
      [Entry(1, c.rate, false), Entry(tpr, rix, false)] + Rest(t, list, rix, 2, numTries, numRates, step, minLast)
    else [Entry(tpr, c.rate, false)] + Rest(t, list, c.rate, 1, numTries, numRates, step, minLast)
  }

  /** MCS2 at 40 MHz and MCS3 at 20 MHz at the head of a series of four. */
  predicate LowMcs(t: Table, rix: nat)
    requires rix < |t.info|
  {
    var r := t.info[rix];
    (r.dot11Rate == 2 && r.phy == PHY_HT_40_SS) || (r.dot11Rate == 3 && r.phy == PHY_HT_20_SS)
  }

  /** At 2.4 GHz: a low MCS at the head makes the fourth entry repeat the third; low rates start with RTS. */
  function Overridden(t: Table, ng: bool, s: seq<Entry>): (r: seq<Entry>)
    requires s != [] && s[0].rate < |t.info|
    ensures |r| == |s|
  {
    if !ng then s
    else
      var r := if |s| == 4 && LowMcs(t, s[0].rate) then s[3 := s[2].(tries := s[3].tries)] else s;
      if t.info[s[0].rate].dot11Rate <= 3 then r[0 := r[0].(rts := true)] else r
  }

  // ---------------------------------------------------------------------------------
  // Tries

  function Tries(s: seq<Entry>): nat {
    if s == [] then 0 else s[0].tries + Tries(s[1..])
  }

  lemma PerRateFits(numTries: nat, numRates: nat, i: nat)
    requires 0 < numRates && numTries < 256 && i <= numRates
    ensures PerRate(numTries, numRates) == numTries / numRates
    ensures 0 <= numTries - PerRate(numTries, numRates) * i < 256
    ensures PerRate(numTries, numRates) * (i + 1) == PerRate(numTries, numRates) * i + PerRate(numTries, numRates)
  {
    var q := numTries / numRates;
    assert q <= numTries by { QuotientBound(numTries, numRates, numTries); MulLe(1, numRates, numTries); }
    Fits(q);
    MulLe(i, numRates, q);
    assert numRates * q <= numTries;
    assert i * q == q * i >= 0;
  }

  /** The entries from i on share what the i entries before them leave. */
  lemma {:induction false} RestTries(t: Table, list: seq<nat>, rix: nat, i: nat,
                                     numTries: nat, numRates: nat, step: nat, minLast: bool)
    requires i < numRates && numTries < 256
    ensures Tries(Rest(t, list, rix, i, numTries, numRates, step, minLast))
         == numTries - PerRate(numTries, numRates) * i
    decreases numRates - i
  {
    hide PerRate, U8, StepDown;
    PerRateFits(numTries, numRates, i);
    var last := i + 1 == numRates;
    var next := StepDown(list, rix, if last && minLast then TableSize(t) else step);
    if last {
      Fits(numTries - PerRate(numTries, numRates) * i);
      assert Rest(t, list, next, i + 1, numTries, numRates, step, minLast) == [];
    } else {
      RestTries(t, list, next, i + 1, numTries, numRates, step, minLast);
    }
  }

  lemma {:induction false} TriesAppend(a: seq<Entry>, b: seq<Entry>)
    ensures Tries(a + b) == Tries(a) + Tries(b)
  {
    if a == [] {
      assert a + b == b;
    } else {
      TriesAppend(a[1..], b);
      assert (a + b)[1..] == a[1..] + b;
    }
  }

  /**
   Total tries: exactly numTries without a probe. A probe of three rates or more adds one try and
   costs one rate's share; with fewer rates the share is added to the one try.
   */
  lemma SeriesTries(t: Table, list: seq<nat>, c: Choice, numTries: nat, numRates: nat, step: nat, minLast: bool)
    requires numRates > 0 && numTries < 256
    ensures Tries(Series(t, list, c, numTries, numRates, step, minLast)) ==
      if !c.isProbe then numTries
      else if numRates >= 3 then numTries + 1 - numTries / numRates
      else 1 + numTries / numRates
  {
    hide PerRate, StepDown, Rest;
    var tpr := PerRate(numTries, numRates);
    PerRateFits(numTries, numRates, 1);
    if c.isProbe {
      var rix := StepDown(list, c.rate, 1);
      var rest := Rest(t, list, rix, 2, numTries, numRates, step, minLast);
      var head := [Entry(1, c.rate, false), Entry(tpr, rix, false)];
      TriesAppend(head, rest);
      assert Tries(head) == 1 + tpr by { assert head[1..] == [head[1]] && head[1..][1..] == []; }
      if numRates >= 3 {
        RestTries(t, list, rix, 2, numTries, numRates, step, minLast);
      }
    } else {
      var rest := Rest(t, list, c.rate, 1, numTries, numRates, step, minLast);
      var head := [Entry(tpr, c.rate, false)];
      TriesAppend(head, rest);
      assert head[1..] == [];
      if numRates >= 2 {
        RestTries(t, list, c.rate, 1, numTries, numRates, step, minLast);
      }
    }
  }

  lemma {:induction false} SameTries(a: seq<Entry>, b: seq<Entry>)
    requires |a| == |b| && forall i :: 0 <= i < |a| ==> a[i].tries == b[i].tries
    ensures Tries(a) == Tries(b)
  {
    if a != [] {
      SameTries(a[1..], b[1..]);
    }
  }

  /** The override moves no tries. */
  lemma OverrideTries(t: Table, ng: bool, s: seq<Entry>)
    requires s != [] && s[0].rate < |t.info|
    ensures Tries(Overridden(t, ng, s)) == Tries(s)
  {
    SameTries(Overridden(t, ng, s), s);
  }

  // ---------------------------------------------------------------------------------
  // Order

  function Before(top: nat, s: seq<Entry>, i: nat): nat
    requires i <= |s|
  {
    if i == 0 then top else s[i - 1].rate
  }

  /** Each entry is a valid rate, at the level of the one before or below, starting from rate top. */
  ghost predicate Descends(t: Table, list: seq<nat>, top: nat, s: seq<Entry>) {
    forall i :: 0 <= i < |s| ==> s[i].rate in list && Key(t, s[i].rate) <= Key(t, Before(top, s, i))
  }

  lemma DescendsCons(t: Table, list: seq<nat>, top: nat, e: Entry, s: seq<Entry>)
    requires Descends(t, list, e.rate, s) && e.rate in list && Key(t, e.rate) <= Key(t, top)
    ensures Descends(t, list, top, [e] + s)
  {
    hide Key;
    var r := [e] + s;
    assert r[1..] == s;
    forall i | 0 <= i < |r|
      ensures r[i].rate in list && Key(t, r[i].rate) <= Key(t, Before(top, r, i))
    {
      if i > 0 {
        assert r[i] == s[i - 1] && Before(top, r, i) == Before(e.rate, s, i - 1);
      }
    }
  }

  lemma {:induction false} RestDescends(t: Table, list: seq<nat>, rix: nat, i: nat,
                                        numTries: nat, numRates: nat, step: nat, minLast: bool)
    requires Sorted(t, list) && rix in list && numRates > 0
    ensures Descends(t, list, rix, Rest(t, list, rix, i, numTries, numRates, step, minLast))
    decreases numRates - i
  {
    hide PerRate, U8, StepDown, Key, Sorted;
    if i < numRates {
      var steps := if i + 1 == numRates && minLast then TableSize(t) else step;
      var next := StepDown(list, rix, steps);
      StepDownDescends(t, list, rix, steps);
      RestDescends(t, list, next, i + 1, numTries, numRates, step, minLast);
      var r := Rest(t, list, rix, i, numTries, numRates, step, minLast);
      hide Descends;
      DescendsCons(t, list, rix, r[0], Rest(t, list, next, i + 1, numTries, numRates, step, minLast));
    }
  }

  lemma SeriesDescends(t: Table, list: seq<nat>, c: Choice, numTries: nat, numRates: nat, step: nat, minLast: bool)
    requires Sorted(t, list) && c.rate in list && numRates > 0
    ensures Descends(t, list, c.rate, Series(t, list, c, numTries, numRates, step, minLast))
  {
    hide PerRate, StepDown, Key, Sorted, Rest, Descends;
    var tpr := PerRate(numTries, numRates);
    if c.isProbe {
      var rix := StepDown(list, c.rate, 1);
      StepDownDescends(t, list, c.rate, 1);
      var rest := Rest(t, list, rix, 2, numTries, numRates, step, minLast);
      RestDescends(t, list, rix, 2, numTries, numRates, step, minLast);
      DescendsCons(t, list, c.rate, Entry(tpr, rix, false), rest);
      DescendsCons(t, list, c.rate, Entry(1, c.rate, false), [Entry(tpr, rix, false)] + rest);
      assert [Entry(1, c.rate, false), Entry(tpr, rix, false)] + rest
          == [Entry(1, c.rate, false)] + ([Entry(tpr, rix, false)] + rest);
    } else {
      RestDescends(t, list, c.rate, 1, numTries, numRates, step, minLast);
      DescendsCons(t, list, c.rate, Entry(tpr, c.rate, false),
                   Rest(t, list, c.rate, 1, numTries, numRates, step, minLast));
    }
  }

  lemma OverrideDescends(t: Table, list: seq<nat>, ng: bool, top: nat, s: seq<Entry>)
    requires s != [] && s[0].rate < |t.info| && Descends(t, list, top, s)
    ensures Descends(t, list, top, Overridden(t, ng, s))
  {
    var r := Overridden(t, ng, s);
    var low := ng && |s| == 4 && LowMcs(t, s[0].rate);
    forall i | 0 <= i < |s|
      ensures r[i].rate in list && Key(t, r[i].rate) <= Key(t, Before(top, r, i))
    {
      assert r[i].rate == if low && i == 3 then s[2].rate else s[i].rate;
      if i > 0 {
        assert r[i - 1].rate == s[i - 1].rate;
      }
      assert s[i].rate in list && Key(t, s[i].rate) <= Key(t, Before(top, s, i));
    }
  }

  /** With no entry repeated in the list, the entry after a probe is the highest rate allowed. */
  lemma ProbeThenMax(t: Table, rc: Rc, c: Choice, numTries: nat, numRates: nat, step: nat, minLast: bool)
    requires Distinct(rc.list) && numRates > 0 && c.isProbe && Next(rc.list, rc.maxPhy) == Some(c.rate)
    ensures var s := Series(t, rc.list, c, numTries, numRates, step, minLast);
      |s| >= 2 && s[0] == Entry(1, c.rate, false) && s[1].rate == rc.maxPhy
  {
    IteratorsUndo(rc.list, rc.maxPhy, c.rate);
    assert StepDown(rc.list, c.rate, 1) == StepDown(rc.list, rc.maxPhy, 0) == rc.maxPhy;
    hide Rest;
  }

  /**
   What the override changes. At 2.4 GHz a series of four that begins with MCS 2 on 40 MHz or MCS 3 on 20 MHz, on
   one stream, repeats its third rate as the fourth; and one that begins with an MCS or a rate code of 3 or less
   uses RTS from the start. At 5 GHz nothing changes.
   */
  lemma OverrideIs(t: Table, ng: bool, s: seq<Entry>, k: nat)
    requires s != [] && s[0].rate < |t.info| && k < |s|
    ensures var e := Overridden(t, ng, s)[k];
            var first := t.info[s[0].rate];
            var low := ng && |s| == 4 && ((first.dot11Rate == 2 && first.phy == PHY_HT_40_SS)
                                          || (first.dot11Rate == 3 && first.phy == PHY_HT_20_SS));
      && e.tries == s[k].tries
      && e.rate == (if low && k == 3 then s[2].rate else s[k].rate)
      && (e.rts <==> if k == 0 then s[0].rts || (ng && first.dot11Rate <= 3)
                     else if low && k == 3 then s[2].rts else s[k].rts)
  {}

  // ---------------------------------------------------------------------------------
  // Positions

  function Down(p: nat, n: nat): nat {
    if p <= n then 0 else p - n
  }

  /** Which position entry k of n has, the first at p, each one step below; the last at the lowest if so asked. */
  function Position(p: nat, k: nat, n: nat, step: nat, minLast: bool): nat {
    if k > 0 && k + 1 == n && minLast then 0 else Down(p, k * step)
  }

  /** m times one step down. */
  function Fall(p: nat, m: nat, step: nat): nat {
    if m == 0 then p else Fall(Down(p, step), m - 1, step)
  }

  lemma {:induction false} FallIs(p: nat, m: nat, step: nat)
    ensures Fall(p, m, step) == Down(p, m * step) <= p
    decreases m
  {
    if m > 0 {
      FallIs(Down(p, step), m - 1, step);
      assert m * step == (m - 1) * step + step;
    }
  }

  /** Entries i to n - 1, when entry i - 1 is at position p. */
  lemma {:induction false} RestPositions(t: Table, list: seq<nat>, p: nat, i: nat,
                                         numTries: nat, n: nat, step: nat, minLast: bool, k: nat)
    requires Distinct(list) && p < |list| <= TableSize(t) && i <= k < n
    ensures Fall(p, k - i + 1, step) < |list|
    ensures var e := Rest(t, list, list[p], i, numTries, n, step, minLast)[k - i];
      && e.rate == list[if k + 1 == n && minLast then 0 else Fall(p, k - i + 1, step)] && e.rts
      && (k + 1 < n ==> e.tries == PerRate(numTries, n))
    decreases k - i
  {
    hide StepDown, PerRate, U8;
    var steps := if i + 1 == n && minLast then TableSize(t) else step;
    var q := Down(p, steps);
    StepDownIs(list, p, steps);
    if k == i {
      assert Fall(p, 1, step) == Fall(Down(p, step), 0, step);
    } else {
      RestPositions(t, list, q, i + 1, numTries, n, step, minLast, k);
      var rest := Rest(t, list, list[q], i + 1, numTries, n, step, minLast);
      assert Rest(t, list, list[p], i, numTries, n, step, minLast)[k - i] == rest[k - i - 1];
    }
  }

  /**
   Where the rates of a series stand in a list without repetitions: the rate chosen, and each entry as many
   positions below the one before as the step says, or at the lowest. After a probe the series goes on from
   the position below it. All but the first, and the one after a probe, use RTS.
   */
  lemma SeriesPositions(t: Table, list: seq<nat>, c: Choice, p: nat,
                        numTries: nat, n: nat, step: nat, minLast: bool, k: nat)
    requires Distinct(list) && p < |list| <= TableSize(t) && list[p] == c.rate && n > 0
    requires k < |Series(t, list, c, numTries, n, step, minLast)|
    ensures var e := Series(t, list, c, numTries, n, step, minLast)[k];
      if c.isProbe then
        if k == 0 then e == Entry(1, c.rate, false)
        else Position(Down(p, 1), k - 1, n - 1, step, minLast) < |list|
             && e.rate == list[Position(Down(p, 1), k - 1, n - 1, step, minLast)] && (e.rts <==> k > 1)
      else Position(p, k, n, step, minLast) < |list|
           && e.rate == list[Position(p, k, n, step, minLast)] && (e.rts <==> k > 0)
    ensures numTries < 256 && k + 1 < n && (c.isProbe ==> k > 0)
            ==> Series(t, list, c, numTries, n, step, minLast)[k].tries == numTries / n
  {
    hide StepDown, PerRate, U8, Rest;
    if numTries < 256 { PerRateFits(numTries, n, 0); }
    if c.isProbe {
      StepDownIs(list, p, 1);
      var q := Down(p, 1);
      if k > 0 { FallIs(q, k - 1, step); }
      if k >= 2 {
        RestPositions(t, list, q, 2, numTries, n, step, minLast, k);
      }
    } else {
      FallIs(p, k, step);
      if k > 0 { RestPositions(t, list, p, 1, numTries, n, step, minLast, k); }
    }
  }
}
