/**
 How long an aggregate is on the air: the limit chosen for it from the rate table keeps every
 rate of its series near four milliseconds.
 */
module Airtime {
  import opened Frames
  import opened RateTables
  import Aggregate

  /** One HT row of a rate table, as rcRateSetseries passes it on: 40 MHz, short guard interval, length limit. */
  datatype AirRow = AirRow(base: nat, cw40: bool, sgi: bool, max4ms: nat)

  /** AR9271, 2.4 GHz, rows 12 to 53 */
  function Ar9271Ng(i: nat): AirRow {
    if i == 12 then AirRow(12, false, false, 3216)
    else if i == 13 then AirRow(13, false, false, 6434)
    else if i == 14 then AirRow(14, false, false, 9650)
    else if i == 15 then AirRow(15, false, false, 12868)
    else if i == 16 then AirRow(16, false, false, 19304)
    else if i == 17 then AirRow(16, false, true, 21460)
    else if i == 18 then AirRow(18, false, false, 25740)
    else if i == 19 then AirRow(18, false, true, 28620)
    else if i == 20 then AirRow(20, false, false, 28956)
    else if i == 21 then AirRow(20, false, true, 32200)
    else if i == 22 then AirRow(22, false, false, 32200)
    else if i == 23 then AirRow(22, false, true, 35750)
    else if i == 24 then AirRow(24, false, false, 25736)
    else if i == 25 then AirRow(25, false, false, 38600)
    else if i == 26 then AirRow(25, false, true, 42890)
    else if i == 27 then AirRow(27, false, false, 51472)
    else if i == 28 then AirRow(27, false, true, 57190)
    else if i == 29 then AirRow(29, false, false, 57890)
    else if i == 30 then AirRow(29, false, true, 64320)
    else if i == 31 then AirRow(31, false, false, 64320)
    else if i == 32 then AirRow(31, false, true, 71490)
    else if i == 33 then AirRow(12, true, false, 6684)
    else if i == 34 then AirRow(13, true, false, 13368)
    else if i == 35 then AirRow(14, true, false, 20052)
    else if i == 36 then AirRow(15, true, false, 26738)
    else if i == 37 then AirRow(16, true, false, 40104)
    else if i == 38 then AirRow(16, true, true, 44590)
    else if i == 39 then AirRow(18, true, false, 53476)
    else if i == 40 then AirRow(18, true, true, 59450)
    else if i == 41 then AirRow(20, true, false, 60156)
    else if i == 42 then AirRow(20, true, true, 66840)
    else if i == 43 then AirRow(22, true, false, 66840)
    else if i == 44 then AirRow(22, true, true, 74200)
    else if i == 45 then AirRow(24, true, false, 53440)
    else if i == 46 then AirRow(25, true, false, 80160)
    else if i == 47 then AirRow(25, true, true, 89090)
    else if i == 48 then AirRow(27, true, false, 106880)
    else if i == 49 then AirRow(27, true, true, 118790)
    else if i == 50 then AirRow(29, true, false, 120240)
    else if i == 51 then AirRow(29, true, true, 133600)
    else if i == 52 then AirRow(31, true, false, 133600)
    else if i == 53 then AirRow(31, true, true, 148400)
    else AirRow(0, false, false, 0)
  }

  /** AR7010 boards, 2.4 GHz, rows 12 to 45 */
  function Ar7010Ng(i: nat): AirRow {
    if i == 12 then AirRow(12, false, false, 3216)
    else if i == 13 then AirRow(13, false, false, 6434)
    else if i == 14 then AirRow(14, false, false, 9650)
    else if i == 15 then AirRow(15, false, false, 12868)
    else if i == 16 then AirRow(16, false, false, 19304)
    else if i == 17 then AirRow(17, false, false, 25740)
    else if i == 18 then AirRow(18, false, false, 28956)
    else if i == 19 then AirRow(19, false, false, 32180)
    else if i == 20 then AirRow(20, false, false, 6430)
    else if i == 21 then AirRow(21, false, false, 12860)
    else if i == 22 then AirRow(22, false, false, 19300)
    else if i == 23 then AirRow(23, false, false, 25736)
    else if i == 24 then AirRow(24, false, false, 38600)
    else if i == 25 then AirRow(25, false, false, 51472)
    else if i == 26 then AirRow(26, false, false, 57890)
    else if i == 27 then AirRow(27, false, false, 64320)
    else if i == 28 then AirRow(12, true, false, 6684)
    else if i == 29 then AirRow(13, true, false, 13368)
    else if i == 30 then AirRow(14, true, false, 20052)
    else if i == 31 then AirRow(15, true, false, 26738)
    else if i == 32 then AirRow(16, true, false, 40104)
    else if i == 33 then AirRow(17, true, false, 53476)
    else if i == 34 then AirRow(18, true, false, 60156)
    else if i == 35 then AirRow(19, true, false, 66840)
    else if i == 36 then AirRow(19, true, true, 74200)
    else if i == 37 then AirRow(20, true, false, 13360)
    else if i == 38 then AirRow(21, true, false, 26720)
    else if i == 39 then AirRow(22, true, false, 40080)
    else if i == 40 then AirRow(23, true, false, 53440)
    else if i == 41 then AirRow(24, true, false, 80160)
    else if i == 42 then AirRow(25, true, false, 106880)
    else if i == 43 then AirRow(26, true, false, 120240)
    else if i == 44 then AirRow(27, true, false, 133600)
    else if i == 45 then AirRow(27, true, true, 148400)
    else AirRow(0, false, false, 0)
  }

  /** AR7010 boards, 5 GHz, rows 8 to 41 */
  function Ar7010Na(i: nat): AirRow {
    if i == 8 then AirRow(8, false, false, 3216)
    else if i == 9 then AirRow(9, false, false, 6434)
    else if i == 10 then AirRow(10, false, false, 9650)
    else if i == 11 then AirRow(11, false, false, 12868)
    else if i == 12 then AirRow(12, false, false, 19304)
    else if i == 13 then AirRow(13, false, false, 25740)
    else if i == 14 then AirRow(14, false, false, 28956)
    else if i == 15 then AirRow(15, false, false, 32180)
    else if i == 16 then AirRow(16, false, false, 6430)
    else if i == 17 then AirRow(17, false, false, 12860)
    else if i == 18 then AirRow(18, false, false, 19300)
    else if i == 19 then AirRow(19, false, false, 25736)
    else if i == 20 then AirRow(20, false, false, 38600)
    else if i == 21 then AirRow(21, false, false, 51472)
    else if i == 22 then AirRow(22, false, false, 57890)
    else if i == 23 then AirRow(23, false, false, 64320)
    else if i == 24 then AirRow(8, true, false, 6684)
    else if i == 25 then AirRow(9, true, false, 13368)
    else if i == 26 then AirRow(10, true, false, 20052)
    else if i == 27 then AirRow(11, true, false, 26738)
    else if i == 28 then AirRow(12, true, false, 40104)
    else if i == 29 then AirRow(13, true, false, 53476)
    else if i == 30 then AirRow(14, true, false, 60156)
    else if i == 31 then AirRow(15, true, false, 66840)
    else if i == 32 then AirRow(15, true, true, 65535)
    else if i == 33 then AirRow(16, true, false, 13360)
    else if i == 34 then AirRow(17, true, false, 26720)
    else if i == 35 then AirRow(18, true, false, 40080)
    else if i == 36 then AirRow(19, true, false, 53440)
    else if i == 37 then AirRow(20, true, false, 80160)
    else if i == 38 then AirRow(21, true, false, 106880)
    else if i == 39 then AirRow(22, true, false, 120240)
    else if i == 40 then AirRow(23, true, false, 133600)
    else if i == 41 then AirRow(23, true, true, 148400)
    else AirRow(0, false, false, 0)
  }

  function RowOf(t: Band, i: nat): AirRow {
    match t
    case Ar9271 => Ar9271Ng(i)
    case Ghz24 => Ar7010Ng(i)
    case Ghz5 => Ar7010Na(i)
  }

  predicate IsHtRow(t: Band, i: nat) {
    match t
    case Ar9271 => 12 <= i < 54
    case Ghz24 => 12 <= i < 46
    case Ghz5 => 8 <= i < 42
  }

  /** The MCS in the hardware rate table at a base index: the rate code's low four bits. */
  function McsAt(t: Band, base: nat): nat {
    match t
    case Ghz24 => if 12 <= base < 28 then base - 12 else 0
    case Ghz5 => if 8 <= base < 24 then base - 8 else 0
    case Ar9271 =>
      if base < 16 then if base < 12 then 0 else base - 12
      else if base < 24 then (base - 16) / 2 + 4
      else if base == 24 then 11
      else if base < 33 then (base - 25) / 2 + 12
      else 0
  }

  function BitsPerSymbol20(mcs: nat): nat {
    if mcs == 0 then 26 else if mcs == 1 then 52 else if mcs == 2 then 78 else if mcs == 3 then 104
    else if mcs == 4 then 156 else if mcs == 5 then 208 else if mcs == 6 then 234 else if mcs == 7 then 260
    else if mcs == 8 then 52 else if mcs == 9 then 104 else if mcs == 10 then 156 else if mcs == 11 then 208
    else if mcs == 12 then 312 else if mcs == 13 then 416 else if mcs == 14 then 468 else 520
  }

  function BitsPerSymbol40(mcs: nat): nat {
    if mcs == 0 then 54 else if mcs == 1 then 108 else if mcs == 2 then 162 else if mcs == 3 then 216
    else if mcs == 4 then 324 else if mcs == 5 then 432 else if mcs == 6 then 486 else if mcs == 7 then 540
    else if mcs == 8 then 108 else if mcs == 9 then 216 else if mcs == 10 then 324 else if mcs == 11 then 432
    else if mcs == 12 then 648 else if mcs == 13 then 864 else if mcs == 14 then 972 else 1080
  }

  function Streams(mcs: nat): nat {
    if mcs < 8 then 1 else 2
  }

  /** Symbols needed for len octets at nsymbits data bits a symbol, with the 22 service and tail bits. */
  function Symbols(len: nat, nsymbits: nat): nat
    requires nsymbits > 0
  {
    (8 * len + 22 + nsymbits - 1) / nsymbits
  }

  /** ath_pkt_duration for an HT rate: 4 us symbols, or 3.6 us with the short guard interval, and the preamble. */
  function DurationOf(symbols: nat, sgi: bool, streams: nat): nat {
    (if sgi then (symbols * 18 + 4) / 5 else symbols * 4) + 8 + 8 + 4 + 8 + 4 + 4 * streams
  }

  function NsymBits(t: Band, r: AirRow): (n: nat)
    ensures n > 0
  {
    if r.cw40 then BitsPerSymbol40(McsAt(t, r.base)) else BitsPerSymbol20(McsAt(t, r.base))
  }

  function Duration(t: Band, r: AirRow, len: nat): nat {
    DurationOf(Symbols(len, NsymBits(t, r)), r.sgi, Streams(McsAt(t, r.base)))
  }

  // ---------------------------------------------------------------------------------
  // Monotonicity

  lemma {:induction false} MulStep(d: nat, x: nat, y: nat)
    ensures x > y ==> d * x >= d * y + d
    decreases x
  {
    if x > y + 1 {
      MulStep(d, x - 1, y);
      assert d * x == d * (x - 1) + d;
    } else if x == y + 1 {
      assert d * (y + 1) == d * y + d;
    }
  }

  lemma DivMonotone(a: nat, b: nat, d: nat)
    requires a <= b && d > 0
    ensures a / d <= b / d
  {
    var x, y := a / d, b / d;
    assert a == d * x + a % d && b == d * y + b % d;
    MulStep(d, x, y);
  }

  lemma DurationMonotone(t: Band, r: AirRow, a: nat, b: nat)
    requires a <= b
    ensures Duration(t, r, a) <= Duration(t, r, b)
  {
    hide BitsPerSymbol20, BitsPerSymbol40, McsAt;
    var n := NsymBits(t, r);
    DivMonotone(8 * a + 22 + n - 1, 8 * b + 22 + n - 1, n);
    DivMonotone(Symbols(a, n) * 18 + 4, Symbols(b, n) * 18 + 4, 5);
  }

  // ---------------------------------------------------------------------------------
  // The limit

  /** What ath_lookup_rate sees of one entry of the rate series. */
  datatype Entry = Entry(tries: nat, ht: bool, max4ms: nat)

  function Shortest(es: seq<Entry>): nat {
    if es == [] then Aggregate.AMPDU_LIMIT_MAX
    else
      var n := |es| - 1;
      if es[n].tries > 0 then Aggregate.Min(Shortest(es[..n]), es[n].max4ms) else Shortest(es[..n])
  }

  /** The limits set by the host: coexistence, the interface's A-MPDU limit, and the peer's. */
  datatype HostLimits = HostLimits(coex: bool, ampdu: nat, peer: nat)

  function LimitFrom(shortest: nat, h: HostLimits): nat {
    var l := Aggregate.Min(if h.coex then shortest * 3 / 8 else shortest, h.ampdu);
    if h.peer != 0 then Aggregate.Min(l, h.peer) else l
  }

  /** ath_lookup_rate: no limit at all, 0, for a probe or when a legacy rate is in the series. */
  method LookupRate(es: seq<Entry>, isProbe: bool, h: HostLimits) returns (limit: nat)
    ensures limit == if isProbe || (exists i :: 0 <= i < |es| && es[i].tries > 0 && !es[i].ht) then 0
                     else LimitFrom(Shortest(es), h)
  {
    var max4ms, legacy := Aggregate.AMPDU_LIMIT_MAX, false;
    var i := 0;
    while i < |es|
      invariant 0 <= i <= |es| && !legacy
      invariant forall j :: 0 <= j < i ==> es[j].tries > 0 ==> es[j].ht
      invariant max4ms == Shortest(es[..i])
    {
      assert es[..i + 1][..i] == es[..i];
      if es[i].tries > 0 {
        if !es[i].ht {
          legacy := true;
          break;
        }
        max4ms := Aggregate.Min(max4ms, es[i].max4ms);
      }
      i := i + 1;
    }
    if isProbe || legacy {
      return 0;
    }
    assert es[..i] == es;
    limit := Aggregate.Min(if h.coex then max4ms * 3 / 8 else max4ms, h.ampdu);
    if h.peer != 0 {
      limit := Aggregate.Min(limit, h.peer);
    }
  }

  lemma {:induction false} ShortestBelow(es: seq<Entry>, i: nat)
    requires i < |es| && es[i].tries > 0
    ensures Shortest(es) <= es[i].max4ms
  {
    var n := |es| - 1;
    if i < n { ShortestBelow(es[..n], i); }
  }

  lemma {:induction false} ShortestSmall(es: seq<Entry>)
    ensures Shortest(es) <= Aggregate.AMPDU_LIMIT_MAX
  {
    if es != [] { ShortestSmall(es[..|es| - 1]); }
  }

  /** r is what coexistence leaves of x: three eighths, rounded down; otherwise all of it. */
  predicate ShareOf(coex: bool, x: nat, r: nat) {
    if coex then 8 * r <= 3 * x < 8 * r + 8 else r == x
  }

  lemma {:induction false} ShortestIs(es: seq<Entry>)
    ensures Shortest(es) == Aggregate.AMPDU_LIMIT_MAX
            || exists i :: 0 <= i < |es| && es[i].tries > 0 && es[i].max4ms == Shortest(es)
  {
    if es != [] {
      var n := |es| - 1;
      ShortestIs(es[..n]);
      if Shortest(es[..n]) != Aggregate.AMPDU_LIMIT_MAX {
        var i :| 0 <= i < n && es[..n][i].tries > 0 && es[..n][i].max4ms == Shortest(es[..n]);
        assert es[i] == es[..n][i];
      }
      assert es[n].tries > 0 ==> Shortest(es) == Shortest(es[..n]) || Shortest(es) == es[n].max4ms;
    }
  }

  lemma ShareIs(coex: bool, x: nat)
    ensures ShareOf(coex, x, if coex then x * 3 / 8 else x)
  {}

  lemma SharesOrdered(coex: bool, x: nat, y: nat, a: nat, b: nat)
    requires x <= y && ShareOf(coex, x, a) && ShareOf(coex, y, b)
    ensures a <= b
  {}

  /**
   The limit of a series without probe or legacy rate is the greatest that is within the interface's and the peer's,
   and within its share of 65535 octets and of the limit of every rate that will be tried.
   */
  lemma LimitIs(es: seq<Entry>, h: HostLimits)
    ensures var l := LimitFrom(Shortest(es), h);
      && l <= h.ampdu && (h.peer != 0 ==> l <= h.peer)
      && (forall r :: ShareOf(h.coex, 65535, r) ==> l <= r)
      && (forall i, r :: 0 <= i < |es| && es[i].tries > 0 && ShareOf(h.coex, es[i].max4ms, r) ==> l <= r)
      && (l == h.ampdu || (h.peer != 0 && l == h.peer) || ShareOf(h.coex, 65535, l)
          || exists i :: 0 <= i < |es| && es[i].tries > 0 && ShareOf(h.coex, es[i].max4ms, l))
  {
    var s := Shortest(es);
    var a := if h.coex then s * 3 / 8 else s;
    ShareIs(h.coex, s);
    ShortestSmall(es);
    ShortestIs(es);
    hide Shortest;
    forall r | ShareOf(h.coex, 65535, r) ensures a <= r { SharesOrdered(h.coex, s, 65535, a, r); }
    forall i, r | 0 <= i < |es| && es[i].tries > 0 && ShareOf(h.coex, es[i].max4ms, r) ensures a <= r {
      ShortestBelow(es, i);
      SharesOrdered(h.coex, s, es[i].max4ms, a, r);
    }
    hide ShareOf;
  }

  // ---------------------------------------------------------------------------------
  // The bound

  /** Four milliseconds and four microseconds. */
  const AIRTIME_MAX: nat := 4004

  function Longest(r: AirRow): nat {
    Aggregate.Min(r.max4ms, Aggregate.AMPDU_LIMIT_MAX)
  }

  /** The symbols of 4000 us: 991 or 990 of 4 us, 1101 or 1100 of 3.6 us. */
  function FourMsSymbols(t: Band, r: AirRow): nat {
    if Streams(McsAt(t, r.base)) == 1 then if r.sgi then 1101 else 991 else if r.sgi then 1100 else 990
  }

  /** The bits of the longest frame fit them, and fill them but where 64K octets are the limit. */
  predicate FourMs(t: Band, r: AirRow) {
    var n, bits := NsymBits(t, r), 8 * Longest(r) + 22;
    && bits <= FourMsSymbols(t, r) * n
    && (r.max4ms < 65535 ==> bits > (FourMsSymbols(t, r) - 1) * n)
  }

  lemma SymbolsFit(len: nat, n: nat, k: nat)
    requires n > 0 && 8 * len + 22 <= k * n
    ensures Symbols(len, n) <= k
    ensures k > 0 && 8 * len + 22 > (k - 1) * n ==> Symbols(len, n) == k
  {
    var x := Symbols(len, n);
    MulStep(n, x, k);
    assert n * k == k * n;
    assert 8 * len + 22 + n - 1 == n * x + (8 * len + 22 + n - 1) % n;
    if k > 0 && 8 * len + 22 > (k - 1) * n {
      MulStep(n, k, x);
      assert k * n == (k - 1) * n + n;
    }
  }

  lemma FourMsEnough(t: Band, r: AirRow)
    requires FourMs(t, r)
    ensures Duration(t, r, Longest(r)) <= 4000
    ensures r.max4ms < 65535 ==> Duration(t, r, Longest(r)) == 4000
  {
    hide McsAt, BitsPerSymbol20, BitsPerSymbol40, Longest, Symbols;
    SymbolsFit(Longest(r), NsymBits(t, r), FourMsSymbols(t, r));
  }

  lemma Ar9271Rows12(i: nat)
    requires 12 <= i < 23
    ensures FourMs(Ar9271, RowOf(Ar9271, i))
  {
    hide Ar7010Ng, Ar7010Na;
  }

  lemma Ar9271Rows23(i: nat)
    requires 23 <= i < 34
    ensures FourMs(Ar9271, RowOf(Ar9271, i))
  {
    hide Ar7010Ng, Ar7010Na;
  }

  lemma Ar9271Rows34(i: nat)
    requires 34 <= i < 45 && i != 38
    ensures FourMs(Ar9271, RowOf(Ar9271, i))
  {
    hide Ar7010Ng, Ar7010Na;
  }

  lemma Ar9271Rows45(i: nat)
    requires 45 <= i < 54
    ensures FourMs(Ar9271, RowOf(Ar9271, i))
  {
    hide Ar7010Ng, Ar7010Na;
  }

  lemma Ar7010Rows12(i: nat)
    requires 12 <= i < 23
    ensures FourMs(Ghz24, RowOf(Ghz24, i))
  {
    hide Ar9271Ng, Ar7010Na;
  }

  lemma Ar7010Rows23(i: nat)
    requires 23 <= i < 34
    ensures FourMs(Ghz24, RowOf(Ghz24, i))
  {
    hide Ar9271Ng, Ar7010Na;
  }

  lemma Ar7010Rows34(i: nat)
    requires 34 <= i < 45
    ensures FourMs(Ghz24, RowOf(Ghz24, i))
  {
    hide Ar9271Ng, Ar7010Na;
  }

  lemma Ar7010Rows45(i: nat)
    requires 45 <= i < 46
    ensures FourMs(Ghz24, RowOf(Ghz24, i))
  {
    hide Ar9271Ng, Ar7010Na;
  }

  lemma Ar7010NaRows8(i: nat)
    requires 8 <= i < 19
    ensures FourMs(Ghz5, RowOf(Ghz5, i))
  {
    hide Ar9271Ng, Ar7010Ng;
  }

  lemma Ar7010NaRows19(i: nat)
    requires 19 <= i < 30
    ensures FourMs(Ghz5, RowOf(Ghz5, i))
  {
    hide Ar9271Ng, Ar7010Ng;
  }

  lemma Ar7010NaRows30(i: nat)
    requires 30 <= i < 41
    ensures FourMs(Ghz5, RowOf(Ghz5, i))
  {
    hide Ar9271Ng, Ar7010Ng;
  }

  lemma Ar7010NaRows41(i: nat)
    requires 41 <= i < 42
    ensures FourMs(Ghz5, RowOf(Ghz5, i))
  {
    hide Ar9271Ng, Ar7010Ng;
  }

  /** The one row above the round number: 1102 symbols of 3.6 us. */
  lemma Ar9271Row38()
    ensures Duration(Ar9271, RowOf(Ar9271, 38), Longest(RowOf(Ar9271, 38))) == 4004
  {
    hide Ar7010Ng, Ar7010Na, BitsPerSymbol20;
  }

  /**
   Every row at its own limit takes 4000 us at most, but for one that takes 4004; and exactly that, where the limit
   is not that of 64K octets.
   */
  lemma RowBound(t: Band, i: nat)
    requires IsHtRow(t, i)
    ensures Duration(t, RowOf(t, i), Longest(RowOf(t, i))) <= AIRTIME_MAX
    ensures Duration(t, RowOf(t, i), Longest(RowOf(t, i))) <= 4000 <==> !(t == Ar9271 && i == 38)
    ensures RowOf(t, i).max4ms < 65535 ==> Duration(t, RowOf(t, i), Longest(RowOf(t, i))) >= 4000
  {
    hide Duration, RowOf, Longest, FourMs;
    if t == Ar9271 && i == 38 {
      Ar9271Row38();
    } else {
      match t {
      case Ar9271 =>
        if i < 23 { Ar9271Rows12(i); }
        else if i < 34 { Ar9271Rows23(i); }
        else if i < 45 { Ar9271Rows34(i); }
        else { Ar9271Rows45(i); }
      case Ghz24 =>
        if i < 23 { Ar7010Rows12(i); }
        else if i < 34 { Ar7010Rows23(i); }
        else if i < 45 { Ar7010Rows34(i); }
        else { Ar7010Rows45(i); }
      case Ghz5 =>
        if i < 19 { Ar7010NaRows8(i); }
        else if i < 30 { Ar7010NaRows19(i); }
        else if i < 41 { Ar7010NaRows30(i); }
        else { Ar7010NaRows41(i); }
      }
      FourMsEnough(t, RowOf(t, i));
    }
  }

  /** Entry e of a series was made from row i of the table. */
  ghost predicate MadeFrom(t: Band, e: Entry, i: nat) {
    IsHtRow(t, i) && e.max4ms == RowOf(t, i).max4ms
  }

  lemma LimitBelow(es: seq<Entry>, h: HostLimits, k: nat)
    requires k < |es| && es[k].tries > 0
    ensures LimitFrom(Shortest(es), h) <= es[k].max4ms && LimitFrom(Shortest(es), h) <= Aggregate.AMPDU_LIMIT_MAX
  {
    ShortestBelow(es, k);
    ShortestSmall(es);
  }

  /**
   Airtime bound. An aggregate of at least two frames, formed under the limit of its rate series,
   takes at most 4004 us at every rate of the series that will be tried.
   */
  lemma AirtimeBound(t: Band, es: seq<Entry>, rows: seq<nat>, h: HostLimits,
                     seqStart: nat, q: seq<Frame>, k2: bool, k: nat)
    requires |q| > 0 && |rows| == |es| && k < |es| && es[k].tries > 0
    requires forall j :: 0 <= j < |es| && es[j].tries > 0 ==> MadeFrom(t, es[j], rows[j])
    requires Aggregate.FormAggr(seqStart, q, LimitFrom(Shortest(es), h), k2).count > 1
    ensures var al := Aggregate.FormAggr(seqStart, q, LimitFrom(Shortest(es), h), k2).al;
            Duration(t, RowOf(t, rows[k]), al) <= AIRTIME_MAX
  {
    hide Duration, RowOf, LimitFrom, Shortest, IsHtRow, Aggregate.FormAggr, Aggregate.Closed, Aggregate.EndOf;
    var limit := LimitFrom(Shortest(es), h);
    LimitBelow(es, h, k);
    Aggregate.FormLaid(seqStart, q, limit, k2);
    var al := Aggregate.FormAggr(seqStart, q, limit, k2).al;
    assert MadeFrom(t, es[k], rows[k]);
    DurationMonotone(t, RowOf(t, rows[k]), al, Longest(RowOf(t, rows[k])));
    RowBound(t, rows[k]);
  }
}
