/**
 The HT rows of the rate tables: what the air time of each is made of, and which of them a completion blames. The
 series stores the base row and three flags of the rate sent; rcUpdate_11n finds the row again through three
 more columns of the base row.
 */
module RateRows {
  import opened RateList
  import opened RateTables
  import opened Airtime

  /** Columns cw40, sgi and ht of a base row. */
  datatype Columns = Columns(cw40: nat, sgi: nat, ht: nat)

  function Ar9271Columns(b: nat): Columns {
    if b == 12 then Columns(33, 12, 33)
    else if b == 13 then Columns(34, 13, 34)
    else if b == 14 then Columns(35, 14, 35)
    else if b == 15 then Columns(36, 15, 36)
    else if b == 16 then Columns(37, 17, 38)
    else if b == 18 then Columns(39, 19, 40)
    else if b == 20 then Columns(41, 21, 42)
    else if b == 22 then Columns(43, 23, 44)
    else if b == 24 then Columns(45, 24, 45)
    else if b == 25 then Columns(46, 26, 47)
    else if b == 27 then Columns(48, 28, 49)
    else if b == 29 then Columns(50, 30, 51)
    else if b == 31 then Columns(52, 32, 53)
    else Columns(b, b, b)
  }

  function Ar7010NgColumns(b: nat): Columns {
    if b == 12 then Columns(28, 12, 28)
    else if b == 13 then Columns(29, 13, 29)
    else if b == 14 then Columns(30, 14, 30)
    else if b == 15 then Columns(31, 15, 31)
    else if b == 16 then Columns(32, 16, 32)
    else if b == 17 then Columns(33, 17, 33)
    else if b == 18 then Columns(34, 18, 34)
    else if b == 19 then Columns(35, 19, 36)
    else if b == 20 then Columns(37, 20, 37)
    else if b == 21 then Columns(38, 21, 38)
    else if b == 22 then Columns(39, 22, 39)
    else if b == 23 then Columns(40, 23, 40)
    else if b == 24 then Columns(41, 24, 41)
    else if b == 25 then Columns(42, 25, 42)
    else if b == 26 then Columns(43, 26, 44)
    else if b == 27 then Columns(44, 27, 45)
    else Columns(b, b, b)
  }

  function Ar7010NaColumns(b: nat): Columns {
    if b == 8 then Columns(24, 8, 24)
    else if b == 9 then Columns(25, 9, 25)
    else if b == 10 then Columns(26, 10, 26)
    else if b == 11 then Columns(27, 11, 27)
    else if b == 12 then Columns(28, 12, 28)
    else if b == 13 then Columns(29, 13, 29)
    else if b == 14 then Columns(30, 14, 30)
    else if b == 15 then Columns(31, 15, 32)
    else if b == 16 then Columns(33, 16, 33)
    else if b == 17 then Columns(34, 17, 34)
    else if b == 18 then Columns(35, 18, 35)
    else if b == 19 then Columns(36, 19, 36)
    else if b == 20 then Columns(37, 20, 37)
    else if b == 21 then Columns(38, 21, 38)
    else if b == 22 then Columns(39, 22, 39)
    else if b == 23 then Columns(40, 23, 41)
    else Columns(b, b, b)
  }

  function ColumnsOf(t: Band, b: nat): Columns {
    match t
    case Ar9271 => Ar9271Columns(b)
    case Ghz24 => Ar7010NgColumns(b)
    case Ghz5 => Ar7010NaColumns(b)
  }

  /** The choice rcUpdate_11n makes from the flags of the series entry. */
  function BlamedRow(t: Band, base: nat, cw40: bool, sgi: bool): nat {
    var c := ColumnsOf(t, base);
    if cw40 && sgi then c.ht else if sgi then c.sgi else if cw40 then c.cw40 else base
  }

  predicate Blames(t: Band, i: nat) {
    var r := RowOf(t, i);
    BlamedRow(t, r.base, r.cw40, r.sgi) == i
  }

  lemma Ar9271Blames(i: nat)
    requires 12 <= i < 54
    ensures Blames(Ar9271, i)
  {
    hide Ar7010Ng, Ar7010Na, Ar7010NgColumns, Ar7010NaColumns;
  }

  lemma Ar7010Blames12(i: nat)
    requires 12 <= i < 28
    ensures Blames(Ghz24, i)
  {
    hide Ar9271Ng, Ar7010Na, Ar9271Columns, Ar7010NaColumns;
  }

  lemma Ar7010Blames28(i: nat)
    requires 28 <= i < 34
    ensures Blames(Ghz24, i)
  {
    hide Ar9271Ng, Ar7010Na, Ar9271Columns, Ar7010NaColumns;
  }

  lemma Ar7010Blames34(i: nat)
    requires 34 <= i < 40
    ensures Blames(Ghz24, i)
  {
    hide Ar9271Ng, Ar7010Na, Ar9271Columns, Ar7010NaColumns;
  }

  lemma Ar7010Blames40(i: nat)
    requires 40 <= i < 46
    ensures Blames(Ghz24, i)
  {
    hide Ar9271Ng, Ar7010Na, Ar9271Columns, Ar7010NaColumns;
  }

  lemma Ar7010NaBlames(i: nat)
    requires IsHtRow(Ghz5, i)
    ensures Blames(Ghz5, i)
  {
    hide Ar9271Ng, Ar7010Ng, Ar9271Columns, Ar7010NgColumns;
  }

  /** A completion blames the very row the series was made from, for every HT row of the three tables. */
  lemma BlamesRowSent(t: Band, i: nat)
    requires IsHtRow(t, i)
    ensures var r := RowOf(t, i); BlamedRow(t, r.base, r.cw40, r.sgi) == i
  {
    hide RowOf, BlamedRow;
    match t {
      case Ar9271 => Ar9271Blames(i);
      case Ghz24 => 
        if i < 28 { Ar7010Blames12(i); }
        else if i < 34 { Ar7010Blames28(i); }
        else if i < 40 { Ar7010Blames34(i); }
        else { Ar7010Blames40(i); }
      case Ghz5 => Ar7010NaBlames(i);
    }
  }

  // ---------------------------------------------------------------------------------
  // The air time of a row, from its rate

  /** The columns of row i by which its air time is computed say what its rate is. */
  predicate AsItsRate(t: Band, i: nat) {
    var r, rate := RowOf(t, i), RowAt(t, i).rate;
    && McsAt(t, r.base) == rate.dot11Rate < 16
    && (r.cw40 <==> IsWide(rate.phy)) && (r.sgi <==> IsSgi(rate.phy)) && (rate.dot11Rate >= 8 <==> IsDs(rate.phy))
  }

  lemma Ar9271AsItsRate(i: nat)
    requires 12 <= i < 33
    ensures AsItsRate(Ar9271, i)
  {
    hide Ar7010Ng, Ar7010Na, Row24, Row5;
  }

  lemma Ar9271AsItsRate40(i: nat)
    requires 33 <= i < 54
    ensures AsItsRate(Ar9271, i)
  {
    hide Ar7010Ng, Ar7010Na, Row24, Row5;
  }

  lemma Ar7010AsItsRate(i: nat)
    requires 12 <= i < 28
    ensures AsItsRate(Ghz24, i)
  {
    hide Ar9271Ng, Ar7010Na, Row9271, Row5;
  }

  lemma Ar7010AsItsRate40(i: nat)
    requires 28 <= i < 46
    ensures AsItsRate(Ghz24, i)
  {
    hide Ar9271Ng, Ar7010Na, Row9271, Row5;
  }

  lemma Ar7010NaAsItsRate(i: nat)
    requires 8 <= i < 24
    ensures AsItsRate(Ghz5, i)
  {
    hide Ar9271Ng, Ar7010Ng, Row9271, Row24;
  }

  lemma Ar7010NaAsItsRate40(i: nat)
    requires 24 <= i < 42
    ensures AsItsRate(Ghz5, i)
  {
    hide Ar9271Ng, Ar7010Ng, Row9271, Row24;
  }

  lemma EveryRowAsItsRate(t: Band, i: nat)
    requires IsHtRow(t, i)
    ensures AsItsRate(t, i)
  {
    hide AsItsRate;
    match t
    case Ar9271 => if i < 33 { Ar9271AsItsRate(i); } else { Ar9271AsItsRate40(i); }
    case Ghz24 => if i < 28 { Ar7010AsItsRate(i); } else { Ar7010AsItsRate40(i); }
    case Ghz5 => if i < 24 { Ar7010NaAsItsRate(i); } else { Ar7010NaAsItsRate40(i); }
  }

  /** Modulation and coding of an MCS: so many data bits to a pair of subcarriers, two for BPSK 1/2 being one. */
  function Coding(mcs: nat): nat {
    var m := mcs % 8;
    if m < 4 then m + 1 else if m == 4 then 6 else m + 3
  }

  /** Data bits of a symbol: 26 or 54 for BPSK 1/2, by width, on each stream. */
  function SymbolBits(rate: Rate): nat {
    (if IsWide(rate.phy) then 54 else 26) * Coding(rate.dot11Rate) * (if IsDs(rate.phy) then 2 else 1)
  }

  /**
   The air time of an aggregate at an HT row, from the standard: symbols enough for the octets and the 22
   service and tail bits, each of 4 us, or of 3.6 us with the short guard interval, rounded up as a whole,
   after a preamble of 36 us, or 40 us with two streams.
   */
  lemma AirtimeIs(t: Band, i: nat, len: nat)
    requires IsHtRow(t, i)
    ensures var rate := RowAt(t, i).rate;
            var bits := SymbolBits(rate);
      && bits > 0
      && var symbols := (8 * len + 22 + bits - 1) / bits;
         Duration(t, RowOf(t, i), len)
         == (if IsSgi(rate.phy) then (36 * symbols + 9) / 10 else 4 * symbols) + (if IsDs(rate.phy) then 40 else 36)
  {
    EveryRowAsItsRate(t, i);
    BitsAre(t, i);
    hide RowOf, RowAt, McsAt, BitsPerSymbol20, BitsPerSymbol40, SymbolBits, IsHtRow;
  }

  lemma BitsAre(t: Band, i: nat)
    requires AsItsRate(t, i)
    ensures NsymBits(t, RowOf(t, i)) == SymbolBits(RowAt(t, i).rate)
  {
    hide RowOf, RowAt, McsAt;
  }
}
