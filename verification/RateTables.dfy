/**
 The firmware's three rate tables, and which of their rows a node can be given. One list never mixes rows whose
 rates and user rates are in different orders, so on every board the search finds the highest rate that works.
 */
module RateTables {
  import opened RateList
  import opened RateControl
  import opened RateUpdate

  // The kinds of rate; those of HT from HT_20_SS on.
  const CCK: nat := 0
  const OFDM: nat := 2
  const HT_20_SS: nat := 4
  const HT_20_DS: nat := 5
  const HT_40_SS: nat := 6
  const HT_40_DS: nat := 7
  const HT_20_SS_HGI: nat := 8
  const HT_20_DS_HGI: nat := 9
  const HT_40_SS_HGI: nat := 10
  const HT_40_DS_HGI: nat := 11

  /** For which modes a row is valid: FALSE, TRUE, TRUE_20, TRUE_40 and TRUE_ALL_11N of the tables. */
  datatype Valid = Never | Legacy | Ht20 | Ht40 | Always

  /** The columns for several streams, for one stream, and for one stream with STBC; and the rate. */
  datatype Row = Row(multi: Valid, single: Valid, stbc: Valid, rate: Rate)

  /** The three tables: AR9271, and AR7010 at 2.4 and at 5 GHz. */
  datatype Band = Ar9271 | Ghz24 | Ghz5

  const NO_ROW: Row := Row(Never, Never, Never, Rate(CCK, 0, 0, 0))

  /** AR9271, whose table has no column for STBC */
  function Row9271(i: nat): Row {
    if i == 0 then Row(Always, Always, Never, Rate(CCK, 1000, 900, 2))
    else if i == 1 then Row(Always, Always, Never, Rate(CCK, 2000, 1900, 4))
    else if i == 2 then Row(Always, Always, Never, Rate(CCK, 5500, 4900, 11))
    else if i == 3 then Row(Always, Always, Never, Rate(CCK, 11000, 8100, 22))
    else if i == 4 then Row(Never, Never, Never, Rate(OFDM, 6000, 5400, 12))
    else if i == 5 then Row(Never, Never, Never, Rate(OFDM, 9000, 7800, 18))
    else if i == 6 then Row(Legacy, Legacy, Never, Rate(OFDM, 12000, 10100, 24))
    else if i == 7 then Row(Legacy, Legacy, Never, Rate(OFDM, 18000, 14100, 36))
    else if i == 8 then Row(Legacy, Legacy, Never, Rate(OFDM, 24000, 17700, 48))
    else if i == 9 then Row(Legacy, Legacy, Never, Rate(OFDM, 36000, 23700, 72))
    else if i == 10 then Row(Legacy, Legacy, Never, Rate(OFDM, 48000, 27400, 96))
    else if i == 11 then Row(Legacy, Legacy, Never, Rate(OFDM, 54000, 30900, 108))
    else if i == 12 then Row(Never, Never, Never, Rate(HT_20_SS, 6500, 6400, 0))
    else if i == 13 then Row(Ht20, Ht20, Never, Rate(HT_20_SS, 13000, 12700, 1))
    else if i == 14 then Row(Ht20, Ht20, Never, Rate(HT_20_SS, 19500, 18800, 2))
    else if i == 15 then Row(Ht20, Ht20, Never, Rate(HT_20_SS, 26000, 25000, 3))
    else if i == 16 then Row(Ht20, Ht20, Never, Rate(HT_20_SS, 39000, 36700, 4))
    else if i == 17 then Row(Never, Ht20, Never, Rate(HT_20_SS_HGI, 43300, 39200, 4))
    else if i == 18 then Row(Never, Ht20, Never, Rate(HT_20_SS, 52000, 48100, 5))
    else if i == 19 then Row(Never, Ht20, Never, Rate(HT_20_SS_HGI, 57800, 52300, 5))
    else if i == 20 then Row(Never, Ht20, Never, Rate(HT_20_SS, 58500, 53500, 6))
    else if i == 21 then Row(Never, Ht20, Never, Rate(HT_20_SS_HGI, 65000, 58800, 6))
    else if i == 22 then Row(Never, Ht20, Never, Rate(HT_20_SS, 65000, 58801, 7))
    else if i == 23 then Row(Never, Ht20, Never, Rate(HT_20_SS_HGI, 72200, 65400, 7))
    else if i == 24 then Row(Ht20, Never, Never, Rate(HT_20_DS, 52000, 48100, 11))
    else if i == 25 then Row(Ht20, Never, Never, Rate(HT_20_DS, 78000, 69500, 12))
    else if i == 26 then Row(Never, Never, Never, Rate(HT_20_DS_HGI, 86700, 78400, 12))
    else if i == 27 then Row(Ht20, Never, Never, Rate(HT_20_DS, 104000, 89500, 13))
    else if i == 28 then Row(Never, Never, Never, Rate(HT_20_DS_HGI, 115600, 103900, 13))
    else if i == 29 then Row(Ht20, Never, Never, Rate(HT_20_DS, 117000, 105200, 14))
    else if i == 30 then Row(Never, Never, Never, Rate(HT_20_DS_HGI, 130000, 116090, 14))
    else if i == 31 then Row(Ht20, Never, Never, Rate(HT_20_DS, 130000, 116100, 15))
    else if i == 32 then Row(Ht20, Never, Never, Rate(HT_20_DS_HGI, 144400, 128100, 15))
    else if i == 33 then Row(Ht40, Ht40, Never, Rate(HT_40_SS, 13500, 13200, 0))
    else if i == 34 then Row(Ht40, Ht40, Never, Rate(HT_40_SS, 27500, 25900, 1))
    else if i == 35 then Row(Ht40, Ht40, Never, Rate(HT_40_SS, 40500, 38600, 2))
    else if i == 36 then Row(Ht40, Ht40, Never, Rate(HT_40_SS, 54000, 49800, 3))
    else if i == 37 then Row(Ht40, Ht40, Never, Rate(HT_40_SS, 81500, 72200, 4))
    else if i == 38 then Row(Never, Ht40, Never, Rate(HT_40_SS_HGI, 90000, 81500, 4))
    else if i == 39 then Row(Never, Ht40, Never, Rate(HT_40_SS, 108000, 92900, 5))
    else if i == 40 then Row(Never, Ht40, Never, Rate(HT_40_SS_HGI, 120000, 102100, 5))
    else if i == 41 then Row(Never, Ht40, Never, Rate(HT_40_SS, 121500, 102700, 6))
    else if i == 42 then Row(Never, Ht40, Never, Rate(HT_40_SS_HGI, 135000, 111900, 6))
    else if i == 43 then Row(Never, Ht40, Never, Rate(HT_40_SS, 135000, 112000, 7))
    else if i == 44 then Row(Never, Ht40, Never, Rate(HT_40_SS_HGI, 150000, 122000, 7))
    else if i == 45 then Row(Ht40, Never, Never, Rate(HT_40_DS, 108000, 92500, 11))
    else if i == 46 then Row(Ht40, Never, Never, Rate(HT_40_DS, 162000, 130300, 12))
    else if i == 47 then Row(Never, Never, Never, Rate(HT_40_DS_HGI, 180000, 156900, 12))
    else if i == 48 then Row(Ht40, Never, Never, Rate(HT_40_DS, 216000, 162800, 13))
    else if i == 49 then Row(Never, Never, Never, Rate(HT_40_DS_HGI, 240000, 178000, 13))
    else if i == 50 then Row(Ht40, Never, Never, Rate(HT_40_DS, 243000, 178200, 14))
    else if i == 51 then Row(Never, Never, Never, Rate(HT_40_DS_HGI, 270000, 192050, 14))
    else if i == 52 then Row(Ht40, Never, Never, Rate(HT_40_DS, 270000, 192100, 15))
    else if i == 53 then Row(Ht40, Never, Never, Rate(HT_40_DS_HGI, 300000, 207000, 15))
    else NO_ROW
  }

  /** AR7010 boards, 2.4 GHz */
  function Row24(i: nat): Row {
    if i == 0 then Row(Always, Always, Always, Rate(CCK, 1000, 900, 2))
    else if i == 1 then Row(Always, Always, Always, Rate(CCK, 2000, 1900, 4))
    else if i == 2 then Row(Always, Always, Always, Rate(CCK, 5500, 4900, 11))
    else if i == 3 then Row(Always, Always, Always, Rate(CCK, 11000, 8100, 22))
    else if i == 4 then Row(Never, Never, Never, Rate(OFDM, 6000, 5400, 12))
    else if i == 5 then Row(Never, Never, Never, Rate(OFDM, 9000, 7800, 18))
    else if i == 6 then Row(Legacy, Legacy, Legacy, Rate(OFDM, 12000, 10100, 24))
    else if i == 7 then Row(Legacy, Legacy, Legacy, Rate(OFDM, 18000, 14100, 36))
    else if i == 8 then Row(Legacy, Legacy, Legacy, Rate(OFDM, 24000, 17700, 48))
    else if i == 9 then Row(Legacy, Legacy, Legacy, Rate(OFDM, 36000, 23700, 72))
    else if i == 10 then Row(Legacy, Legacy, Legacy, Rate(OFDM, 48000, 27400, 96))
    else if i == 11 then Row(Legacy, Legacy, Legacy, Rate(OFDM, 54000, 30900, 108))
    else if i == 12 then Row(Never, Never, Never, Rate(HT_20_SS, 6500, 6400, 0))
    else if i == 13 then Row(Ht20, Ht20, Ht20, Rate(HT_20_SS, 13000, 12700, 1))
    else if i == 14 then Row(Ht20, Ht20, Ht20, Rate(HT_20_SS, 19500, 18800, 2))
    else if i == 15 then Row(Ht20, Ht20, Ht20, Rate(HT_20_SS, 26000, 25000, 3))
    else if i == 16 then Row(Ht20, Ht20, Ht20, Rate(HT_20_SS, 39000, 36700, 4))
    else if i == 17 then Row(Never, Ht20, Ht20, Rate(HT_20_SS, 52000, 48100, 5))
    else if i == 18 then Row(Never, Ht20, Ht20, Rate(HT_20_SS, 58500, 53500, 6))
    else if i == 19 then Row(Never, Ht20, Never, Rate(HT_20_SS, 65000, 59000, 7))
    else if i == 20 then Row(Never, Never, Never, Rate(HT_20_DS, 13000, 12700, 8))
    else if i == 21 then Row(Never, Never, Never, Rate(HT_20_DS, 26000, 24800, 9))
    else if i == 22 then Row(Never, Never, Never, Rate(HT_20_DS, 39000, 36600, 10))
    else if i == 23 then Row(Ht20, Never, Never, Rate(HT_20_DS, 52000, 48100, 11))
    else if i == 24 then Row(Ht20, Never, Ht20, Rate(HT_20_DS, 78000, 69500, 12))
    else if i == 25 then Row(Ht20, Never, Ht20, Rate(HT_20_DS, 104000, 89500, 13))
    else if i == 26 then Row(Ht20, Never, Ht20, Rate(HT_20_DS, 117000, 98900, 14))
    else if i == 27 then Row(Ht20, Never, Ht20, Rate(HT_20_DS, 130000, 108300, 15))
    else if i == 28 then Row(Ht40, Ht40, Ht40, Rate(HT_40_SS, 13500, 13200, 0))
    else if i == 29 then Row(Ht40, Ht40, Ht40, Rate(HT_40_SS, 27500, 25900, 1))
    else if i == 30 then Row(Ht40, Ht40, Ht40, Rate(HT_40_SS, 40500, 38600, 2))
    else if i == 31 then Row(Ht40, Ht40, Ht40, Rate(HT_40_SS, 54000, 49800, 3))
    else if i == 32 then Row(Ht40, Ht40, Ht40, Rate(HT_40_SS, 81500, 72200, 4))
    else if i == 33 then Row(Never, Ht40, Ht40, Rate(HT_40_SS, 108000, 92900, 5))
    else if i == 34 then Row(Never, Ht40, Ht40, Rate(HT_40_SS, 121500, 102700, 6))
    else if i == 35 then Row(Never, Ht40, Never, Rate(HT_40_SS, 135000, 112000, 7))
    else if i == 36 then Row(Never, Ht40, Never, Rate(HT_40_SS_HGI, 150000, 122000, 7))
    else if i == 37 then Row(Never, Never, Never, Rate(HT_40_DS, 27000, 25800, 8))
    else if i == 38 then Row(Never, Never, Never, Rate(HT_40_DS, 54000, 49800, 9))
    else if i == 39 then Row(Never, Never, Never, Rate(HT_40_DS, 81000, 71900, 10))
    else if i == 40 then Row(Ht40, Never, Never, Rate(HT_40_DS, 108000, 92500, 11))
    else if i == 41 then Row(Ht40, Never, Ht40, Rate(HT_40_DS, 162000, 130300, 12))
    else if i == 42 then Row(Ht40, Never, Ht40, Rate(HT_40_DS, 216000, 162800, 13))
    else if i == 43 then Row(Ht40, Never, Ht40, Rate(HT_40_DS, 243000, 178200, 14))
    else if i == 44 then Row(Ht40, Never, Ht40, Rate(HT_40_DS, 270000, 192100, 15))
    else if i == 45 then Row(Ht40, Never, Ht40, Rate(HT_40_DS_HGI, 300000, 207000, 15))
    else NO_ROW
  }

  /** AR7010 boards, 5 GHz */
  function Row5(i: nat): Row {
    if i == 0 then Row(Legacy, Legacy, Legacy, Rate(OFDM, 6000, 5400, 12))
    else if i == 1 then Row(Legacy, Legacy, Legacy, Rate(OFDM, 9000, 7800, 18))
    else if i == 2 then Row(Legacy, Legacy, Legacy, Rate(OFDM, 12000, 10000, 24))
    else if i == 3 then Row(Legacy, Legacy, Legacy, Rate(OFDM, 18000, 13900, 36))
    else if i == 4 then Row(Legacy, Legacy, Legacy, Rate(OFDM, 24000, 17300, 48))
    else if i == 5 then Row(Legacy, Legacy, Legacy, Rate(OFDM, 36000, 23000, 72))
    else if i == 6 then Row(Legacy, Legacy, Legacy, Rate(OFDM, 48000, 27400, 96))
    else if i == 7 then Row(Legacy, Legacy, Legacy, Rate(OFDM, 54000, 29300, 108))
    else if i == 8 then Row(Ht20, Ht20, Ht20, Rate(HT_20_SS, 6500, 6400, 0))
    else if i == 9 then Row(Ht20, Ht20, Ht20, Rate(HT_20_SS, 13000, 12700, 1))
    else if i == 10 then Row(Ht20, Ht20, Ht20, Rate(HT_20_SS, 19500, 18800, 2))
    else if i == 11 then Row(Ht20, Ht20, Ht20, Rate(HT_20_SS, 26000, 25000, 3))
    else if i == 12 then Row(Ht20, Ht20, Ht20, Rate(HT_20_SS, 39000, 36700, 4))
    else if i == 13 then Row(Never, Ht20, Ht20, Rate(HT_20_SS, 52000, 48100, 5))
    else if i == 14 then Row(Never, Ht20, Ht20, Rate(HT_20_SS, 58500, 53500, 6))
    else if i == 15 then Row(Never, Ht20, Never, Rate(HT_20_SS, 65000, 59000, 7))
    else if i == 16 then Row(Never, Never, Never, Rate(HT_20_DS, 13000, 12700, 8))
    else if i == 17 then Row(Never, Never, Never, Rate(HT_20_DS, 26000, 24800, 9))
    else if i == 18 then Row(Never, Never, Never, Rate(HT_20_DS, 39000, 36600, 10))
    else if i == 19 then Row(Ht20, Never, Never, Rate(HT_20_DS, 52000, 48100, 11))
    else if i == 20 then Row(Ht20, Never, Ht20, Rate(HT_20_DS, 78000, 69500, 12))
    else if i == 21 then Row(Ht20, Never, Ht20, Rate(HT_20_DS, 104000, 89500, 13))
    else if i == 22 then Row(Ht20, Never, Ht20, Rate(HT_20_DS, 117000, 98900, 14))
    else if i == 23 then Row(Ht20, Never, Ht20, Rate(HT_20_DS, 130000, 108300, 15))
    else if i == 24 then Row(Ht40, Ht40, Ht40, Rate(HT_40_SS, 13500, 13200, 0))
    else if i == 25 then Row(Ht40, Ht40, Ht40, Rate(HT_40_SS, 27500, 25900, 1))
    else if i == 26 then Row(Ht40, Ht40, Ht40, Rate(HT_40_SS, 40500, 38600, 2))
    else if i == 27 then Row(Ht40, Ht40, Ht40, Rate(HT_40_SS, 54000, 49800, 3))
    else if i == 28 then Row(Ht40, Ht40, Ht40, Rate(HT_40_SS, 81500, 72200, 4))
    else if i == 29 then Row(Never, Ht40, Ht40, Rate(HT_40_SS, 108000, 92900, 5))
    else if i == 30 then Row(Never, Ht40, Ht40, Rate(HT_40_SS, 121500, 102700, 6))
    else if i == 31 then Row(Never, Ht40, Never, Rate(HT_40_SS, 135000, 112000, 7))
    else if i == 32 then Row(Never, Ht40, Never, Rate(HT_40_SS_HGI, 150000, 122000, 7))
    else if i == 33 then Row(Never, Never, Never, Rate(HT_40_DS, 27000, 25800, 8))
    else if i == 34 then Row(Never, Never, Never, Rate(HT_40_DS, 54000, 49800, 9))
    else if i == 35 then Row(Never, Never, Never, Rate(HT_40_DS, 81000, 71900, 10))
    else if i == 36 then Row(Ht40, Never, Never, Rate(HT_40_DS, 108000, 92500, 11))
    else if i == 37 then Row(Ht40, Never, Ht40, Rate(HT_40_DS, 162000, 130300, 12))
    else if i == 38 then Row(Ht40, Never, Ht40, Rate(HT_40_DS, 216000, 162800, 13))
    else if i == 39 then Row(Ht40, Never, Ht40, Rate(HT_40_DS, 243000, 178200, 14))
    else if i == 40 then Row(Ht40, Never, Ht40, Rate(HT_40_DS, 270000, 192100, 15))
    else if i == 41 then Row(Ht40, Never, Ht40, Rate(HT_40_DS_HGI, 300000, 207000, 15))
    else NO_ROW
  }

  function RowAt(b: Band, i: nat): Row {
    match b
    case Ar9271 => Row9271(i)
    case Ghz24 => Row24(i)
    case Ghz5 => Row5(i)
  }

  function RowCount(b: Band): nat {
    match b
    case Ar9271 => 54
    case Ghz24 => 46
    case Ghz5 => 42
  }

  /** Table t is the one of band b. */
  ghost predicate IsTable(t: Table, b: Band) {
    t.merlin == !b.Ar9271? && |t.info| == RowCount(b) && forall i :: 0 <= i < |t.info| ==> t.info[i] == RowAt(b, i).rate
  }

  // ---------------------------------------------------------------------------------
  // Which rows a node is given

  /** What a peer can do, and whether its key is WEP or TKIP. */
  datatype Caps = Caps(ht: bool, wide: bool, ds: bool, sgi: bool, stbc: bool, tkip: bool)

  predicate IsHt(phy: nat) {
    phy >= HT_20_SS
  }

  predicate IsDs(phy: nat) {
    phy == HT_20_DS || phy == HT_40_DS || phy == HT_20_DS_HGI || phy == HT_40_DS_HGI
  }

  predicate IsWide(phy: nat) {
    phy == HT_40_SS || phy == HT_40_DS || phy == HT_40_SS_HGI || phy == HT_40_DS_HGI
  }

  predicate IsSgi(phy: nat) {
    phy == HT_20_SS_HGI || phy == HT_20_DS_HGI || phy == HT_40_SS_HGI || phy == HT_40_DS_HGI
  }

  /** rcIsValidPhyRate, the width not ignored */
  predicate PhyAllowed(phy: nat, c: Caps) {
    && (IsHt(phy) ==> c.ht)
    && (IsDs(phy) ==> c.ds)
    && (IsSgi(phy) ==> c.sgi)
    && (IsHt(phy) ==> (IsWide(phy) <==> c.wide))
  }

  /** Valid in the peer's mode (WLAN_RC_CAP_MODE). */
  predicate InMode(v: Valid, c: Caps) {
    v == Always || v == if !c.ht then Legacy else if c.wide then Ht40 else Ht20
  }

  /** WLAN_RC_PHY_HT_VALID */
  predicate HtValid(v: Valid, wide: bool) {
    v == Always || v == if wide then Ht40 else Ht20
  }

  /** rcSibInitValidRates takes the row, for a peer that names no rates. */
  predicate Default(r: Row, c: Caps) {
    (if c.ds then r.multi else r.single) == Legacy && PhyAllowed(r.rate.phy, c)
  }

  /** rcSibSetValidRates or rcSibSetValidHtRates takes the row, if the peer names its rate. */
  predicate Takes(b: Band, r: Row, c: Caps) {
    var v := if c.stbc && !b.Ar9271? then r.stbc else if c.ds then r.multi else r.single;
    && PhyAllowed(r.rate.phy, c)
    && if IsHt(r.rate.phy) then HtValid(v, c.wide) && !(r.rate.dot11Rate == 15 && (v == Ht20 || v == Always) && c.tkip)
       else InMode(v, c)
  }

  /** Rows that can stand in one list: of the table, and taken for one peer. */
  ghost predicate Installable(b: Band, c: Caps, found: seq<nat>) {
    && (forall i :: i in found ==> i < RowCount(b))
    && ((forall i :: i in found ==> Takes(b, RowAt(b, i), c)) || (forall i :: i in found ==> Default(RowAt(b, i), c)))
  }

  // ---------------------------------------------------------------------------------
  // User rates in the order of the rates

  /** The user rates of one mode, by rate: each value holds up to the next rate of the mode. */
  function LegacyUser(b: Band, kbps: nat): nat {
    match b
    case Ar9271 => 0
    case Ghz24 =>
      if kbps < 2000 then 900 else if kbps < 5500 then 1900 else if kbps < 11000 then 4900
      else if kbps < 12000 then 8100 else if kbps < 18000 then 10100 else if kbps < 24000 then 14100
      else if kbps < 36000 then 17700 else if kbps < 48000 then 23700 else if kbps < 54000 then 27400 else 30900
    case Ghz5 =>
      if kbps < 9000 then 5400 else if kbps < 12000 then 7800 else if kbps < 18000 then 10000
      else if kbps < 24000 then 13900 else if kbps < 36000 then 17300 else if kbps < 48000 then 23000
      else if kbps < 54000 then 27400 else 29300
  }

  function Ht20User(kbps: nat): nat {
    if kbps < 2000 then 900 else if kbps < 5500 then 1900 else if kbps < 6500 then 4900
    else if kbps < 11000 then 6400 else if kbps < 13000 then 8100 else if kbps < 19500 then 12700
    else if kbps < 26000 then 18800 else if kbps < 39000 then 25000 else if kbps < 52000 then 36700
    else if kbps < 58500 then 48100 else if kbps < 65000 then 53500 else if kbps < 78000 then 59000
    else if kbps < 104000 then 69500 else if kbps < 117000 then 89500 else if kbps < 130000 then 98900 else 108300
  }

  /** The row of 108 Mb with two streams has a lower user rate than the one with a single stream. */
  function Ht40User(several: bool, kbps: nat): nat {
    if kbps < 2000 then 900 else if kbps < 5500 then 1900 else if kbps < 11000 then 4900
    else if kbps < 13500 then 8100 else if kbps < 27500 then 13200 else if kbps < 40500 then 25900
    else if kbps < 54000 then 38600 else if kbps < 81500 then 49800 else if kbps < 108000 then 72200
    else if kbps < 121500 then if several then 92500 else 92900
    else if kbps < 135000 then 102700 else if kbps < 150000 then 112000 else if kbps < 162000 then 122000
    else if kbps < 216000 then 130300 else if kbps < 243000 then 162800 else if kbps < 270000 then 178200
    else if kbps < 300000 then 192100 else 207000
  }

  /** The user rate of whatever row of that rate a node can be given. */
  function UserOf(b: Band, c: Caps, legacy: bool, kbps: nat): nat {
    if legacy || !c.ht then LegacyUser(b, kbps)
    else if c.wide then Ht40User(c.ds && !c.stbc, kbps)
    else Ht20User(kbps)
  }

  lemma LegacyMono(b: Band, x: nat, y: nat)
    requires x <= y
    ensures LegacyUser(b, x) <= LegacyUser(b, y)
  {}

  lemma Ht20Mono(x: nat, y: nat)
    requires x <= y
    ensures Ht20User(x) <= Ht20User(y)
  {}

  lemma Ht40Mono(several: bool, x: nat, y: nat)
    requires x <= y
    ensures Ht40User(several, x) <= Ht40User(several, y)
  {}

  /** Row r, if taken, has the user rate of its mode. */
  predicate AsOfMode(b: Band, c: Caps, r: Row) {
    && (Takes(b, r, c) ==> r.rate.userRateKbps == UserOf(b, c, false, r.rate.rateKbps) > 0)
    && (Default(r, c) ==> r.rate.userRateKbps == UserOf(b, c, true, r.rate.rateKbps) > 0)
  }

  lemma Rows24To12(c: Caps, i: nat)
    requires i < 12
    ensures AsOfMode(Ghz24, c, Row24(i))
  {}

  lemma Rows24To28(c: Caps, i: nat)
    requires 12 <= i < 28
    ensures AsOfMode(Ghz24, c, Row24(i))
  {
    hide LegacyUser, Ht40User;
  }

  lemma Rows24To46(c: Caps, i: nat)
    requires 28 <= i < 46
    ensures AsOfMode(Ghz24, c, Row24(i))
  {
    hide LegacyUser, Ht20User;
  }

  lemma Rows5To8(c: Caps, i: nat)
    requires i < 8
    ensures AsOfMode(Ghz5, c, Row5(i))
  {
    hide Ht20User, Ht40User;
  }

  lemma Rows5To24(c: Caps, i: nat)
    requires 8 <= i < 24
    ensures AsOfMode(Ghz5, c, Row5(i))
  {
    hide LegacyUser, Ht40User;
  }

  lemma Rows5To42(c: Caps, i: nat)
    requires 24 <= i < 42
    ensures AsOfMode(Ghz5, c, Row5(i))
  {
    hide LegacyUser, Ht20User;
  }

  lemma EveryRow(b: Band, c: Caps, i: nat)
    requires i < RowCount(b) && !b.Ar9271?
    ensures AsOfMode(b, c, RowAt(b, i))
  {
    hide AsOfMode, Row24, Row5;
    match b
    case Ar9271 =>
    case Ghz24 => if i < 12 { Rows24To12(c, i); } else if i < 28 { Rows24To28(c, i); } else { Rows24To46(c, i); }
    case Ghz5 => if i < 8 { Rows5To8(c, i); } else if i < 24 { Rows5To24(c, i); } else { Rows5To42(c, i); }
  }

  lemma UserMono(b: Band, c: Caps, legacy: bool, x: nat, y: nat)
    requires x <= y
    ensures UserOf(b, c, legacy, x) <= UserOf(b, c, legacy, y)
  {
    hide LegacyUser, Ht20User, Ht40User;
    LegacyMono(b, x, y);
    Ht20Mono(x, y);
    Ht40Mono(c.ds && !c.stbc, x, y);
  }

  /** Among rows of the AR7010 tables one peer can be given, a faster one has no lower user rate. */
  lemma FasterIsBetter(b: Band, c: Caps, found: seq<nat>, i: nat, j: nat)
    requires Installable(b, c, found) && i in found && j in found && !b.Ar9271?
    requires RowAt(b, i).rate.rateKbps <= RowAt(b, j).rate.rateKbps
    ensures 0 < RowAt(b, i).rate.userRateKbps <= RowAt(b, j).rate.userRateKbps
  {
    hide RowAt, UserOf, Takes, Default;
    EveryRow(b, c, i);
    EveryRow(b, c, j);
    var x, y := RowAt(b, i).rate.rateKbps, RowAt(b, j).rate.rateKbps;
    UserMono(b, c, false, x, y);
    UserMono(b, c, true, x, y);
  }

  // On AR9271, where two rows of 65 Mb differ in user rate, the other way around: rates in the order of user rates.

  function LegacyRate(user: nat): nat {
    if user < 1900 then 1000 else if user < 4900 then 2000 else if user < 8100 then 5500
    else if user < 10100 then 11000 else if user < 14100 then 12000 else if user < 17700 then 18000
    else if user < 23700 then 24000 else if user < 27400 then 36000 else if user < 30900 then 48000 else 54000
  }

  function Ht20Rate(user: nat): nat {
    if user < 1900 then 1000 else if user < 4900 then 2000 else if user < 8100 then 5500
    else if user < 12700 then 11000 else if user < 18800 then 13000 else if user < 25000 then 19500
    else if user < 36700 then 26000 else if user < 39200 then 39000 else if user < 48100 then 43300
    else if user < 52300 then 52000 else if user < 53500 then 57800 else if user < 58800 then 58500
    else if user < 65400 then 65000 else if user < 69500 then 72200 else if user < 89500 then 78000
    else if user < 105200 then 104000 else if user < 116100 then 117000 else if user < 128100 then 130000 else 144400
  }

  function Ht40Rate(user: nat): nat {
    if user < 1900 then 1000 else if user < 4900 then 2000 else if user < 8100 then 5500
    else if user < 13200 then 11000 else if user < 25900 then 13500 else if user < 38600 then 27500
    else if user < 49800 then 40500 else if user < 72200 then 54000 else if user < 81500 then 81500
    else if user < 92500 then 90000 else if user < 102100 then 108000 else if user < 102700 then 120000
    else if user < 111900 then 121500 else if user < 122000 then 135000 else if user < 130300 then 150000
    else if user < 162800 then 162000 else if user < 178200 then 216000 else if user < 192100 then 243000
    else if user < 207000 then 270000 else 300000
  }

  function RateOf(c: Caps, user: nat): nat {
    if !c.ht then LegacyRate(user) else if c.wide then Ht40Rate(user) else Ht20Rate(user)
  }

  lemma LegacyRateMono(x: nat, y: nat)
    requires x <= y
    ensures LegacyRate(x) <= LegacyRate(y)
  {}

  lemma Ht20RateMono(x: nat, y: nat)
    requires x <= y
    ensures Ht20Rate(x) <= Ht20Rate(y)
  {}

  lemma Ht40RateMono(x: nat, y: nat)
    requires x <= y
    ensures Ht40Rate(x) <= Ht40Rate(y)
  {}

  /** Row r of AR9271, if taken, has the rate of its mode. */
  predicate AsOfMode9271(c: Caps, r: Row) {
    && (Takes(Ar9271, r, c) ==> r.rate.rateKbps == RateOf(c, r.rate.userRateKbps) && r.rate.userRateKbps > 0)
    && (Default(r, c) ==> r.rate.rateKbps == LegacyRate(r.rate.userRateKbps) && r.rate.userRateKbps > 0)
  }

  lemma Rows9271To12(c: Caps, i: nat)
    requires i < 12
    ensures AsOfMode9271(c, Row9271(i))
  {}

  lemma Rows9271To33(c: Caps, i: nat)
    requires 12 <= i < 33
    ensures AsOfMode9271(c, Row9271(i))
  {
    hide LegacyRate, Ht40Rate;
  }

  lemma Rows9271To54(c: Caps, i: nat)
    requires 33 <= i < 54
    ensures AsOfMode9271(c, Row9271(i))
  {
    hide LegacyRate, Ht20Rate;
  }

  lemma EveryRow9271(c: Caps, i: nat)
    requires i < 54
    ensures AsOfMode9271(c, Row9271(i))
  {
    hide AsOfMode9271, Row9271;
    if i < 12 { Rows9271To12(c, i); } else if i < 33 { Rows9271To33(c, i); } else { Rows9271To54(c, i); }
  }

  /** Among rows of the AR9271 table one peer can be given, one with a higher user rate is not slower. */
  lemma BetterIsFaster(c: Caps, found: seq<nat>, i: nat, j: nat)
    requires Installable(Ar9271, c, found) && i in found && j in found
    requires Row9271(i).rate.userRateKbps <= Row9271(j).rate.userRateKbps
    ensures 0 < Row9271(i).rate.userRateKbps && Row9271(i).rate.rateKbps <= Row9271(j).rate.rateKbps
  {
    hide Row9271, LegacyRate, Ht20Rate, Ht40Rate, Takes, Default;
    EveryRow9271(c, i);
    EveryRow9271(c, j);
    var x, y := Row9271(i).rate.userRateKbps, Row9271(j).rate.userRateKbps;
    LegacyRateMono(x, y);
    Ht20RateMono(x, y);
    Ht40RateMono(x, y);
  }

  /** On every board the order of the list is that of the rates. */
  lemma InstalledByRate(t: Table, b: Band, c: Caps, found: seq<nat>)
    requires IsTable(t, b) && Installable(b, c, found)
    ensures ByRate(t, found)
  {
    hide RowAt, Installable;
    forall i | i in found ensures i < |t.info| { InstalledRow(b, c, found, i); }
    forall i, j | i in found && j in found && Key(t, i) <= Key(t, j)
      ensures t.info[i].rateKbps <= t.info[j].rateKbps
    {
      if b.Ar9271? {
        assert RowAt(b, i) == Row9271(i) && RowAt(b, j) == Row9271(j) by { Is9271(i); Is9271(j); }
        BetterIsFaster(c, found, i, j);
      }
    }
  }

  lemma Is9271(i: nat)
    ensures RowAt(Ar9271, i) == Row9271(i)
  {}

  lemma InstalledRow(b: Band, c: Caps, found: seq<nat>, r: nat)
    requires Installable(b, c, found) && r in found
    ensures r < RowCount(b)
  {
    hide RowAt, Takes, Default;
  }

  lemma InstalledUser(b: Band, c: Caps, found: seq<nat>, r: nat)
    requires Installable(b, c, found) && r in found
    ensures RowAt(b, r).rate.userRateKbps > 0
  {
    hide RowAt, Installable;
    if b.Ar9271? {
      Is9271(r);
      BetterIsFaster(c, found, r, r);
    } else {
      FasterIsBetter(b, c, found, r, r);
    }
  }

  // ---------------------------------------------------------------------------------
  // The search and the probes on these boards

  /** On a sorted list of such rows the search finds the highest allowed rate that is live. */
  lemma TableFindsTop(t: Table, b: Band, c: Caps, rc: Rc, p: nat)
    requires IsTable(t, b) && Installable(b, c, rc.list) && Sorted(t, rc.list)
    requires InTable(t, rc) && Percents(rc.per) && rc.maxPhy in rc.list && TopLive(t, rc, p)
    ensures Best(t, rc, |rc.list|, 0, 0) == rc.list[p]
  {
    hide Best, Percents, TopLive, RowAt, Installable;
    if b.Ar9271? {
      Ar9271FindsTop(t, rc, p);
    } else {
      forall i, j | 0 <= i < j < |rc.list| ensures UserAt(t, rc, i) <= UserAt(t, rc, j) {
        assert Key(t, rc.list[i]) <= Key(t, rc.list[j]);
        assert rc.list[i] in rc.list && rc.list[j] in rc.list;
        FasterIsBetter(b, c, rc.list, rc.list[i], rc.list[j]);
      }
      OrderedFindsTop(t, rc, p);
    }
  }

  /** The sorted list holds the rows that were found, so it is one that a peer can be given. */
  lemma InstalledStays(b: Band, c: Caps, found: seq<nat>, list: seq<nat>)
    requires Installable(b, c, found) && forall r :: r in list <==> r in found
    ensures Installable(b, c, list)
  {
    hide RowAt, Takes, Default;
  }

  /** A rate set with rows of its board's table that one peer can be given, four at least. */
  ghost predicate RateSet(t: Table, b: Band, c: Caps, start: Rc, found: seq<nat>) {
    && IsTable(t, b) && Installable(b, c, found) && |found| >= 4 && start.probe == 0
    && forall r :: r in found ==> r < |start.per|
  }

  lemma RateSetUsable(t: Table, b: Band, c: Caps, start: Rc, found: seq<nat>)
    requires RateSet(t, b, c, start, found)
    ensures Usable(t, start, found)
  {
    hide RowAt, Installable;
    forall r | r in found ensures r < |t.info| && t.info[r].userRateKbps > 0 {
      InstalledRow(b, c, found, r);
      InstalledUser(b, c, found, r);
    }
  }

  /**
   So in every state of every run after such a rate set, on each of the boards and whatever the peer's rates and
   abilities, the search returns the highest allowed rate that does not always fail.
   */
  lemma RunFindsTop(t: Table, b: Band, c: Caps, start: Rc, found: seq<nat>, rcs: seq<Rc>, es: seq<Event>,
                    i: nat, p: nat)
    requires RateSet(t, b, c, start, found)
    requires Runs(t, rcs, es) && rcs[0] == SetRates(t, start, found) && i < |rcs|
    ensures InTable(t, rcs[i])
    ensures TopLive(t, rcs[i], p) ==> Best(t, rcs[i], |rcs[i].list|, 0, 0) == rcs[i].list[p]
  {
    hide Best, TopLive, RowAt, Installable, Runs, IsTable, MaxOf, Percents, InTable, Usable, SetRates;
    RateSetUsable(t, b, c, start, found);
    RunInv(t, start, found, rcs, es, i);
    InvFacts(t, rcs[i]);
    InvSorted(t, rcs[i]);
    hide Inv;
    SetRatesInv(t, start, found);
    InstalledStays(b, c, found, rcs[i].list);
    if TopLive(t, rcs[i], p) { TableFindsTop(t, b, c, rcs[i], p); }
  }

  /**
   And only a probe that went well raises the highest rate allowed: wherever in such a run it is higher than it
   was, a frame sent at the rate being probed got through at the first attempt in between.
   */
  lemma OnlyProbesRaiseHere(t: Table, b: Band, c: Caps, start: Rc, found: seq<nat>, rcs: seq<Rc>, es: seq<Event>,
                            i: nat, j: nat)
    requires RateSet(t, b, c, start, found)
    requires Runs(t, rcs, es) && rcs[0] == SetRates(t, start, found) && i <= j < |rcs|
    ensures rcs[i].maxPhy < |t.info| && rcs[j].maxPhy < |t.info|
    ensures t.info[rcs[j].maxPhy].rateKbps > t.info[rcs[i].maxPhy].rateKbps
            ==> exists k :: i <= k < j && Raises(rcs[k], es[k]) && rcs[k + 1].maxPhy == rcs[k].probe
  {
    hide Installable, IsTable, Usable, Runs, SetRates, ByRate, Raises;
    RateSetUsable(t, b, c, start, found);
    InstalledByRate(t, b, c, found);
    HighestRises(t, start, found, rcs, es, i, j);
  }
}
