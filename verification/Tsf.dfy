/** Reading the 64-bit clock through its two halves, and placing a 32-bit stamp beside it. */
module Tsf {

  const WORD: nat := 0x1_0000_0000
  const MAX_TSF_READ: nat := 3

  function Upper(x: nat): nat {
    x / WORD
  }

  function Lower(x: nat): nat {
    x % WORD
  }

  /** The values the counter held at the seven moments it may be read: upper, then lower and upper three times. */
  ghost predicate ClockReads(c: seq<nat>) {
    |c| == 2 * MAX_TSF_READ + 1 && forall i, j :: 0 <= i < j < |c| ==> c[i] <= c[j]
  }

  /** Between the upper reads around lower read i, the upper word did not change. */
  predicate Steady(c: seq<nat>, i: nat)
    requires |c| == 2 * MAX_TSF_READ + 1 && i < MAX_TSF_READ
  {
    Upper(c[2 * i]) == Upper(c[2 * i + 2])
  }

  lemma SteadyHeld(c: seq<nat>, i: nat)
    requires ClockReads(c) && i < MAX_TSF_READ && Steady(c, i)
    ensures Upper(c[2 * i + 2]) * WORD + Lower(c[2 * i + 1]) == c[2 * i + 1]
  {
    assert c[2 * i] <= c[2 * i + 1] <= c[2 * i + 2];
  }

  /**
   ar5416GetTsf64. If the upper word held still around one of the three lower reads, the result is
   the value of the counter at the first such read. Otherwise it joins halves of two values, and it is a time
   that passed during the read if and only if the lower half did not fall from the one to the other.
   */
  method GetTsf64(c: seq<nat>) returns (tsf: nat)
    requires ClockReads(c)
    ensures forall i :: 0 <= i < MAX_TSF_READ && Steady(c, i) && (forall j :: 0 <= j < i ==> !Steady(c, j))
              ==> tsf == c[2 * i + 1]
    ensures (forall i :: 0 <= i < MAX_TSF_READ ==> !Steady(c, i))
              ==> tsf == Upper(c[2 * MAX_TSF_READ]) * WORD + Lower(c[2 * MAX_TSF_READ - 1])
                  && (c[0] <= tsf <= c[2 * MAX_TSF_READ]
                      <==> Lower(c[2 * MAX_TSF_READ - 1]) <= Lower(c[2 * MAX_TSF_READ]))
  {
    var upper1 := Upper(c[0]);
    var lower, upper2 := 0, 0;
    var i := 0;
    while i < MAX_TSF_READ
      invariant 0 <= i <= MAX_TSF_READ
      invariant upper1 == Upper(c[2 * i])
      invariant forall j :: 0 <= j < i ==> !Steady(c, j)
      invariant i > 0 ==> lower == Lower(c[2 * i - 1]) && upper2 == Upper(c[2 * i])
    {
      lower := Lower(c[2 * i + 1]);
      upper2 := Upper(c[2 * i + 2]);
      if upper2 == upper1 {
        assert Steady(c, i);
        SteadyHeld(c, i);
        return upper2 * WORD + lower;
      }
      upper1 := upper2;
      i := i + 1;
    }
    tsf := upper2 * WORD + lower;
    TornIff(c);
  }

  lemma TornIff(c: seq<nat>)
    requires ClockReads(c) && !Steady(c, MAX_TSF_READ - 1)
    ensures var n := 2 * MAX_TSF_READ;
      c[0] <= Upper(c[n]) * WORD + Lower(c[n - 1]) <= c[n] <==> Lower(c[n - 1]) <= Lower(c[n])
  {
    assert c[0] <= c[4] <= c[6];
    assert Upper(c[4]) < Upper(c[6]);
  }

  /** How often the upper word was seen to change. */
  function Changes(c: seq<nat>, n: nat): nat
    requires |c| == 2 * MAX_TSF_READ + 1 && n <= MAX_TSF_READ
  {
    if n == 0 then 0 else Changes(c, n - 1) + if Steady(c, n - 1) then 0 else 1
  }

  lemma {:induction false} ChangesCount(c: seq<nat>, n: nat)
    requires |c| == 2 * MAX_TSF_READ + 1 && n <= MAX_TSF_READ
    ensures Changes(c, n) <= n
    ensures Changes(c, n) < n <==> exists i :: 0 <= i < n && Steady(c, i)
  {
    if n > 0 {
      ChangesCount(c, n - 1);
      if Steady(c, n - 1) { assert 0 <= n - 1 < n; }
    }
  }

  /** At most two changes leave a steady read, so the value returned was really held. */
  lemma AtMostTwoChanges(c: seq<nat>)
    requires ClockReads(c) && Changes(c, MAX_TSF_READ) <= 2
    ensures exists i :: 0 <= i < MAX_TSF_READ && Steady(c, i) && (forall j :: 0 <= j < i ==> !Steady(c, j))
  {
    ChangesCount(c, MAX_TSF_READ);
    if Steady(c, 0) {
    } else if Steady(c, 1) {
    } else {
      assert Steady(c, 2);
    }
  }

  /** Three changes can tear the result: on this clock the value returned lies ahead of every value shown. */
  lemma ThreeChangesTear()
    ensures var c := [0, WORD - 1, WORD, 2 * WORD - 1, 2 * WORD, 3 * WORD - 1, 3 * WORD];
      && ClockReads(c) && Changes(c, MAX_TSF_READ) == 3
      && Upper(c[6]) * WORD + Lower(c[5]) > c[6]
  {
    var c := [0, WORD - 1, WORD, 2 * WORD - 1, 2 * WORD, 3 * WORD - 1, 3 * WORD];
    assert !Steady(c, 0) && !Steady(c, 1) && !Steady(c, 2);
    assert Changes(c, 1) == 1 && Changes(c, 2) == 2;
  }

  // ---------------------------------------------------------------------------------
  // Extension

  /** The 32-bit difference read as a signed number. */
  function Signed(x: nat): int {
    if x < WORD / 2 then x else x - WORD
  }

  /** ath_extend_tsf, given the clock; 64-bit addition wraps. */
  function Extend(tsf: nat, stamp: nat): nat {
    var delta := Signed((stamp - Lower(tsf)) % WORD);
    (tsf + delta) % (WORD * WORD)
  }

  /** x is congruent to the stamp and within half a word of the clock. */
  ghost predicate Near(tsf: nat, stamp: nat, x: int) {
    x % WORD == stamp && tsf - WORD / 2 <= x < tsf + WORD / 2
  }

  /** There is exactly one number near the clock that ends in the stamp. */
  lemma NearUnique(tsf: nat, stamp: nat, x: int, y: int)
    requires Near(tsf, stamp, x) && Near(tsf, stamp, y)
    ensures x == y
  {
    assert (x - y) % WORD == 0;
  }

  lemma NearFormula(tsf: nat, stamp: nat)
    requires stamp < WORD
    ensures Near(tsf, stamp, tsf + Signed((stamp - Lower(tsf)) % WORD))
  {}

  /**
   Exact receive time. If a frame was received within half a word of the clock, before or after, and
   the stamp is the low half of that time, the extension is that time; and conversely the extension
   of any stamp is near the clock whenever the sum does not leave the 64-bit range.
   */
  lemma ExtendExact(tsf: nat, stamp: nat, received: nat)
    requires tsf < WORD * WORD && received < WORD * WORD && stamp < WORD
    ensures Near(tsf, stamp, received) ==> Extend(tsf, stamp) == received
    ensures 0 <= tsf + Signed((stamp - Lower(tsf)) % WORD) < WORD * WORD ==> Near(tsf, stamp, Extend(tsf, stamp))
  {
    hide Near, Lower, Signed;
    NearFormula(tsf, stamp);
    if Near(tsf, stamp, received) {
      NearUnique(tsf, stamp, received, tsf + Signed((stamp - Lower(tsf)) % WORD));
    }
  }

  /**
   ath_extend_tsf with its clock read. A frame received before the read began, by no more than half
   a word, gets its exact time as long as the upper word was seen to change at most twice.
   */
  method ExtendTsf(c: seq<nat>, stamp: nat, ghost received: nat) returns (t: nat)
    requires ClockReads(c) && c[2 * MAX_TSF_READ] < WORD * WORD && stamp < WORD
    ensures Changes(c, MAX_TSF_READ) <= 2 && Lower(received) == stamp
         && c[2 * MAX_TSF_READ] - WORD / 2 <= received <= c[0]
         ==> t == received
  {
    hide Changes, Steady, Extend;
    var tsf := GetTsf64(c);
    t := Extend(tsf, stamp);
    if Changes(c, MAX_TSF_READ) <= 2 {
      AtMostTwoChanges(c);
      if received <= c[0] {
        ExtendExact(tsf, stamp, received);
      }
    }
  }
}
