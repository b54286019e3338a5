/** The list of valid rates of a node: its order, and moving up and down in it. */
module RateList {

  datatype Option<T> = None | Some(value: T)

  datatype Rate = Rate(phy: nat, rateKbps: nat, userRateKbps: nat, dot11Rate: nat)

  /** A rate table; merlin is false for AR9271. */
  datatype Table = Table(merlin: bool, info: seq<Rate>, probeInterval: nat, rssiReduceInterval: nat)

  /** RATE_TABLE_11N_SIZE */
  function TableSize(t: Table): nat {
    if t.merlin then 64 else 54
  }

  /** What the list is sorted by. */
  function Key(t: Table, r: nat): nat {
    if r >= |t.info| then 0 else if t.merlin then t.info[r].rateKbps else t.info[r].userRateKbps
  }

  predicate Sorted(t: Table, list: seq<nat>) {
    forall i, j :: 0 <= i < j < |list| ==> Key(t, list[i]) <= Key(t, list[j])
  }

  predicate Distinct(list: seq<nat>) {
    forall i, j :: 0 <= i < j < |list| ==> list[i] != list[j]
  }

  // ---------------------------------------------------------------------------------
  // Sorting

  predicate Below(t: Table, s: seq<nat>, m: nat, hi: nat)
    requires m <= |s|
  {
    forall k :: 0 <= k < m ==> Key(t, s[k]) <= hi
  }

  function Swapped(s: seq<nat>, j: nat): (r: seq<nat>)
    requires j + 1 < |s|
    ensures |r| == |s|
  {
    s[j := s[j + 1]][j + 1 := s[j]]
  }

  /** Neighbours 0 to j compared, and exchanged where out of order. */
  function Swept(t: Table, s: seq<nat>, j: nat): (r: seq<nat>)
    requires j < |s|
    ensures |r| == |s|
  {
    if j == 0 then s
    else
      var r := Swept(t, s, j - 1);
      if Key(t, r[j - 1]) > Key(t, r[j]) then Swapped(r, j - 1) else r
  }

  /** Sweeps up to position i, then up to i - 1, and so on. */
  function Bubbled(t: Table, s: seq<nat>, i: nat): (r: seq<nat>)
    requires i < |s|
    ensures |r| == |s|
    decreases i
  {
    if i == 0 then s else Bubbled(t, Swept(t, s, i), i - 1)
  }

  lemma SwapPermutes(s: seq<nat>, n: nat, j: nat)
    requires j + 1 < n <= |s|
    ensures multiset(Swapped(s, j)[..n]) == multiset(s[..n])
  {
    assert Swapped(s, j)[..n] == s[..n][j := s[j + 1]][j + 1 := s[j]];
  }

  lemma {:induction false} SweepPermutes(t: Table, s: seq<nat>, n: nat, j: nat)
    requires j < n <= |s|
    ensures multiset(Swept(t, s, j)[..n]) == multiset(s[..n])
  {
    hide Swapped, Key;
    if j > 0 {
      SweepPermutes(t, s, n, j - 1);
      SwapPermutes(Swept(t, s, j - 1), n, j - 1);
    }
  }

  /** A sweep leaves what lies beyond it, carries the greatest entry to its end, and makes none greater. */
  lemma {:induction false} SweepEffect(t: Table, s: seq<nat>, j: nat, m: nat, hi: nat)
    requires j < m <= |s|
    ensures var r := Swept(t, s, j);
      && r[j + 1..] == s[j + 1..]
      && Below(t, r, j + 1, Key(t, r[j]))
      && (Below(t, s, m, hi) ==> Below(t, r, m, hi))
  {
    if j > 0 {
      SweepEffect(t, s, j - 1, m, hi);
      var q := Swept(t, s, j - 1);
      assert q[j..][0] == s[j..][0] && q[j..][1..] == s[j..][1..];
    }
  }

  /** The whole sort, once the entries after position i are in order and none before them is greater. */
  lemma {:induction false} BubbledSorts(t: Table, s: seq<nat>, n: nat, i: nat)
    requires i < n <= |s| && Sorted(t, s[i + 1..n])
    requires i + 1 < n ==> Below(t, s, i + 1, Key(t, s[i + 1]))
    ensures var r := Bubbled(t, s, i);
      Sorted(t, r[..n]) && multiset(r[..n]) == multiset(s[..n]) && r[n..] == s[n..]
    decreases i
  {
    if i > 0 {
      var r := Swept(t, s, i);
      SweepPermutes(t, s, n, i);
      SweepEffect(t, s, i, i + 1, if i + 1 < n then Key(t, s[i + 1]) else 0);
      Split(s, r, i + 1, n);
      hide Swept, Key;
      assert r[i..n] == [r[i]] + s[i + 1..n];
      assert r[n..] == s[n..];
      SortedCons(t, r[i], s[i + 1..n]);
      BubbledSorts(t, r, n, i - 1);
    } else {
      assert s[..n] == [s[0]] + s[1..n];
      SortedCons(t, s[0], s[1..n]);
    }
  }

  lemma Split(s: seq<nat>, r: seq<nat>, i: nat, n: nat)
    requires i <= n <= |s| == |r| && r[i..] == s[i..]
    ensures r[i..n] == s[i..n] && r[n..] == s[n..] && (i < |s| ==> r[i] == s[i])
  {
    assert r[i..n] == r[i..][..n - i] && r[n..] == r[i..][n - i..];
    assert s[i..n] == s[i..][..n - i] && s[n..] == s[i..][n - i..];
    if i < |s| { assert r[i] == r[i..][0] && s[i] == s[i..][0]; }
  }

  lemma SortedCons(t: Table, x: nat, s: seq<nat>)
    requires Sorted(t, s) && (s != [] ==> Key(t, x) <= Key(t, s[0]))
    ensures Sorted(t, [x] + s)
  {}

  method SwapNext(a: array<nat>, j: nat)
    requires j + 1 < a.Length
    modifies a
    ensures a[..] == Swapped(old(a[..]), j)
  {
    a[j], a[j + 1] := a[j + 1], a[j];
  }

  method Sweep(t: Table, a: array<nat>, i: nat)
    requires i < a.Length
    modifies a
    ensures a[..] == Swept(t, old(a[..]), i)
  {
    var j := 0;
    while j < i
      invariant 0 <= j <= i && a[..] == Swept(t, old(a[..]), j)
    {
      if Key(t, a[j]) > Key(t, a[j + 1]) {
        SwapNext(a, j);
      }
      j := j + 1;
    }
  }

  /** rcSortValidRates, on the first n entries. */
  method SortValidRates(t: Table, a: array<nat>, n: nat)
    requires 0 < n <= a.Length
    modifies a
    ensures a[..] == Bubbled(t, old(a[..]), n - 1)
  {
    hide Swept, Key;
    var i := n - 1;
    while i > 0
      invariant 0 <= i < n && Bubbled(t, a[..], i) == Bubbled(t, old(a[..]), n - 1)
    {
      Sweep(t, a, i);
      i := i - 1;
    }
  }

  /** The sort makes the first n entries an ordered permutation of themselves and leaves the others. */
  lemma SortOrders(t: Table, s: seq<nat>, n: nat)
    requires 0 < n <= |s|
    ensures var r := Bubbled(t, s, n - 1);
      Sorted(t, r[..n]) && multiset(r[..n]) == multiset(s[..n]) && r[n..] == s[n..]
  {
    BubbledSorts(t, s, n, n - 1);
  }

  /** What the order is: on AR9271 that of the user rates, on AR7010 that of the rates themselves. */
  lemma SortedMeans(t: Table, list: seq<nat>)
    requires forall i :: 0 <= i < |list| ==> list[i] < |t.info|
    ensures Sorted(t, list) <==>
      forall i, j :: 0 <= i < j < |list| ==>
        if t.merlin then t.info[list[i]].rateKbps <= t.info[list[j]].rateKbps
        else t.info[list[i]].userRateKbps <= t.info[list[j]].userRateKbps
  {
    if Sorted(t, list) {
      forall i, j | 0 <= i < j < |list|
        ensures if t.merlin then t.info[list[i]].rateKbps <= t.info[list[j]].rateKbps
                else t.info[list[i]].userRateKbps <= t.info[list[j]].userRateKbps
      {
        assert Key(t, list[i]) <= Key(t, list[j]);
      }
    }
  }

  // ---------------------------------------------------------------------------------
  // Moving in the list

  /** rcGetNextValidTxRate: the entry after the first one equal to cur, if it is not the last. */
  function Next(list: seq<nat>, cur: nat): Option<nat> {
    if |list| < 2 then None else if list[0] == cur then Some(list[1]) else Next(list[1..], cur)
  }

  /** rcGetNextLowerValidTxRate: the entry before the first one equal to cur, the first of all not looked at. */
  function NextLower(list: seq<nat>, cur: nat): Option<nat> {
    if |list| < 2 then None else if list[1] == cur then Some(list[0]) else NextLower(list[1..], cur)
  }

  method GetNext(a: array<nat>, n: nat, cur: nat) returns (r: Option<nat>)
    requires n <= a.Length
    ensures r == Next(a[..n], cur)
  {
    var i := 0;
    while i + 1 < n
      invariant 0 <= i && (n > 0 ==> i < n) && (n == 0 ==> i == 0)
      invariant Next(a[i..n], cur) == Next(a[..n], cur)
    {
      assert a[i..n][1..] == a[i + 1..n];
      if a[i] == cur {
        return Some(a[i + 1]);
      }
      i := i + 1;
    }
    r := None;
  }

  method GetNextLower(a: array<nat>, n: nat, cur: nat) returns (r: Option<nat>)
    requires n <= a.Length
    ensures r == NextLower(a[..n], cur)
  {
    var i := 1;
    while i < n
      invariant 1 <= i && (n > 0 ==> i <= n) && (n == 0 ==> i == 1)
      invariant n > 0 ==> NextLower(a[i - 1..n], cur) == NextLower(a[..n], cur)
    {
      assert a[i - 1..n][1..] == a[i..n];
      if a[i] == cur {
        return Some(a[i - 1]);
      }
      i := i + 1;
    }
    r := None;
  }

  /** Where a step leads: from a position to the one after it. */
  lemma {:induction false} NextIs(list: seq<nat>, p: nat)
    requires Distinct(list) && p < |list|
    ensures Next(list, list[p]) == if p + 1 < |list| then Some(list[p + 1]) else None
    decreases p
  {
    if p > 0 {
      NextIs(list[1..], p - 1);
    }
  }

  lemma {:induction false} NextLowerIs(list: seq<nat>, p: nat)
    requires Distinct(list) && p < |list|
    ensures NextLower(list, list[p]) == if p > 0 then Some(list[p - 1]) else None
    decreases |list|
  {
    if |list| >= 2 {
      if p > 0 {
        NextLowerIs(list[1..], p - 1);
      } else {
        NotAhead(list[1..], list[0]);
      }
    }
  }

  lemma {:induction false} NotAhead(list: seq<nat>, cur: nat)
    requires cur !in list
    ensures NextLower(list, cur) == None && Next(list, cur) == None
  {
    if |list| >= 2 {
      NotAhead(list[1..], cur);
    }
  }

  /** On distinct entries the two iterators undo each other, whatever rates they are asked about. */
  lemma IteratorsUndo(list: seq<nat>, x: nat, y: nat)
    requires Distinct(list)
    ensures Next(list, x) == Some(y) <==> NextLower(list, y) == Some(x)
  {
    if x in list && y in list {
      var p :| 0 <= p < |list| && list[p] == x;
      var q :| 0 <= q < |list| && list[q] == y;
      NextIs(list, p);
      NextLowerIs(list, q);
    } else {
      NextMember(list, x);
      NextLowerMember(list, y);
    }
  }

  lemma {:induction false} NextMember(list: seq<nat>, x: nat)
    ensures Next(list, x).Some? ==> x in list && Next(list, x).value in list
  {
    if |list| >= 2 && list[0] != x {
      NextMember(list[1..], x);
    }
  }

  lemma {:induction false} NextLowerMember(list: seq<nat>, x: nat)
    ensures NextLower(list, x).Some? ==> x in list && NextLower(list, x).value in list
  {
    if |list| >= 2 && list[1] != x {
      NextLowerMember(list[1..], x);
    }
  }

  /** rcRateGetIndex: step down, stopping at the lowest. */
  function StepDown(list: seq<nat>, rix: nat, steps: nat): nat
    decreases steps
  {
    if steps == 0 then rix
    else match NextLower(list, rix)
         case None => rix
         case Some(r) => StepDown(list, r, steps - 1)
  }

  method GetIndex(t: Table, a: array<nat>, n: nat, rix: nat, stepDown: nat, minRate: bool) returns (r: nat)
    requires n <= a.Length
    ensures r == StepDown(a[..n], rix, if minRate then TableSize(t) else stepDown)
  {
    r := rix;
    var j := if minRate then TableSize(t) else stepDown;
    while j > 0
      invariant 0 <= j
      invariant StepDown(a[..n], r, j) == StepDown(a[..n], rix, if minRate then TableSize(t) else stepDown)
    {
      var lower := GetNextLower(a, n, r);
      if lower.None? {
        break;
      }
      r := lower.value;
      j := j - 1;
    }
  }

  /** Stepping down moves that many positions down, or to the lowest rate; the minimum rate is the lowest. */
  lemma {:induction false} StepDownIs(list: seq<nat>, p: nat, steps: nat)
    requires Distinct(list) && p < |list|
    ensures StepDown(list, list[p], steps) == list[if p <= steps then 0 else p - steps]
  {
    hide NextLower;
    if steps > 0 {
      NextLowerIs(list, p);
      if p > 0 {
        StepDownIs(list, p - 1, steps - 1);
      }
    }
  }

  /** Stepping down never goes up in the sort key, even among repeated entries, and stays in the list. */
  lemma {:induction false} StepDownDescends(t: Table, list: seq<nat>, rix: nat, steps: nat)
    requires Sorted(t, list)
    ensures Key(t, StepDown(list, rix, steps)) <= Key(t, rix)
    ensures rix in list ==> StepDown(list, rix, steps) in list
    decreases steps
  {
    hide NextLower, Key;
    if steps > 0 && NextLower(list, rix).Some? {
      NextLowerDescends(t, list, rix);
      NextLowerMember(list, rix);
      StepDownDescends(t, list, NextLower(list, rix).value, steps - 1);
    }
  }

  lemma {:induction false} NextLowerDescends(t: Table, list: seq<nat>, rix: nat)
    requires Sorted(t, list)
    ensures NextLower(list, rix).Some? ==> Key(t, NextLower(list, rix).value) <= Key(t, rix)
  {
    if |list| >= 2 && list[1] != rix {
      NextLowerDescends(t, list[1..], rix);
    }
  }
}
