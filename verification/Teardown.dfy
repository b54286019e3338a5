/** The end of a session: its exact accounting, and the conditions under which the code meets it. */
module Teardown {
  import opened Frames
  import opened Window
  import opened Softc
  import opened Session
  import opened Engine
  import opened Steps
  import opened Conservation
  import opened Growth
  import opened Bystander
  import opened Runs

  // ---------------------------------------------------------------------------------
  // Counting down

  /** The count goes down by one for each subframe, and teardown ends exactly when it reaches zero. */
  lemma {:induction false} CompCleanupCounts(s: Sc, t: TidId, c: seq<Frame>, limit: nat)
    requires s.tids[t].cleanup && s.tids[t].bufq == [] && 0 < |c| <= s.tids[t].incomp
    ensures var r := CompCleanup(s, t, c, limit).tids[t];
            r == if |c| < s.tids[t].incomp then s.tids[t].(incomp := s.tids[t].incomp - |c|)
                 else s.tids[t].(incomp := 0, cleanup := false, paused := false)
    decreases |c|
  {
    hide Schedule, Enqueue, QueueOf;
    var s1 := FreeBuf(s, c[0]);
    if s1.tids[t].incomp != 1 {
      var s2 := TidCleanup(s1, t, limit);
      if |c| > 1 { CompCleanupCounts(s2, t, c[1..], limit); }
    }
  }

  /**
   Teardown accounting. While an identifier is torn down, incomp is the number of its frames in
   hardware; completing an entry of its own takes off exactly the frames of that entry; and teardown
   ends, with the identifier resumed, exactly on the last of them.
   */
  lemma TeardownExact(s: Sc, q: Ac, st: TxStat, linked: bool, limit: nat)
    requires Good(true, s) && s.hw[q] != [] && s.hw[q][0][0].comp == Aggr && s.tids[s.hw[q][0][0].tid].cleanup
    ensures var c := s.hw[q][0];
            var t := c[0].tid;
            var r := Process(s, q, st, linked, limit);
      && s.tids[t].incomp == |Held(s, t)|
      && |c| <= |Held(s, t)|
      && (r.tids[t].cleanup <==> |c| < |Held(s, t)|)
      && (r.tids[t].incomp == |Held(s, t)| - |c|)
      && (!r.tids[t].cleanup ==> !r.tids[t].paused)
  {
    hide Good, CompCleanup, HeadSafe, Held;
    var c := s.hw[q][0];
    var t := c[0].tid;
    TornDown(true, s, t);
    GoodHeadSafe(true, s, q);
    HeadFits(s, q);
    CompCleanupCounts(Pop(s, q), t, c, limit);
  }

  lemma TornDown(strict: bool, s: Sc, t: TidId)
    requires Good(strict, s) && s.tids[t].cleanup
    ensures Out(s.tids[t]) && s.tids[t].incomp > 0 && (strict ==> s.tids[t].incomp == |Held(s, t)|)
  {
    hide InHardware, QueueOf, NormalsOk, QueuedOk, Good;
    GoodLook(strict, s, t);
  }

  /** Outside a session: nothing queued, nothing in the window. */
  predicate Out(tid: Tid) {
    !tid.aggr && tid.bufq == [] && Width(tid.win) == 0
  }

  lemma HeadFits(s: Sc, q: Ac)
    requires s.hw[q] != [] && HeadSafe(s, q) && s.hw[q][0][0].comp == Aggr && s.tids[s.hw[q][0][0].tid].cleanup
    ensures |s.hw[q][0]| <= s.tids[s.hw[q][0][0].tid].incomp
  {}

  // ---------------------------------------------------------------------------------
  // When the count is too small

  /** The cleanup loop stops at zero: the subframes after the count are freed by nobody. */
  lemma {:induction false} CleanupLoses(s: Sc, t: TidId, c: seq<Frame>, limit: nat, x: Token)
    requires 0 < s.tids[t].incomp <= |c|
    ensures Kept(x, Own(s, x) + Toks(c, x), Own(CompCleanup(s, t, c, limit), x) + Toks(c[s.tids[t].incomp..], x), 0)
    decreases |c|
  {
    hide Own, Tok, FreeBuf, Resume;
    var s1 := FreeBuf(s, c[0]);
    FreeBufKeeps(s, c[0]);
    OwnFreeBuf(s, c[0], x);
    OwnTidCleanup(s1, t, limit, x);
    if s1.tids[t].incomp != 1 {
      CleanupLoses(TidCleanup(s1, t, limit), t, c[1..], limit, x);
      assert c[1..][s.tids[t].incomp - 1..] == c[s.tids[t].incomp..];
    }
  }

  lemma {:induction false} HoldsBuffer(q: seq<Frame>)
    requires q != []
    ensures Toks(q, Buffer(q[0].buf)) > 0
  {}

  /** Completing an aggregate during teardown keeps every buffer if and only if the count covers it. */
  lemma CleanupKeepsBuffersIff(s: Sc, t: TidId, c: seq<Frame>, limit: nat)
    requires 0 < s.tids[t].incomp
    ensures (forall b :: Own(CompCleanup(s, t, c, limit), Buffer(b)) == Own(s, Buffer(b)) + Toks(c, Buffer(b)))
            <==> |c| <= s.tids[t].incomp
  {
    hide Own, CompCleanup;
    if |c| <= s.tids[t].incomp {
      forall b ensures Own(CompCleanup(s, t, c, limit), Buffer(b)) == Own(s, Buffer(b)) + Toks(c, Buffer(b)) {
        OwnCompCleanup(s, t, c, limit, Buffer(b));
      }
    } else {
      var lost := c[s.tids[t].incomp..];
      HoldsBuffer(lost);
      CleanupLoses(s, t, c, limit, Buffer(lost[0].buf));
    }
  }

  // ---------------------------------------------------------------------------------
  // The count, completion by completion

  /** A BAR of an identifier outside a session changes its pause flag and its next number only. */
  lemma CompBarOut(s: Sc, t: TidId, f: Frame, st: TxStat, linked: bool, limit: nat)
    requires Out(s.tids[t])
    ensures var r := CompBar(s, t, f, st, linked, limit).tids[t];
      Out(r) && r.cleanup == s.tids[t].cleanup && r.incomp == s.tids[t].incomp
  {
    hide Resume, FreeAll, QueueOf;
    ResumeAside(s, t, limit, t);
    var tid := s.tids[t].(aggr := false);
    CleanupAgain(tid);
    var s0 := SetTid(s, t, tid);
    var s1 := SetTid(FreeAll(s0, tid.bufq), t, CleanupTid(tid));
    FreeNone(s0);
    ResumeAside(s1, t, limit, t);
    var s2 := Disable(s, t, limit);
    FreeNone(s2);
  }

  lemma FreeNone(s: Sc)
    ensures FreeAll(s, []) == s
  {}

  /** The count and the flag after the completion of chain c. */
  function NextCount(tid: Tid, c: Chain, t: TidId): (bool, int) {
    if c[0].tid != t || c[0].comp == Bar || !tid.cleanup then (tid.cleanup, tid.incomp)
    else
      var n := if c[0].comp == Normal then 1 else |c|;
      (n < tid.incomp, tid.incomp - n)
  }

  /** A completion, seen from an identifier outside a session whose count covers its own entry. */
  lemma OutStep(s: Sc, q: Ac, st: TxStat, linked: bool, limit: nat, t: TidId)
    requires s.hw[q] != [] && Out(s.tids[t])
    requires var c := s.hw[q][0];
      Mine(c, t) ==> s.tids[t].cleanup && |c| <= s.tids[t].incomp
    requires s.tids[t].cleanup ==> s.tids[t].incomp > 0
    ensures var r := Process(s, q, st, linked, limit).tids[t];
      Out(r) && (r.cleanup, r.incomp) == NextCount(s.tids[t], s.hw[q][0], t)
  {
    hide TidCleanup, CompCleanup, CompAggr, CompUnaggr, CompBar, QueueOf;
    var c := s.hw[q][0];
    var v := c[0].tid;
    var s1 := Pop(s, q);
    match c[0].comp
    case Normal =>
      if v == t { TidCleanupOut(s1, t, limit); } else { TidCleanupAside(s1, v, limit, t); }
    case Bar =>
      if v == t { CompBarOut(s1, t, c[0], st, linked, limit); }
      else { CompBarAside(s1, v, c[0], st, linked, limit, t); }
    case Aggr =>
      if v == t {
        CompCleanupCounts(s1, t, c, limit);
      } else {
        CompCleanupAside(s1, v, c, limit, t);
        CompUnaggrAside(s1, v, c[0], st, linked, t);
        CompAggrAside(s1, v, c, st, t);
      }
  }

  lemma TidCleanupOut(s: Sc, t: TidId, limit: nat)
    requires Out(s.tids[t])
    ensures TidCleanup(s, t, limit).tids[t]
         == if s.tids[t].incomp != 1 then s.tids[t].(incomp := s.tids[t].incomp - 1)
            else s.tids[t].(incomp := 0, cleanup := false, paused := false)
  {
    hide Resume;
    var s1 := SetTid(s, t, s.tids[t].(incomp := s.tids[t].incomp - 1));
    ResumeAside(SetTid(s1, t, s1.tids[t].(cleanup := false)), t, limit, t);
  }

  // ---------------------------------------------------------------------------------
  // When a teardown goes well

  ghost predicate MineIn(h: seq<Chain>, t: TidId) {
    exists j :: 0 <= j < |h| && Mine(h[j], t)
  }

  /** While the entries h complete, teardown of t is in progress exactly as long as a counted frame is among them. */
  ghost predicate Watched(s: Sc, q: Ac, t: TidId, h: seq<Chain>, answers: seq<Answer>)
    requires |answers| == |h|
    decreases |h|
  {
    && (s.tids[t].cleanup <==> MineIn(h, t))
    && (h != [] && s.hw[q] != [] ==>
          Watched(Process(s, q, answers[0].st, answers[0].linked, answers[0].limit), q, t, h[1..], answers[1..]))
  }

  /** Completing the entry at the head keeps every buffer. */
  ghost predicate Keeps(s: Sc, q: Ac, a: Answer)
    requires s.hw[q] != []
  {
    forall b :: Own(Process(s, q, a.st, a.linked, a.limit), Buffer(b)) == Own(s, Buffer(b))
  }

  /** While the entries h complete, no entry of t loses a buffer. */
  ghost predicate KeepsOwn(s: Sc, q: Ac, t: TidId, h: seq<Chain>, answers: seq<Answer>)
    requires |answers| == |h|
    decreases |h|
  {
    h != [] && s.hw[q] != [] ==>
      && (h[0][0].tid == t ==> Keeps(s, q, answers[0]))
      && KeepsOwn(Process(s, q, answers[0].st, answers[0].linked, answers[0].limit), q, t, h[1..], answers[1..])
  }

  /** No entry of t loses a buffer, and teardown ends with its last counted frame, not before and not after. */
  ghost predicate GoesWell(s: Sc, q: Ac, t: TidId, answers: seq<Answer>)
    requires |answers| == |s.hw[q]|
  {
    Watched(s, q, t, s.hw[q], answers) && KeepsOwn(s, q, t, s.hw[q], answers)
  }

  /** The plain frames of t ahead of its last aggregated entry. */
  ghost function PlainAhead(h: seq<Chain>, t: TidId): nat {
    if h == [] then 0
    else (if IsNormal(h[0], t) && MineIn(h[1..], t) then 1 else 0) + PlainAhead(h[1..], t)
  }

  /** What the completions of h take off the count up to the last aggregated entry of t. */
  ghost function Needed(h: seq<Chain>, t: TidId): nat {
    |InHardware(h, t)| + PlainAhead(h, t)
  }

  lemma {:induction false} NothingAhead(h: seq<Chain>, t: TidId)
    ensures !MineIn(h, t) ==> PlainAhead(h, t) == 0
    ensures PlainAhead(h, t) == 0 <==> NormalsBehind(h, t)
    decreases |h|
  {
    hide Mine, MineIn, NormalsBehind, IsNormal;
    if h == [] {
      BehindNone(t);
    } else {
      MineInStep(h, t);
      BehindStep(h, t);
      NothingAhead(h[1..], t);
    }
  }

  lemma BehindNone(t: TidId)
    ensures NormalsBehind([], t) && !MineIn([], t)
  {}

  /** How the first entry of h counts. */
  lemma NeededStep(h: seq<Chain>, t: TidId)
    requires h != []
    ensures Needed(h, t) == Needed(h[1..], t)
         + if Mine(h[0], t) then |h[0]| else if IsNormal(h[0], t) && MineIn(h[1..], t) then 1 else 0
    ensures MineIn(h, t) <==> Mine(h[0], t) || MineIn(h[1..], t)
    ensures MineIn(h[1..], t) ==> Needed(h[1..], t) > 0
    ensures !MineIn(h[1..], t) ==> Needed(h[1..], t) == 0
  {
    hide InHardware, MineIn;
    HeadCount(h, t);
    MineInStep(h, t);
    LeftIff(h[1..], t);
    NothingAhead(h[1..], t);
    hide PlainAhead, Mine, IsNormal;
    assert PlainAhead(h, t) == (if IsNormal(h[0], t) && MineIn(h[1..], t) then 1 else 0) + PlainAhead(h[1..], t)
      by { PlainAheadStep(h, t); }
    MineIs(h[0], t);
  }

  lemma PlainAheadStep(h: seq<Chain>, t: TidId)
    requires h != []
    ensures PlainAhead(h, t) == (if IsNormal(h[0], t) && MineIn(h[1..], t) then 1 else 0) + PlainAhead(h[1..], t)
  {}

  lemma MineInStep(h: seq<Chain>, t: TidId)
    requires h != []
    ensures MineIn(h, t) <==> Mine(h[0], t) || MineIn(h[1..], t)
  {
    hide Mine;
    if MineIn(h, t) {
      var j :| 0 <= j < |h| && Mine(h[j], t);
      if j > 0 { assert Mine(h[1..][j - 1], t); }
    }
    if MineIn(h[1..], t) {
      var j :| 0 <= j < |h[1..]| && Mine(h[1..][j], t);
      assert Mine(h[j + 1], t);
    }
  }

  lemma {:induction false} LeftIff(h: seq<Chain>, t: TidId)
    ensures |InHardware(h, t)| > 0 <==> MineIn(h, t)
  {
    hide Mine, InHardware, MineIn;
    if h == [] {
      NothingInHardware(h, t);
      assert !MineIn(h, t) by { NoneIn(t); }
    } else {
      MineInStep(h, t);
      HeadCount(h, t);
      LeftIff(h[1..], t);
    }
  }

  lemma NoneIn(t: TidId)
    ensures !MineIn([], t)
  {}

  lemma HeadCount(h: seq<Chain>, t: TidId)
    requires h != []
    ensures |InHardware(h, t)| == (if Mine(h[0], t) then |h[0]| else 0) + |InHardware(h[1..], t)|
  {
    CardSeqNumbers(h[0]);
  }

  lemma BehindStep(h: seq<Chain>, t: TidId)
    requires h != []
    ensures NormalsBehind(h, t) <==> NormalsBehind(h[1..], t) && !(IsNormal(h[0], t) && MineIn(h[1..], t))
  {
    hide Mine, IsNormal;
    forall j | 0 <= j < |h[1..]| ensures h[1..][j] == h[j + 1] {}
    if NormalsBehind(h[1..], t) && !(IsNormal(h[0], t) && MineIn(h[1..], t)) {
      forall i, j | 0 <= i < j < |h| && IsNormal(h[i], t) ensures !Mine(h[j], t) {
        assert h[1..][j - 1] == h[j];
        if i > 0 { assert h[1..][i - 1] == h[i]; }
      }
    }
    if IsNormal(h[0], t) && MineIn(h[1..], t) {
      var j :| 0 <= j < |h[1..]| && Mine(h[1..][j], t);
      assert Mine(h[j + 1], t);
    }
  }

  /** One completion moves on to the rest of the entries. */
  lemma NextEntry(s: Sc, q: Ac, st: TxStat, linked: bool, limit: nat, h: seq<Chain>)
    requires Shape(s) && h != [] && h <= s.hw[q]
    ensures s.hw[q][0] == h[0]
    ensures var r := Process(s, q, st, linked, limit); Shape(r) && h[1..] <= r.hw[q]
  {
    hide Shape, Process;
    ProcessGrew(s, q, st, linked, limit);
    assert h[1..] <= s.hw[q][1..];
  }

  /** An entry larger than what is left of the count loses a buffer. */
  lemma EntryLoses(s: Sc, q: Ac, st: TxStat, linked: bool, limit: nat) returns (b: nat)
    requires s.hw[q] != [] && s.hw[q][0][0].comp == Aggr
    requires var tid := s.tids[s.hw[q][0][0].tid]; tid.cleanup && 0 < tid.incomp < |s.hw[q][0]|
    ensures Own(Process(s, q, st, linked, limit), Buffer(b)) < Own(s, Buffer(b))
  {
    hide Own, CompCleanup;
    var c := s.hw[q][0];
    var t := c[0].tid;
    var lost := c[s.tids[t].incomp..];
    b := lost[0].buf;
    HoldsBuffer(lost);
    OwnPop(s, q, Buffer(b));
    CleanupLoses(Pop(s, q), t, c, limit, Buffer(b));
  }

  lemma MineIs(c: Chain, t: TidId)
    ensures Mine(c, t) <==> c[0].tid == t && c[0].comp == Aggr
    ensures IsNormal(c, t) <==> c[0].tid == t && c[0].comp == Normal
  {}

  lemma SafeKeeps(s: Sc, q: Ac, a: Answer)
    requires s.hw[q] != [] && HeadSafe(s, q)
    ensures Keeps(s, q, a)
  {
    hide Own, Process, HeadSafe;
    forall b ensures Own(Process(s, q, a.st, a.linked, a.limit), Buffer(b)) == Own(s, Buffer(b)) {
      ProcessConserves(s, q, a.st, a.linked, a.limit, Buffer(b));
    }
  }

  /** With the right count, teardown lasts exactly as long as it should, and nothing of t is lost. */
  lemma {:induction false} RightCount(s: Sc, q: Ac, t: TidId, h: seq<Chain>, answers: seq<Answer>)
    requires Shape(s) && h <= s.hw[q] && |answers| == |h|
    requires Out(s.tids[t]) && s.tids[t].incomp == Needed(h, t) && (s.tids[t].cleanup <==> MineIn(h, t))
    ensures Watched(s, q, t, h, answers) && KeepsOwn(s, q, t, h, answers)
    decreases |h|
  {
    hide Shape, Own, Process, Mine, MineIn, Out, IsNormal, Needed, Keeps, HeadShape;
    if h != [] {
      var a := answers[0];
      NextEntry(s, q, a.st, a.linked, a.limit, h);
      NeededStep(h, t);
      MineIs(h[0], t);
      ShapeHead(s, q);
      if h[0][0].tid == t { SafeKeeps(s, q, a); }
      OutStep(s, q, a.st, a.linked, a.limit, t);
      RightCount(Process(s, q, a.st, a.linked, a.limit), q, t, h[1..], answers[1..]);
    }
  }

  /** With a wrong one, it does not end when it should, or an entry of t loses a buffer. */
  lemma {:induction false} WrongCount(s: Sc, q: Ac, t: TidId, h: seq<Chain>, answers: seq<Answer>)
    requires Shape(s) && h <= s.hw[q] && |answers| == |h|
    requires Out(s.tids[t]) && s.tids[t].cleanup && MineIn(h, t) && 0 < s.tids[t].incomp != Needed(h, t)
    ensures !(Watched(s, q, t, h, answers) && KeepsOwn(s, q, t, h, answers))
    decreases |h|
  {
    hide Shape, Own, Process, Mine, MineIn, Out, IsNormal, Needed;
    if h == [] {
      BehindNone(t);
    } else {
      var a := answers[0];
      NextEntry(s, q, a.st, a.linked, a.limit, h);
      NeededStep(h, t);
      MineIs(h[0], t);
      if Mine(h[0], t) && |h[0]| > s.tids[t].incomp {
        var b := EntryLoses(s, q, a.st, a.linked, a.limit);
        assert !Keeps(s, q, a);
      } else {
        hide Keeps;
        OutStep(s, q, a.st, a.linked, a.limit, t);
        var s1 := Process(s, q, a.st, a.linked, a.limit);
        if s1.tids[t].cleanup && MineIn(h[1..], t) {
          WrongCount(s1, q, t, h[1..], answers[1..]);
        }
      }
    }
  }

  /**
   When a teardown goes well. The host ends a session, and then the entries of the hardware queue complete,
   whatever their status. No entry of the identifier loses a buffer, and teardown
   lasts exactly until its last counted frame completes, if and only if what the window counts exceeds
   the frames in hardware by the plain frames ahead of the last of them. A bit left behind by a drain
   makes the count too large, a frame sent outside aggregation makes it too small.
   */
  lemma TeardownGoesWellIff(s: Sc, t: TidId, limit: nat, answers: seq<Answer>)
    requires Good(false, s) && s.tids[t].aggr && |answers| == |s.hw[QueueOf(t)]|
    ensures Disable(s, t, limit).hw == s.hw
    ensures GoesWell(Disable(s, t, limit), QueueOf(t), t, answers)
       <==> WindowCount(s.tids[t]) == |Held(s, t)| + PlainAhead(s.hw[QueueOf(t)], t)
  {
    hide Good, Disable, Shape, Own, Watched, KeepsOwn, InHardware, Out, QueueOf, WindowCount, MineIn, PlainAhead;
    var q := QueueOf(t);
    var r := Disable(s, t, limit);
    GoodShape(false, s);
    DisableGrew(s, t, limit);
    GrewShape(s, r);
    DisableStarts(false, s, t, limit);
    LeftIff(s.hw[q], t);
    if r.tids[t].incomp == Needed(s.hw[q], t) {
      NothingAhead(s.hw[q], t);
      RightCount(r, q, t, s.hw[q], answers);
    } else if MineIn(s.hw[q], t) {
      WrongCount(r, q, t, s.hw[q], answers);
    } else {
      NothingAhead(s.hw[q], t);
      if Watched(r, q, t, s.hw[q], answers) { WatchedNow(r, q, t, s.hw[q], answers); }
    }
  }

  lemma WatchedNow(s: Sc, q: Ac, t: TidId, h: seq<Chain>, answers: seq<Answer>)
    requires |answers| == |h| && Watched(s, q, t, h, answers)
    ensures s.tids[t].cleanup <==> MineIn(h, t)
  {}

  /** What teardown counts. */
  function WindowCount(tid: Tid): nat {
    Flush(FlushRetried(tid.win, tid.bufq)).1
  }

  /**
   The two causes apart. With no plain frame ahead, the count is right exactly when the window, the retried
   frames resolved, holds nothing but what is in hardware; with an exact window, exactly when none is ahead.
   */
  lemma RightCountIff(s: Sc, t: TidId)
    requires Good(false, s) && s.tids[t].aggr
    ensures NormalsBehind(s.hw[QueueOf(t)], t) ==>
      (WindowCount(s.tids[t]) == |Held(s, t)| + PlainAhead(s.hw[QueueOf(t)], t)
       <==> Represents(true, FlushRetried(s.tids[t].win, s.tids[t].bufq), Elems(Held(s, t))))
    ensures Good(true, s) ==>
      (WindowCount(s.tids[t]) == |Held(s, t)| + PlainAhead(s.hw[QueueOf(t)], t) <==> NormalsBehind(s.hw[QueueOf(t)], t))
  {
    hide Good, InHardware, QueueOf, NormalsBehind, PlainAhead, QueuedOk, Represents, Flush, FlushRetried;
    hide QueueOk, Clean;
    GoodLook(false, s, t);
    NothingAhead(s.hw[QueueOf(t)], t);
    SingleCard(Held(s, t));
    var w := FlushRetried(s.tids[t].win, s.tids[t].bufq);
    FlushRetriedLeaves(false, s.tids[t].win, s.tids[t].bufq, s.tids[t].seqNext, Elems(Held(s, t)));
    FlushCountsIff(w, Elems(Held(s, t)));
    if Good(true, s) {
      GoodLook(true, s, t);
      FlushRetriedLeaves(true, s.tids[t].win, s.tids[t].bufq, s.tids[t].seqNext, Elems(Held(s, t)));
      FlushCounts(true, w, Elems(Held(s, t)));
    }
  }

  /** The end of a session starts a teardown if the window counts anything, that count still to complete. */
  lemma DisableStarts(strict: bool, s: Sc, t: TidId, limit: nat)
    requires Good(strict, s) && s.tids[t].aggr
    ensures var r := Disable(s, t, limit);
      && r.hw == s.hw && Out(r.tids[t]) && (r.tids[t].cleanup <==> WindowCount(s.tids[t]) > 0)
      && r.tids[t].incomp == WindowCount(s.tids[t]) >= |Held(s, t)|
      && (strict ==> r.tids[t].incomp == |Held(s, t)|)
  {
    hide Good, Held, NormalsOk, QueuedOk, Resume, TidInv, FreeAll, Flush, FlushRetried;
    GoodLook(strict, s, t);
    CleanupOne(strict, s.tids[t], Held(s, t));
    TornTid(strict, CleanupTid(s.tids[t].(aggr := false)), Held(s, t));
    NoCount(strict, s.tids[t], Held(s, t));
    var s0 := SetTid(s, t, s.tids[t].(aggr := false));
    FreeAllKeepsTidq(s0, s0.tids[t].bufq);
    ResumeEmpty(SetTid(FreeAll(s0, s0.tids[t].bufq), t, CleanupTid(s0.tids[t])), t, limit);
  }

  lemma ResumeEmpty(s: Sc, t: TidId, limit: nat)
    requires s.tids[t].bufq == []
    ensures Resume(s, t, limit) == SetTid(s, t, s.tids[t].(paused := false))
  {}

  lemma NoCount(strict: bool, tid: Tid, m: Numbers)
    requires TidInv(strict, tid, m) && tid.aggr
    ensures tid.incomp == 0 && !tid.cleanup
  {}

  lemma TornTid(strict: bool, tid: Tid, m: Numbers)
    requires TidInv(strict, tid, m) && !tid.aggr
    ensures tid.incomp >= |m| && Out(tid) && (strict ==> tid.incomp == |m|)
  {}

  // ---------------------------------------------------------------------------------
  // The whole queue

  /** While the entries h complete, every entry of another identifier is safe by itself. */
  ghost predicate OthersSafe(s: Sc, q: Ac, t: TidId, h: seq<Chain>, answers: seq<Answer>)
    requires |answers| == |h|
    decreases |h|
  {
    h != [] && s.hw[q] != [] ==>
      && (h[0][0].tid != t ==> HeadSafe(s, q))
      && OthersSafe(Process(s, q, answers[0].st, answers[0].linked, answers[0].limit), q, t, h[1..], answers[1..])
  }

  lemma {:induction false} AllKept(s: Sc, q: Ac, t: TidId, h: seq<Chain>, answers: seq<Answer>, b: nat)
    requires Shape(s) && h <= s.hw[q] && |answers| == |h|
    requires OthersSafe(s, q, t, h, answers) && KeepsOwn(s, q, t, h, answers)
    ensures Own(ProcessAll(s, q, answers), Buffer(b)) == Own(s, Buffer(b))
    decreases |h|
  {
    hide Shape, Own, Process, HeadSafe;
    if h != [] {
      var a := answers[0];
      NextEntry(s, q, a.st, a.linked, a.limit, h);
      if h[0][0].tid != t { SafeKeeps(s, q, a); }
      AllKept(Process(s, q, a.st, a.linked, a.limit), q, t, h[1..], answers[1..], b);
    }
  }

  lemma {:induction false} AllSpend(s: Sc, q: Ac, answers: seq<Answer>, b: nat)
    requires Shape(s)
    ensures Own(ProcessAll(s, q, answers), Buffer(b)) <= Own(s, Buffer(b))
    decreases |answers|
  {
    hide Shape, Own, Process, HeadShape, HwGrew;
    if answers != [] && s.hw[q] != [] {
      var a := answers[0];
      ShapeHead(s, q);
      ProcessSpends(s, q, a.st, a.linked, a.limit, Buffer(b));
      ProcessGrew(s, q, a.st, a.linked, a.limit);
      AllSpend(Process(s, q, a.st, a.linked, a.limit), q, answers[1..], b);
    }
  }

  /** An entry that loses a buffer makes the whole queue lose it. */
  lemma {:induction false} NotKept(s: Sc, q: Ac, t: TidId, h: seq<Chain>, answers: seq<Answer>) returns (b: nat)
    requires Shape(s) && h <= s.hw[q] && |answers| == |h| && !KeepsOwn(s, q, t, h, answers)
    ensures Own(ProcessAll(s, q, answers), Buffer(b)) < Own(s, Buffer(b))
    decreases |h|
  {
    hide Shape, Own, Process, HeadShape;
    var a := answers[0];
    var s1 := Process(s, q, a.st, a.linked, a.limit);
    NextEntry(s, q, a.st, a.linked, a.limit, h);
    ShapeHead(s, q);
    if KeepsOwn(s1, q, t, h[1..], answers[1..]) {
      b :| Own(s1, Buffer(b)) != Own(s, Buffer(b));
      AllSpend(s1, q, answers[1..], b);
    } else {
      b := NotKept(s1, q, t, h[1..], answers[1..]);
    }
    ProcessSpends(s, q, a.st, a.linked, a.limit, Buffer(b));
  }

  /**
   Every buffer of the queue. If the entries of the other identifiers are safe, completing the whole queue keeps
   every buffer and ends teardown on time if and only if the count is right.
   */
  lemma QueueGoesWellIff(s: Sc, t: TidId, limit: nat, answers: seq<Answer>)
    requires Good(false, s) && s.tids[t].aggr && |answers| == |s.hw[QueueOf(t)]|
    requires Disable(s, t, limit).hw == s.hw ==>
      OthersSafe(Disable(s, t, limit), QueueOf(t), t, s.hw[QueueOf(t)], answers)
    ensures var q := QueueOf(t); var r := Disable(s, t, limit);
      && r.hw == s.hw
      && (Watched(r, q, t, s.hw[q], answers)
          && (forall b :: Own(ProcessAll(r, q, answers), Buffer(b)) == Own(r, Buffer(b)))
          <==> WindowCount(s.tids[t]) == |Held(s, t)| + PlainAhead(s.hw[q], t))
  {
    hide Good, Disable, Shape, Own, ProcessAll, Watched, KeepsOwn, InHardware, QueueOf, WindowCount, PlainAhead;
    hide OthersSafe;
    var q := QueueOf(t);
    var r := Disable(s, t, limit);
    GoodShape(false, s);
    DisableGrew(s, t, limit);
    GrewShape(s, r);
    TeardownGoesWellIff(s, t, limit, answers);
    if KeepsOwn(r, q, t, s.hw[q], answers) {
      forall b ensures Own(ProcessAll(r, q, answers), Buffer(b)) == Own(r, Buffer(b)) {
        AllKept(r, q, t, s.hw[q], answers, b);
      }
    } else {
      var b := NotKept(r, q, t, s.hw[q], answers);
    }
  }
}
