/**
 A run from attachment on which a bit left behind by a drain comes back to life: a later teardown counts it,
 waits for it, and never ends.
 */
module Leftover {
  import opened Frames
  import opened Window
  import opened Softc
  import opened Steps
  import opened Runs
  import opened Failures

  const LOST: TxStat := TxStat(true, false, false, 0, [])

  /** The window starts at number 0, slot 0, and its first `width` slots are in use, slot 0 certainly. */
  predicate StartsAtZero(w: Window, width: nat) {
    w.seqStart == 0 && w.head == 0 && w.tail == width && w.bits[0]
  }

  /** Identifier t between a drain and the next session. */
  predicate Drained(tid: Tid, aggr: bool) {
    && tid.aggr == aggr && !tid.paused && !tid.cleanup && tid.incomp == 0 && tid.bufq == []
    && StartsAtZero(tid.win, 0)
  }

  // ---------------------------------------------------------------------------------
  // A frame is sent, lost, queued again, and drained

  function FirstHalf(t: TidId): seq<Event> {
    [EnableAggr(t), FrameIn(t), CompleteStopped(QueueOf(t), LOST, false, 0)]
  }

  predicate LostOnce(tid: Tid) {
    && tid.aggr && !tid.paused && !tid.cleanup && tid.incomp == 0 && |tid.bufq| == 1 && StartsAtZero(tid.win, 1)
  }

  /** One frame of a session in hardware, its number 0. */
  predicate SentOnce(s: Sc, t: TidId) {
    && s.tids[t].aggr && !s.tids[t].paused && !s.tids[t].sched && !s.tids[t].cleanup && s.tids[t].incomp == 0
    && s.tids[t].bufq == [] && StartsAtZero(s.tids[t].win, 1) && s.tidq[QueueOf(t)] == []
    && |s.hw[QueueOf(t)]| == 1 && OneFrame(s.hw[QueueOf(t)][0], t, 0)
  }

  /** An aggregated frame of t alone in its entry, never retried. */
  predicate OneFrame(c: Chain, t: TidId, seqno: nat) {
    |c| == 1 && c[0].tid == t && c[0].comp == Comp.Aggr && c[0].retries == 0 && c[0].seqno == seqno
  }

  lemma FirstSent(k2: bool, n: nat, t: TidId, u: TidId)
    requires n >= 3 && t != u
    ensures var s := Attached(k2, n); var r := Step(Step(s, EnableAggr(t)), FrameIn(t));
      && Allowed(false, s, EnableAggr(t)) && Allowed(false, Step(s, EnableAggr(t)), FrameIn(t))
      && SentOnce(r, t) && r.tids[u] == FreshTid() && |r.free| == n - 1
  {
    hide QueueOf;
    var s := Attached(k2, n);
    var s1 := Step(s, EnableAggr(t));
    var w := Add(s1.tids[t].win, 0);
    assert w.bits[0] && w.tail == 1;
  }

  lemma FirstLost(s: Sc, t: TidId, u: TidId)
    requires SentOnce(s, t) && t != u
    ensures var e := CompleteStopped(QueueOf(t), LOST, false, 0); var r := Step(s, e);
      && Allowed(false, s, e) && LostOnce(r.tids[t]) && r.tids[u] == s.tids[u]
      && r.hw[QueueOf(t)] == [] && r.tidq[QueueOf(t)] == [t] && r.free == s.free
  {
    hide QueueOf, Resolve;
  }

  lemma SentAndLost(k2: bool, n: nat, t: TidId, u: TidId)
    requires n >= 3 && t != u
    ensures var s := Attached(k2, n); var r := Run(s, FirstHalf(t)); var q := QueueOf(t);
      && AllowedRun(false, s, FirstHalf(t)) && LostOnce(r.tids[t]) && r.tids[u] == FreshTid()
      && r.hw[q] == [] && r.tidq[q] == [t] && |r.free| >= 2
  {
    hide QueueOf, Run, AllowedRun, Step, Allowed, SentOnce, LostOnce, Attached;
    var s := Attached(k2, n);
    RunThree(false, s, EnableAggr(t), FrameIn(t), CompleteStopped(QueueOf(t), LOST, false, 0));
    FirstSent(k2, n, t, u);
    FirstLost(Step(Step(s, EnableAggr(t)), FrameIn(t)), t, u);
  }

  /** The drain empties the queue; the bit stays. */
  lemma LostDrained(s: Sc, t: TidId, u: TidId)
    requires LostOnce(s.tids[t]) && t != u && s.hw[QueueOf(t)] == [] && s.tidq[QueueOf(t)] == [t]
    ensures var e := DrainTids(QueueOf(t)); var r := Step(s, e);
      && Allowed(false, s, e) && Drained(r.tids[t], true) && r.tids[t].seqNext == 0 && !r.tids[t].sched
      && r.tids[u] == s.tids[u] && r.hw == s.hw && r.tidq[QueueOf(t)] == [] && |r.free| >= |s.free|
  {
    hide QueueOf;
    var q := QueueOf(t);
    var s1 := Dequeue(s, q);
    FreeAllKeepsTidq(s1, s1.tids[t].bufq);
    FreeAllGrows(s1, s1.tids[t].bufq);
    hide FreeAll;
    assert DrainFirst(s, q).tidq[q] == [];
    assert DrainScheduled(s, q) == DrainFirst(s, q);
  }

  // ---------------------------------------------------------------------------------
  // A new frame is queued behind one of u, and thrown away by a teardown

  lemma PlainSent(s: Sc, t: TidId, u: TidId)
    requires s.tids[u] == FreshTid() && t != u && QueueOf(t) == QueueOf(u) && s.hw[QueueOf(t)] == [] && |s.free| >= 2
    ensures var r := Step(s, FrameIn(u));
      && r.tids[t] == s.tids[t] && r.tidq == s.tidq && |r.free| >= 1 && !r.tids[u].cleanup
      && |r.hw[QueueOf(t)]| == 1 && PlainFrame(r.hw[QueueOf(t)][0], u)
  {
    hide QueueOf;
  }

  lemma NewQueued(s: Sc, t: TidId)
    requires Drained(s.tids[t], true) && s.tids[t].seqNext == 0 && s.hw[QueueOf(t)] != [] && s.free != []
    ensures var r := Step(s, FrameIn(t)); var tid := r.tids[t];
      && r.hw == s.hw && (forall u: TidId :: u != t ==> r.tids[u] == s.tids[u]) && |r.free| == |s.free| - 1
      && tid.aggr && !tid.paused && !tid.cleanup && tid.incomp == 0 && tid.seqNext == 1
      && |tid.bufq| == 1 && !tid.bufq[0].isretried && StartsAtZero(tid.win, 0)
  {
    hide QueueOf;
  }

  lemma NewDiscarded(s: Sc, t: TidId, u: TidId)
    requires var tid := s.tids[t];
      && tid.aggr && !tid.paused && !tid.cleanup && tid.incomp == 0 && tid.seqNext == 1
      && |tid.bufq| == 1 && !tid.bufq[0].isretried && StartsAtZero(tid.win, 0)
    requires t != u && |s.hw[QueueOf(t)]| == 1 && PlainFrame(s.hw[QueueOf(t)][0], u)
    ensures var e := DisableAggr(t, 0); var r := Step(s, e);
      && Allowed(false, s, e) && Drained(r.tids[t], false) && r.tids[t].seqNext == 1
      && r.tids[u] == s.tids[u] && r.hw == s.hw && |r.free| >= 1
  {
    hide QueueOf;
    var tid := s.tids[t];
    var s0 := SetTid(s, t, tid.(aggr := false));
    FreeAllKeepsTidq(s0, tid.bufq);
    FreeAllGrows(s0, tid.bufq);
    hide FreeAll;
    assert tid.bufq[1..] == [];
    assert FlushRetried(tid.win, tid.bufq) == tid.win;
    assert CleanupTid(tid.(aggr := false)) == tid.(aggr := false, bufq := [], paused := true);
  }

  /** The frame of u completes, and aggregation is enabled for t again. */
  lemma PlainCompletes(s: Sc, t: TidId, u: TidId)
    requires t != u && Drained(s.tids[t], false) && !s.tids[u].cleanup
    requires |s.hw[QueueOf(t)]| == 1 && PlainFrame(s.hw[QueueOf(t)][0], u)
    ensures var e := CompleteStopped(QueueOf(t), OK, false, 0); var r := Step(Step(s, e), EnableAggr(t));
      && Allowed(false, s, e) && Allowed(false, Step(s, e), EnableAggr(t))
      && Drained(r.tids[t], true) && r.tids[t].seqNext == s.tids[t].seqNext && r.hw[QueueOf(t)] == []
      && |r.free| >= |s.free|
  {
    hide QueueOf;
  }

  // ---------------------------------------------------------------------------------
  // The next number is sent, and the next teardown counts two

  /** Number 1 in hardware; the window also covers number 0, which nobody holds. */
  predicate SentSecond(s: Sc, t: TidId) {
    && s.tids[t].aggr && !s.tids[t].cleanup && s.tids[t].incomp == 0 && s.tids[t].bufq == []
    && StartsAtZero(s.tids[t].win, 2) && s.tids[t].win.bits[1]
    && |s.hw[QueueOf(t)]| == 1 && OneFrame(s.hw[QueueOf(t)][0], t, 1)
  }

  lemma SecondSent(s: Sc, t: TidId)
    requires Drained(s.tids[t], true) && s.tids[t].seqNext == 1 && s.hw[QueueOf(t)] == [] && s.free != []
    ensures SentSecond(Step(s, FrameIn(t)), t)
  {
    hide QueueOf;
    var w := Add(s.tids[t].win, 1);
    assert w.bits[1] && w.bits[0] && w.tail == 2;
  }

  lemma FlushTwo(w: Window)
    requires StartsAtZero(w, 2) && w.bits[1]
    ensures Flush(w).1 == 2
  {
    var w1 := Advance(w.(bits := w.bits[0 := false]));
    assert w1.head == 1 && w1.tail == 2 && w1.bits[1];
    var w2 := Advance(w1.(bits := w1.bits[1 := false]));
    assert Flush(w2).1 == 0;
    assert Flush(w1).1 == 1;
  }

  /** The teardown starts with a count of two, though one frame is in hardware. */
  lemma SecondTornDown(s: Sc, t: TidId)
    requires SentSecond(s, t)
    ensures var e := DisableAggr(t, 0); var r := Step(s, e);
      && Allowed(false, s, e) && r.hw == s.hw
      && r.tids[t].cleanup && r.tids[t].paused && r.tids[t].incomp == 2
  {
    hide QueueOf, Flush;
    FlushTwo(s.tids[t].win);
  }

  /** That frame completes, and the teardown is left waiting. */
  lemma SecondCompletes(s: Sc, t: TidId)
    requires |s.hw[QueueOf(t)]| == 1 && OneFrame(s.hw[QueueOf(t)][0], t, 1)
    requires s.tids[t].cleanup && s.tids[t].paused && s.tids[t].incomp == 2
    ensures var e := CompleteStopped(QueueOf(t), OK, false, 0); var r := Step(s, e);
      && Allowed(false, s, e) && r.hw[QueueOf(t)] == []
      && r.tids[t].cleanup && r.tids[t].paused && r.tids[t].incomp == 1
  {
    hide QueueOf, Resume;
    var s1 := Pop(s, QueueOf(t));
    var c := s.hw[QueueOf(t)][0];
    var s2 := TidCleanup(FreeBuf(s1, c[0]), t, 0);
    assert c[1..] == [] && CompCleanup(s2, t, c[1..], 0) == s2;
    assert CompCleanup(s1, t, c, 0) == s2;
  }

  // ---------------------------------------------------------------------------------
  // The whole run

  function LeftoverRun(t: TidId, u: TidId): seq<Event> {
    var q := QueueOf(t);
    FirstHalf(t) + [DrainTids(q), FrameIn(u), FrameIn(t)]
    + [DisableAggr(t, 0), CompleteStopped(q, OK, false, 0), EnableAggr(t)]
    + [FrameIn(t), DisableAggr(t, 0), CompleteStopped(q, OK, false, 0)]
  }

  lemma Third(s: Sc, t: TidId, u: TidId)
    requires LostOnce(s.tids[t]) && t != u && QueueOf(t) == QueueOf(u)
    requires s.tids[u] == FreshTid() && s.hw[QueueOf(t)] == [] && s.tidq[QueueOf(t)] == [t] && |s.free| >= 2
    ensures var es := [DrainTids(QueueOf(t)), FrameIn(u), FrameIn(t)]; var r := Run(s, es); var tid := r.tids[t];
      && AllowedRun(false, s, es) && !r.tids[u].cleanup
      && tid.aggr && !tid.paused && !tid.cleanup && tid.incomp == 0 && tid.seqNext == 1
      && |tid.bufq| == 1 && !tid.bufq[0].isretried && StartsAtZero(tid.win, 0)
      && |r.hw[QueueOf(t)]| == 1 && PlainFrame(r.hw[QueueOf(t)][0], u)
  {
    hide QueueOf, Run, AllowedRun, Step, LostOnce, Drained, PlainFrame;
    RunThree(false, s, DrainTids(QueueOf(t)), FrameIn(u), FrameIn(t));
    LostDrained(s, t, u);
    var s1 := Step(s, DrainTids(QueueOf(t)));
    PlainSent(s1, t, u);
    NewQueued(Step(s1, FrameIn(u)), t);
  }

  lemma Second(s: Sc, t: TidId, u: TidId)
    requires t != u && !s.tids[u].cleanup
    requires var tid := s.tids[t];
      && tid.aggr && !tid.paused && !tid.cleanup && tid.incomp == 0 && tid.seqNext == 1
      && |tid.bufq| == 1 && !tid.bufq[0].isretried && StartsAtZero(tid.win, 0)
    requires |s.hw[QueueOf(t)]| == 1 && PlainFrame(s.hw[QueueOf(t)][0], u)
    ensures var es := [DisableAggr(t, 0), CompleteStopped(QueueOf(t), OK, false, 0), EnableAggr(t)];
      var r := Run(s, es);
      && AllowedRun(false, s, es) && Drained(r.tids[t], true) && r.tids[t].seqNext == 1
      && r.hw[QueueOf(t)] == [] && r.free != []
  {
    hide QueueOf, Run, AllowedRun, Step, Drained, PlainFrame, Allowed;
    RunThree(false, s, DisableAggr(t, 0), CompleteStopped(QueueOf(t), OK, false, 0), EnableAggr(t));
    NewDiscarded(s, t, u);
    PlainCompletes(Step(s, DisableAggr(t, 0)), t, u);
  }

  lemma Last(s: Sc, t: TidId)
    requires Drained(s.tids[t], true) && s.tids[t].seqNext == 1 && s.hw[QueueOf(t)] == [] && s.free != []
    ensures var es := [FrameIn(t), DisableAggr(t, 0), CompleteStopped(QueueOf(t), OK, false, 0)];
      var r := Run(s, es);
      && AllowedRun(false, s, es) && r.hw[QueueOf(t)] == []
      && r.tids[t].cleanup && r.tids[t].paused && r.tids[t].incomp == 1
  {
    hide QueueOf, Run, AllowedRun, Step, Drained, OneFrame;
    RunThree(false, s, FrameIn(t), DisableAggr(t, 0), CompleteStopped(QueueOf(t), OK, false, 0));
    SecondSent(s, t);
    var s1 := Step(s, FrameIn(t));
    SecondTornDown(s1, t);
    SecondCompletes(Step(s1, DisableAggr(t, 0)), t);
  }

  /**
   A teardown that never ends. At the end of this run, every event of which is allowed, t is paused for a
   teardown that waits for one more completion, and nothing of it, nor of anyone, is in its hardware queue.
   */
  lemma NeverEnds(k2: bool, n: nat, t: TidId, u: TidId)
    requires n >= 3 && t != u && QueueOf(t) == QueueOf(u)
    ensures var s := Attached(k2, n); var r := Run(s, LeftoverRun(t, u));
      && AllowedRun(false, s, LeftoverRun(t, u))
      && r.tids[t].paused && r.tids[t].cleanup && r.tids[t].incomp == 1 && r.hw[QueueOf(t)] == []
  {
    hide QueueOf, Run, AllowedRun, Attached, LostOnce, Drained, PlainFrame;
    var s := Attached(k2, n);
    var q := QueueOf(t);
    var a := FirstHalf(t);
    var b := [DrainTids(q), FrameIn(u), FrameIn(t)];
    var c := [DisableAggr(t, 0), CompleteStopped(q, OK, false, 0), EnableAggr(t)];
    var d := [FrameIn(t), DisableAggr(t, 0), CompleteStopped(q, OK, false, 0)];
    SentAndLost(k2, n, t, u);
    Third(Run(s, a), t, u);
    RunConcat(s, a, b);
    AllowedConcat(false, s, a, b);
    Second(Run(s, a + b), t, u);
    RunConcat(s, a + b, c);
    AllowedConcat(false, s, a + b, c);
    Last(Run(s, a + b + c), t);
    RunConcat(s, a + b + c, d);
    AllowedConcat(false, s, a + b + c, d);
  }
}
