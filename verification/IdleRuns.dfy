/** Two runs from attachment that leave a hardware queue idle while an identifier on its list could send. */
module IdleRuns {
  import opened Frames
  import opened Window
  import opened Softc
  import opened Session
  import opened Runs
  import opened Bystander
  import opened Stall
  import opened Idle
  import opened Failures

  /** Nothing in hardware, and the last of the identifiers listed could send. */
  predicate IdleBefore(s: Sc, q: Ac, l: seq<TidId>, u: TidId) {
    s.hw[q] == [] && s.tidq[q] == l && CanSend(s.tids[u])
  }

  // ---------------------------------------------------------------------------------
  // A call wasted on an identifier whose session has ended

  /**
   A frame of t goes out; a frame of t and one of u are queued behind it; then the session of t ends, which leaves t on
   the list with nothing to send. The completion that follows serves t.
   */
  function EndedRun(t: TidId, u: TidId): seq<Event> {
    [FrameIn(t), EnableAggr(t), EnableAggr(u)]
    + [FrameIn(t), FrameIn(u), DisableAggr(t, 0)] + [Complete(QueueOf(t), OK, false, 0, 0xFFFF)]
  }

  /** A plain frame of t alone in its hardware queue, nobody listed. */
  predicate OneOut(s: Sc, t: TidId) {
    var q := QueueOf(t);
    |s.hw[q]| == 1 && PlainFrame(s.hw[q][0], t) && s.tidq[q] == []
  }

  /** A session with nothing sent, x its first and its next number. */
  predicate Begun(tid: Tid, x: nat) {
    && tid.aggr && !tid.paused && !tid.sched && !tid.cleanup && tid.incomp == 0 && tid.bufq == []
    && tid.seqNext == x && tid.win == Fresh().(seqStart := x)
  }

  lemma EndedStart(k2: bool, n: nat, t: TidId, u: TidId)
    requires n >= 3 && t != u && QueueOf(t) == QueueOf(u)
    ensures var s := Attached(k2, n);
            var es := [FrameIn(t), EnableAggr(t), EnableAggr(u)];
            var r := Run(s, es);
      && AllowedRun(true, s, es) && OneOut(r, t) && Begun(r.tids[t], 1) && Begun(r.tids[u], 0) && |r.free| == n - 1
  {
    hide QueueOf, Run, AllowedRun;
    var s := Attached(k2, n);
    RunThree(true, s, FrameIn(t), EnableAggr(t), EnableAggr(u));
    assert s.hw[QueueOf(t)] == [] && s.tidq[QueueOf(t)] == [];
    var s1 := Step(s, FrameIn(t));
    assert |s1.hw[QueueOf(t)]| == 1 && PlainFrame(s1.hw[QueueOf(t)][0], t) && s1.tids[u] == FreshTid();
  }

  /** Both have queued a frame. */
  predicate BothQueued(s: Sc, t: TidId, u: TidId) {
    var q := QueueOf(t);
    && |s.hw[q]| == 1 && PlainFrame(s.hw[q][0], t) && s.tidq[q] == [t, u]
    && s.tids[t].aggr && s.tids[t].win == Fresh().(seqStart := 1) && !s.tids[t].cleanup && s.tids[t].incomp == 0
    && |s.tids[t].bufq| == 1 && !s.tids[t].bufq[0].isretried && CanSend(s.tids[u])
  }

  lemma EndedQueued(s: Sc, t: TidId, u: TidId)
    requires t != u && QueueOf(t) == QueueOf(u) && OneOut(s, t) && Begun(s.tids[t], 1) && Begun(s.tids[u], 0)
    requires |s.free| >= 2
    ensures BothQueued(Step(Step(s, FrameIn(t)), FrameIn(u)), t, u)
  {
    hide QueueOf, PlainFrame;
    var s1 := Step(s, FrameIn(t));
    assert s1.tidq[QueueOf(t)] == [t] && s1.hw == s.hw && s1.tids[u] == s.tids[u] && |s1.free| == |s.free| - 1;
  }

  /** The session of t has ended, and t is on the list with nothing to send. */
  predicate Ended(s: Sc, t: TidId, u: TidId) {
    var q := QueueOf(t);
    && |s.hw[q]| == 1 && PlainFrame(s.hw[q][0], t) && s.tidq[q] == [t, u]
    && !s.tids[t].aggr && !s.tids[t].paused && !s.tids[t].cleanup && s.tids[t].bufq == [] && CanSend(s.tids[u])
  }

  lemma EndedEnds(s: Sc, t: TidId, u: TidId)
    requires t != u && BothQueued(s, t, u)
    ensures Allowed(true, s, DisableAggr(t, 0)) && Ended(Step(s, DisableAggr(t, 0)), t, u)
  {
    hide QueueOf, CanSend, Flush;
    var tid := s.tids[t].(aggr := false);
    var s0 := SetTid(s, t, tid);
    FreeAllKeepsTidq(s0, tid.bufq);
    FlushRetriedFresh(tid.win, tid.bufq);
    FlushNothing(tid.win);
    hide FreeAll, FlushRetried;
    assert CleanupTid(tid) == tid.(bufq := [], paused := true);
  }

  lemma FlushNothing(w: Window)
    requires w.head == w.tail
    ensures Flush(w) == (w, 0)
  {}

  lemma EndedCompletes(s: Sc, t: TidId, u: TidId)
    requires t != u && Ended(s, t, u)
    ensures var e := Complete(QueueOf(t), OK, false, 0, 0xFFFF);
      Allowed(true, s, e) && IdleBefore(Step(s, e), QueueOf(t), [u], u)
  {
    hide QueueOf, CanSend;
    var q := QueueOf(t);
    var s1 := Process(s, q, OK, false, 0);
    assert s1.hw[q] == [] && s1.tids == s.tids && s1.tidq == s.tidq;
    var s2 := Dequeue(s1, q);
    assert SchedTid(s2, t, 0xFFFF) == s2;
  }

  /** After this run, which strict mode allows, the queue is idle, u is listed and could send. */
  lemma IdleAfterEnd(k2: bool, n: nat, t: TidId, u: TidId)
    requires n >= 3 && t != u && QueueOf(t) == QueueOf(u)
    ensures var s := Attached(k2, n);
      AllowedRun(true, s, EndedRun(t, u)) && IdleBefore(Run(s, EndedRun(t, u)), QueueOf(t), [u], u)
  {
    hide QueueOf, Run, AllowedRun, Attached, Step, Allowed, OneOut, Begun, BothQueued, Ended, IdleBefore;
    var s := Attached(k2, n);
    var a := [FrameIn(t), EnableAggr(t), EnableAggr(u)];
    var b := [FrameIn(t), FrameIn(u), DisableAggr(t, 0)];
    var c := [Complete(QueueOf(t), OK, false, 0, 0xFFFF)];
    EndedStart(k2, n, t, u);
    var s1 := Run(s, a);
    EndedQueued(s1, t, u);
    var s2 := Step(Step(s1, FrameIn(t)), FrameIn(u));
    EndedEnds(s2, t, u);
    RunThree(true, s1, FrameIn(t), FrameIn(u), DisableAggr(t, 0));
    FramesAllowed(s1, t, u);
    RunConcat(s, a, b);
    AllowedConcat(true, s, a, b);
    var s3 := Run(s, a + b);
    EndedCompletes(s3, t, u);
    RunOne(true, s3, c[0]);
    RunConcat(s, a + b, c);
    AllowedConcat(true, s, a + b, c);
  }

  lemma FramesAllowed(s: Sc, t: TidId, u: TidId)
    ensures Allowed(true, s, FrameIn(t)) && Allowed(true, Step(s, FrameIn(t)), FrameIn(u))
  {
    hide Step;
  }

  // ---------------------------------------------------------------------------------
  // A call wasted on a stalled session

  /** After the run that stalls t, it and u each queue a frame, and the frame of u in hardware completes. */
  function StalledRun(t: TidId, u: TidId): seq<Event> {
    StallRun(t, u) + [FrameIn(t), EnableAggr(u), FrameIn(u)] + [Complete(QueueOf(t), OK, false, 0, 0xFFFF)]
  }

  /** Both have queued a frame, but t may not send its. */
  predicate OneStalled(s: Sc, t: TidId, u: TidId) {
    var q := QueueOf(t);
    && |s.hw[q]| == 1 && PlainFrame(s.hw[q][0], u) && s.tidq[q] == [t, u] && !s.tids[u].cleanup
    && !s.tids[t].paused && Stalled(s.tids[t]) && Quiet(s.tids[t]) && s.tids[t].bufq != [] && CanSend(s.tids[u])
  }

  lemma StalledFrame(s: Sc, t: TidId, u: TidId)
    requires t != u && StallsAt(s, t, u)
    ensures var r := Step(s, FrameIn(t));
      && Waiting(r, t, u, true) && Silent(r.tids[t], true, 75, 1) && r.free != []
      && Stalled(r.tids[t]) && Quiet(r.tids[t])
  {
    hide QueueOf, Waiting, Stalled, PlainFrame, Silent;
    FrameQueued(s, t, u, 75, 0);
    SilentNumbers(s.tids[t]);
    ReceiveStalled(s, t, true, 0, 100, KeyType.Clear);
    StalledHead(Step(s, FrameIn(t)).tids[t]);
  }

  lemma SilentNumbers(tid: Tid)
    requires Silent(tid, true, 75, 0)
    ensures tid.seqNext < SEQ_MAX
  {}

  lemma StalledHead(tid: Tid)
    requires Silent(tid, true, 75, 1) && Stalled(tid)
    ensures Quiet(tid)
  {
    GapAtStart(tid);
    assert tid.bufq[0] in tid.bufq;
  }

  lemma OtherFrame(s: Sc, t: TidId, u: TidId)
    requires t != u && QueueOf(u) == QueueOf(t)
    requires Waiting(s, t, u, true) && Silent(s.tids[t], true, 75, 1) && s.free != []
    requires Stalled(s.tids[t]) && Quiet(s.tids[t])
    ensures OneStalled(Step(Step(s, EnableAggr(u)), FrameIn(u)), t, u)
  {
    hide QueueOf, PlainFrame, Quiet, Stalled;
    var s1 := Step(s, EnableAggr(u));
    var r := Step(s1, FrameIn(u));
    assert r.tids[t] == s.tids[t] && r.hw == s.hw;
    assert r.tids[u].bufq[0].seqno == 1;
    InWindow(r.tids[u]);
  }

  lemma InWindow(tid: Tid)
    requires tid.bufq != [] && tid.bufq[0].seqno == 1 && tid.win.seqStart == 1
    ensures !Quiet(tid)
  {}

  lemma StalledCompletes(s: Sc, t: TidId, u: TidId)
    requires t != u && OneStalled(s, t, u)
    ensures var e := Complete(QueueOf(t), OK, false, 0, 0xFFFF);
      && Allowed(false, s, e) && IdleBefore(Step(s, e), QueueOf(t), [u, t], u)
      && Stalled(Step(s, e).tids[t])
  {
    hide QueueOf, CanSend, Quiet, Stalled, SchedTid;
    var q := QueueOf(t);
    var s1 := Process(s, q, OK, false, 0);
    assert s1.hw[q] == [] && s1.tids == s.tids && s1.tidq == s.tidq;
    var s2 := Dequeue(s1, q);
    QuietMark(s.tids[t], s2.tids[t]);
    QuietIff(s2, t, 0xFFFF);
    var r := Step(s, Complete(q, OK, false, 0, 0xFFFF));
    FlagsStalled(s, r, t);
  }

  /** After this run the queue is idle, u is listed and could send, and behind it stands t, which stalls. */
  lemma IdleAfterStall(k2: bool, n: nat, t: TidId, u: TidId)
    requires n >= 26 && t != u && QueueOf(t) == QueueOf(u)
    ensures var s := Attached(k2, n); var r := Run(s, StalledRun(t, u));
      && AllowedRun(false, s, StalledRun(t, u))
      && IdleBefore(r, QueueOf(t), [u, t], u) && Stalled(r.tids[t])
  {
    hide QueueOf, Run, AllowedRun, Attached, Step, Allowed, Good, StallRun, OneStalled, Waiting, Silent, IdleBefore;
    hide Stalled, Quiet;
    var s := Attached(k2, n);
    var a := StallRun(t, u);
    var b := [FrameIn(t), EnableAggr(u), FrameIn(u)];
    var c := [Complete(QueueOf(t), OK, false, 0, 0xFFFF)];
    StallReached(k2, n, t, u);
    var s1 := Run(s, a);
    StalledFrame(s1, t, u);
    OtherFrame(Step(s1, FrameIn(t)), t, u);
    RunThree(false, s1, FrameIn(t), EnableAggr(u), FrameIn(u));
    QueuedAllowed(s1, t, u);
    RunConcat(s, a, b);
    AllowedConcat(false, s, a, b);
    var s2 := Run(s, a + b);
    StalledCompletes(s2, t, u);
    RunOne(false, s2, c[0]);
    RunConcat(s, a + b, c);
    AllowedConcat(false, s, a + b, c);
  }

  lemma QueuedAllowed(s: Sc, t: TidId, u: TidId)
    requires t != u && Waiting(Step(s, FrameIn(t)), t, u, true)
    ensures Allowed(false, s, FrameIn(t)) && Allowed(false, Step(s, FrameIn(t)), EnableAggr(u))
    ensures Allowed(false, Step(Step(s, FrameIn(t)), EnableAggr(u)), FrameIn(u))
  {
    hide Step, QueueOf;
  }
}
