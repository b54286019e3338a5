/** Two runs from attachment on which the firmware fails: a buffer that is lost, and a session that stalls. */
module Failures {
  import opened Frames
  import opened Window
  import opened Softc
  import opened Session
  import opened Engine
  import opened Steps
  import opened Growth
  import opened Conservation
  import opened Runs
  import opened Teardown
  import opened Stall
  import Aggregate

  const OK: TxStat := TxStat(false, false, false, 0, [])

  function FrameIn(t: TidId): Event {
    Recv(t, true, 0, 100, KeyType.Clear)
  }

  lemma {:induction false} RunConcat(s: Sc, a: seq<Event>, b: seq<Event>)
    ensures Run(s, a + b) == Run(Run(s, a), b)
    decreases |a|
  {
    hide Step;
    if a == [] {
      assert a + b == b;
    } else {
      assert (a + b)[1..] == a[1..] + b;
      RunConcat(Step(s, a[0]), a[1..], b);
    }
  }

  lemma {:induction false} AllowedConcat(strict: bool, s: Sc, a: seq<Event>, b: seq<Event>)
    requires AllowedRun(strict, s, a) && AllowedRun(strict, Run(s, a), b)
    ensures AllowedRun(strict, s, a + b)
    decreases |a|
  {
    hide Step, Allowed;
    if a == [] {
      assert a + b == b;
    } else {
      assert (a + b)[1..] == a[1..] + b;
      AllowedConcat(strict, Step(s, a[0]), a[1..], b);
    }
  }

  lemma RunCons(strict: bool, s: Sc, e: Event, es: seq<Event>)
    ensures Run(s, [e] + es) == Run(Step(s, e), es)
    ensures AllowedRun(strict, s, [e] + es) <==> Allowed(strict, s, e) && AllowedRun(strict, Step(s, e), es)
  {
    hide Step, Allowed;
    assert ([e] + es)[1..] == es;
  }

  lemma RunNone(strict: bool, s: Sc)
    ensures Run(s, []) == s && AllowedRun(strict, s, [])
  {}

  lemma RunOne(strict: bool, s: Sc, e: Event)
    ensures Run(s, [e]) == Step(s, e) && (AllowedRun(strict, s, [e]) <==> Allowed(strict, s, e))
  {
    hide Step, Allowed;
    assert [e][1..] == [];
  }

  lemma RunTwo(strict: bool, s: Sc, e1: Event, e2: Event)
    ensures Run(s, [e1, e2]) == Step(Step(s, e1), e2)
    ensures AllowedRun(strict, s, [e1, e2]) <==> Allowed(strict, s, e1) && Allowed(strict, Step(s, e1), e2)
  {
    hide Step, Allowed, Run, AllowedRun;
    assert [e1, e2] == [e1] + ([e2] + []);
    RunCons(strict, s, e1, [e2] + []);
    RunCons(strict, Step(s, e1), e2, []);
    RunNone(strict, Step(Step(s, e1), e2));
  }

  lemma RunThree(strict: bool, s: Sc, e1: Event, e2: Event, e3: Event)
    ensures Run(s, [e1, e2, e3]) == Step(Step(Step(s, e1), e2), e3)
    ensures AllowedRun(strict, s, [e1, e2, e3])
            <==> Allowed(strict, s, e1) && Allowed(strict, Step(s, e1), e2)
                 && Allowed(strict, Step(Step(s, e1), e2), e3)
  {
    hide Step, Allowed, Run, AllowedRun;
    assert [e1, e2, e3] == [e1] + [e2, e3];
    RunCons(strict, s, e1, [e2, e3]);
    RunTwo(strict, Step(s, e1), e2, e3);
  }

  // ---------------------------------------------------------------------------------
  // A session that stalls

  predicate PlainFrame(c: Chain, t: TidId) {
    |c| == 1 && c[0].tid == t && c[0].comp == Normal
  }

  function FramesIn(t: TidId, k: nat): seq<Event> {
    if k == 0 then [] else [FrameIn(t)] + FramesIn(t, k - 1)
  }

  /** Aggregation is enabled, 25 frames are queued, and the session ends. */
  function SilentSession(t: TidId): seq<Event> {
    [EnableAggr(t)] + FramesIn(t, 25) + [DisableAggr(t, 0)]
  }

  /**
   A frame of u stays in hardware. Behind it three sessions of t queue 25 frames each, as the smallest pool of
   26 buffers allows, and end with nothing sent; then a fourth one starts.
   */
  function StallRun(t: TidId, u: TidId): seq<Event> {
    [FrameIn(u)] + SilentSession(t) + SilentSession(t) + SilentSession(t) + [EnableAggr(t)]
  }

  /** Identifier u after one frame sent outside aggregation. */
  predicate SentPlain(tid: Tid) {
    && !tid.aggr && !tid.paused && !tid.sched && !tid.cleanup && tid.incomp == 0 && tid.bufq == []
    && tid.seqNext == 1 && tid.win.seqStart == 1 && tid.win.head == tid.win.tail
  }

  /** What stays the same during those sessions: the frame of u, and t on its list once it had a frame. */
  predicate Waiting(s: Sc, t: TidId, u: TidId, sched: bool) {
    var q := QueueOf(t);
    && |s.hw[q]| == 1 && PlainFrame(s.hw[q][0], u) && SentPlain(s.tids[u])
    && s.tids[t].sched == sched && s.tidq[q] == if sched then [t] else []
  }

  /** A session of t with k frames queued and none sent, numbers from g on; or, k being 0, the time between sessions. */
  ghost predicate Silent(tid: Tid, aggr: bool, g: nat, k: nat) {
    && tid.aggr == aggr && !tid.paused && !tid.cleanup && tid.incomp == 0 && tid.win == Fresh()
    && tid.seqNext == g + k && |tid.bufq| == k && forall f :: f in tid.bufq ==> !f.isretried
  }

  /** With something in hardware already, a new frame of a session is queued. */
  lemma FrameQueued(s: Sc, t: TidId, u: TidId, g: nat, k: nat)
    requires t != u && Waiting(s, t, u, g + k > 0) && Silent(s.tids[t], true, g, k)
    requires s.free != [] && g + k + 1 < SEQ_MAX
    ensures var r := Step(s, FrameIn(t));
      Waiting(r, t, u, true) && Silent(r.tids[t], true, g, k + 1) && |r.free| == |s.free| - 1
  {
    hide QueueOf, PlainFrame;
  }

  lemma {:induction false} FramesQueued(s: Sc, t: TidId, u: TidId, g: nat, k: nat, m: nat)
    requires t != u && Waiting(s, t, u, g + k > 0) && Silent(s.tids[t], true, g, k)
    requires |s.free| >= m && g + k + m < SEQ_MAX
    ensures var r := Run(s, FramesIn(t, m));
      && AllowedRun(false, s, FramesIn(t, m))
      && Waiting(r, t, u, g + k + m > 0) && Silent(r.tids[t], true, g, k + m) && |r.free| == |s.free| - m
    decreases m
  {
    hide Step, QueueOf, Waiting, Silent;
    if m > 0 {
      FrameQueued(s, t, u, g, k);
      FramesQueued(Step(s, FrameIn(t)), t, u, g, k + 1, m - 1);
    }
  }

  lemma FlushFresh()
    ensures Flush(Fresh()) == (Fresh(), 0)
  {}

  /** The session ends: its frames are freed, their numbers are not given back. */
  lemma SessionEnds(s: Sc, t: TidId, u: TidId, g: nat, k: nat)
    requires t != u && QueueOf(u) == QueueOf(t) && Waiting(s, t, u, g + k > 0) && Silent(s.tids[t], true, g, k)
    ensures var r := Step(s, DisableAggr(t, 0));
      && Allowed(false, s, DisableAggr(t, 0))
      && Waiting(r, t, u, g + k > 0) && Silent(r.tids[t], false, g + k, 0) && |r.free| == |s.free| + k
  {
    hide QueueOf, Flush;
    var tid := s.tids[t].(aggr := false);
    var s0 := SetTid(s, t, tid);
    FreeAllKeepsTidq(s0, tid.bufq);
    FreeAllGrows(s0, tid.bufq);
    FlushRetriedFresh(Fresh(), tid.bufq);
    FlushFresh();
    hide FreeAll, FlushRetried;
    assert CleanupTid(tid) == tid.(bufq := [], paused := true);
  }

  lemma {:induction false} FreeAllGrows(s: Sc, q: seq<Frame>)
    ensures |FreeAll(s, q).free| == |s.free| + |q|
    decreases |q|
  {
    if q != [] { FreeAllGrows(FreeBuf(s, q[0]), q[1..]); }
  }

  lemma SessionStarts(s: Sc, t: TidId, u: TidId, g: nat)
    requires t != u && Waiting(s, t, u, g > 0) && Silent(s.tids[t], false, g, 0)
    ensures var r := Step(s, EnableAggr(t));
      && Allowed(false, s, EnableAggr(t))
      && Waiting(r, t, u, g > 0) && Silent(r.tids[t], true, g, 0) && r.free == s.free
  {
    hide QueueOf, PlainFrame;
  }

  /** One such session moves the next number on by 25. */
  lemma SilentRuns(s: Sc, t: TidId, u: TidId, g: nat)
    requires t != u && QueueOf(u) == QueueOf(t) && Waiting(s, t, u, g > 0) && Silent(s.tids[t], false, g, 0)
    requires |s.free| >= 25 && g + 25 < SEQ_MAX
    ensures var r := Run(s, SilentSession(t));
      && AllowedRun(false, s, SilentSession(t))
      && Waiting(r, t, u, true) && Silent(r.tids[t], false, g + 25, 0) && |r.free| == |s.free|
  {
    hide Run, AllowedRun, Step, Allowed, Waiting, Silent, QueueOf, FramesIn;
    var a, b, c := [EnableAggr(t)], FramesIn(t, 25), [DisableAggr(t, 0)];
    RunOne(false, s, EnableAggr(t));
    SessionStarts(s, t, u, g);
    FramesQueued(Run(s, a), t, u, g, 0, 25);
    RunConcat(s, a, b);
    AllowedConcat(false, s, a, b);
    RunOne(false, Run(s, a + b), DisableAggr(t, 0));
    SessionEnds(Run(s, a + b), t, u, g, 25);
    RunConcat(s, a + b, c);
    AllowedConcat(false, s, a + b, c);
  }

  lemma FirstPlain(k2: bool, n: nat, t: TidId, u: TidId)
    requires n >= 1 && t != u && QueueOf(u) == QueueOf(t)
    ensures var s := Attached(k2, n); var r := Step(s, FrameIn(u));
      && Allowed(false, s, FrameIn(u)) && Waiting(r, t, u, false) && Silent(r.tids[t], false, 0, 0) && |r.free| == n - 1
  {
    hide QueueOf;
    var s := Attached(k2, n);
    assert s.hw[QueueOf(t)] == [] && s.tidq[QueueOf(t)] == [];
  }

  lemma SilentStalls(tid: Tid)
    requires Silent(tid, true, 75, 0)
    ensures Stalled(tid) && Gap(tid) == 75
  {
    GapAtStart(tid);
  }

  /** Where the run ends. */
  ghost predicate StallsAt(s: Sc, t: TidId, u: TidId) {
    Stalled(s.tids[t]) && Waiting(s, t, u, true) && Silent(s.tids[t], true, 75, 0) && |s.free| >= 25
  }

  /** A stalled session is reached with any pool of 26 buffers or more, by a run every event of which is allowed. */
  lemma StallReached(k2: bool, n: nat, t: TidId, u: TidId)
    requires n >= 26 && t != u && QueueOf(u) == QueueOf(t)
    ensures var s := Attached(k2, n); var r := Run(s, StallRun(t, u));
      AllowedRun(false, s, StallRun(t, u)) && Good(false, r) && StallsAt(r, t, u)
  {
    hide Good, AllowedRun, Run, Attached, Stalled, QueueOf, SilentSession, Silent, Waiting, Step, Allowed;
    var s := Attached(k2, n);
    var a, b, c := [FrameIn(u)], SilentSession(t), [EnableAggr(t)];
    RunOne(false, s, FrameIn(u));
    FirstPlain(k2, n, t, u);
    SilentRuns(Run(s, a), t, u, 0);
    RunConcat(s, a, b);
    AllowedConcat(false, s, a, b);
    SilentRuns(Run(s, a + b), t, u, 25);
    RunConcat(s, a + b, b);
    AllowedConcat(false, s, a + b, b);
    SilentRuns(Run(s, a + b + b), t, u, 50);
    RunConcat(s, a + b + b, b);
    AllowedConcat(false, s, a + b + b, b);
    RunOne(false, Run(s, a + b + b + b), EnableAggr(t));
    SessionStarts(Run(s, a + b + b + b), t, u, 75);
    RunConcat(s, a + b + b + b, c);
    AllowedConcat(false, s, a + b + b + b, c);
    SilentStalls(Run(s, StallRun(t, u)).tids[t]);
    AttachedGood(false, k2, n);
    RunConserves(false, s, StallRun(t, u), Credit);
  }

  // ---------------------------------------------------------------------------------
  // A buffer that is lost

  /**
   Two identifiers share a hardware queue. A frame of each goes out; aggregation is enabled for t and two
   more of its frames are queued; when u's frame completes they leave as one aggregate, behind t's first
   frame; then the host ends the session and the queue completes.
   */
  function LossRun(t: TidId, u: TidId): seq<Event> {
    [FrameIn(u), FrameIn(t), EnableAggr(t)] + [FrameIn(t), FrameIn(t), Complete(QueueOf(t), OK, false, 0, 0xFFFF)]
    + [DisableAggr(t, 0), CompleteStopped(QueueOf(t), OK, false, 0), CompleteStopped(QueueOf(t), OK, false, 0)]
  }

  /** Aggregation enabled after one frame. */
  predicate Ready(tid: Tid) {
    tid.aggr && !tid.paused && !tid.cleanup && !tid.sched && tid.bufq == [] && tid.win.seqStart == 1 && tid.seqNext == 1
  }

  /** After the first three events: one plain frame of each in hardware, t ready to aggregate. */
  lemma LossStart(k2: bool, n: nat, t: TidId, u: TidId)
    requires n >= 4 && t != u && QueueOf(t) == QueueOf(u)
    ensures var s := Attached(k2, n);
            var q := QueueOf(t);
            var r := Run(s, [FrameIn(u), FrameIn(t), EnableAggr(t)]);
      && AllowedRun(true, s, [FrameIn(u), FrameIn(t), EnableAggr(t)])
      && |r.hw[q]| == 2 && PlainFrame(r.hw[q][0], u) && PlainFrame(r.hw[q][1], t)
      && |r.free| == n - 2 && r.tidq[q] == [] && !r.tids[u].cleanup
      && Ready(r.tids[t])
  {
    var s := Attached(k2, n);
    var q := QueueOf(t);
    hide QueueOf, Run, AllowedRun;
    RunThree(true, s, FrameIn(u), FrameIn(t), EnableAggr(t));
    assert s.hw[q] == [] && s.tidq[q] == [];
    var s1 := Step(s, FrameIn(u));
    assert |s1.hw[q]| == 1 && PlainFrame(s1.hw[q][0], u) && s1.tids[t] == FreshTid() && |s1.free| == n - 1;
    var s2 := Step(s1, FrameIn(t));
    assert |s2.hw[q]| == 2 && s2.hw[q][0] == s1.hw[q][0] && PlainFrame(s2.hw[q][1], t) && |s2.free| == n - 2;
  }

  /** Two frames of 100 octets inside the window. */
  predicate TwoQueued(tid: Tid, t: TidId) {
    && |tid.bufq| == 2 && tid.bufq[0].tid == t && tid.bufq[0].comp == Comp.Aggr
    && tid.aggr && !tid.paused && !tid.cleanup && tid.win.seqStart == 1
    && tid.bufq[0].seqno == 1 && tid.bufq[0].pktlen == 100 && tid.bufq[0].keytype == KeyType.Clear
    && tid.bufq[1].seqno == 2 && tid.bufq[1].pktlen == 100 && tid.bufq[1].keytype == KeyType.Clear
  }

  lemma BothChosen(s: Sc, t: TidId)
    requires TwoQueued(s.tids[t], t)
    ensures Chosen(s, t, 0xFFFF) == 2
  {
    var q := s.tids[t].bufq;
    Aggregate.FormLaid(1, q, 0xFFFF, s.k2);
    EndOfSecond(q);
    hide Aggregate.FormAggr, Aggregate.EndOf;
  }

  lemma EndOfSecond(q: seq<Frame>)
    requires |q| == 2 && q[0].pktlen == 100 && q[1].pktlen == 100
    requires q[0].keytype == KeyType.Clear && q[1].keytype == KeyType.Clear
    ensures Aggregate.EndOf(q, 1) < 0xFFFF
  {
    assert Aggregate.StartOf(q, 0) == 0;
  }

  /** Two more frames of t are queued. */
  lemma LossQueued(s: Sc, t: TidId, u: TidId)
    requires Ready(s.tids[t])
    requires s.hw[QueueOf(t)] != [] && |s.free| >= 2 && s.tidq[QueueOf(t)] == []
    ensures var r := Step(Step(s, FrameIn(t)), FrameIn(t));
      && r.hw == s.hw && r.tidq[QueueOf(t)] == [t] && TwoQueued(r.tids[t], t)
      && (u != t ==> r.tids[u] == s.tids[u])
  {
    hide QueueOf;
    var s1 := Step(s, FrameIn(t));
    assert s1.hw == s.hw && s1.tidq[QueueOf(t)] == [t] && |s1.tids[t].bufq| == 1 && |s1.free| == |s.free| - 1;
  }

  /** The first frame completes, and the two queued ones go out together. */
  lemma LossSent(s: Sc, t: TidId, u: TidId)
    requires TwoQueued(s.tids[t], t) && t != u && s.tidq[QueueOf(t)] == [t]
    requires |s.hw[QueueOf(t)]| == 2 && PlainFrame(s.hw[QueueOf(t)][0], u) && PlainFrame(s.hw[QueueOf(t)][1], t)
    requires !s.tids[u].cleanup
    ensures var r := Step(s, Complete(QueueOf(t), OK, false, 0, 0xFFFF));
            var h := r.hw[QueueOf(t)];
      |h| == 2 && PlainFrame(h[0], t) && h[1] == s.tids[t].bufq && r.tids[t].aggr
  {
    hide QueueOf, Chosen, AddFrames;
    var q := QueueOf(t);
    var s1 := Process(s, q, OK, false, 0);
    assert s1.hw[q] == s.hw[q][1..] && s1.tids == s.tids && s1.tidq == s.tidq;
    var s2 := Dequeue(s1, q);
    assert s2.tids[t].bufq == s.tids[t].bufq;
    BothChosen(s2, t);
    assert s.tids[t].bufq[..2] == s.tids[t].bufq;
  }

  /** The session ends with a count of two; the plain frame takes one off; the aggregate of two loses a buffer. */
  lemma LossEnd(s: Sc, t: TidId) returns (b: nat)
    requires Good(true, s) && s.tids[t].aggr
    requires var h := s.hw[QueueOf(t)]; |h| == 2 && PlainFrame(h[0], t) && |h[1]| == 2 && Mine(h[1], t)
    ensures var q := QueueOf(t);
            var c := CompleteStopped(q, OK, false, 0);
            var r := Step(Step(Step(s, DisableAggr(t, 0)), c), c);
      Own(r, Buffer(b)) < Own(s, Buffer(b))
  {
    hide Good, Own, QueueOf, Disable, Process, Out, CleanupTid, Shape, HeadShape, InHardware;
    var q := QueueOf(t);
    GoodShape(true, s);
    TwoHeld(s.hw[q], t);
    var s1 := Disable(s, t, 0);
    DisableStarts(true, s, t, 0);
    DisableGrew(s, t, 0);
    GrewShape(s, s1);
    var s2 := Process(s1, q, OK, false, 0);
    OutStep(s1, q, OK, false, 0, t);
    NextEntry(s1, q, OK, false, 0, s1.hw[q]);
    assert s2.hw[q][0] == s1.hw[q][1];
    b := EntryLoses(s2, q, OK, false, 0);
    ShapeHead(s1, q);
    ProcessSpends(s1, q, OK, false, 0, Buffer(b));
    OwnDisable(s, t, 0, Buffer(b));
  }

  lemma TwoHeld(h: seq<Chain>, t: TidId)
    requires |h| == 2 && PlainFrame(h[0], t) && |h[1]| == 2 && Mine(h[1], t)
    ensures |InHardware(h, t)| == 2
  {
    HeadCount(h, t);
    HeadCount(h[1..], t);
    NothingInHardware(h[1..][1..], t);
  }

  lemma AsSent(tid: Tid, h: seq<Chain>, t: TidId)
    requires TwoQueued(tid, t) && |h| == 2 && h[1] == tid.bufq
    ensures |h[1]| == 2 && Mine(h[1], t)
  {}

  lemma PlainIs(c: Chain, t: TidId)
    requires PlainFrame(c, t)
    ensures c[0].comp == Normal
  {}

  /** None of the three events is restricted here. */
  lemma LossAllowed(s: Sc, t: TidId, s2: Sc)
    requires |s2.hw[QueueOf(t)]| > 0 && s2.hw[QueueOf(t)][0][0].comp == Normal
    ensures Allowed(true, s, FrameIn(t)) && Allowed(true, Step(s, FrameIn(t)), FrameIn(t))
    ensures Allowed(true, s2, Complete(QueueOf(t), OK, false, 0, 0xFFFF))
  {
    hide QueueOf, Step;
  }

  /** The run loses a buffer: at its end one of the n + 1 is in no place at all. */
  lemma BufferLost(k2: bool, n: nat, t: TidId, u: TidId)
    requires n >= 4 && t != u && QueueOf(t) == QueueOf(u)
    ensures exists b: nat :: b <= n && Own(Run(Attached(k2, n), LossRun(t, u)), Buffer(b)) == 0
  {
    hide Good, Own, QueueOf, Run, AllowedRun, Attached, Step, TwoQueued, Ready, PlainFrame, Mine, Allowed;
    var s := Attached(k2, n);
    var q := QueueOf(t);
    var c := Complete(q, OK, false, 0, 0xFFFF);
    var x := [FrameIn(u), FrameIn(t), EnableAggr(t)];
    var y := [FrameIn(t), FrameIn(t), c];
    var z := [DisableAggr(t, 0), CompleteStopped(q, OK, false, 0), CompleteStopped(q, OK, false, 0)];
    LossStart(k2, n, t, u);
    var s1 := Run(s, x);
    LossQueued(s1, t, u);
    var s2 := Step(Step(s1, FrameIn(t)), FrameIn(t));
    LossSent(s2, t, u);
    var s3 := Step(s2, c);
    RunThree(true, s1, FrameIn(t), FrameIn(t), c);
    PlainIs(s2.hw[q][0], u);
    LossAllowed(s1, t, s2);
    RunConcat(s, x, y);
    AllowedConcat(true, s, x, y);
    AttachedGood(true, k2, n);
    RunConserves(true, s, x + y, Credit);
    AsSent(s2.tids[t], s3.hw[q], t);
    var b := LossEnd(s3, t);
    BuffersConserved(true, k2, n, x + y, b, 0);
    RunConcat(s, x + y, z);
    RunThree(true, s3, DisableAggr(t, 0), CompleteStopped(q, OK, false, 0), CompleteStopped(q, OK, false, 0));
  }
}
