/**
 Numbers lost by teardown, and the session that can send nothing because of them. A teardown throws
 new frames away but keeps their numbers, so the next number drifts away from the window.
 */
module Stall {
  import opened Frames
  import opened Window
  import opened Softc
  import opened Session
  import opened Engine
  import opened Steps
  import opened Runs
  import opened Bystander
  import Aggregate
  import Scheduling

  function FreshCount(q: seq<Frame>): nat {
    if q == [] then 0 else (if q[0].isretried then 0 else 1) + FreshCount(q[1..])
  }

  lemma {:induction false} FreshSpan(q: seq<Frame>, next: nat)
    requires QueueOk(q, next)
    ensures NextFresh(q, next) == Before(next, FreshCount(q)) && FreshCount(q) <= |q|
    ensures q != [] && !q[0].isretried ==> FreshCount(q) == |q|
  {
    hide RetriedDistinct;
    if q == [] {
      BeforeFacts(next, 1);
    } else {
      QueueDrop(q, next);
      FreshSpan(q[1..], next);
      if !q[0].isretried && |q| > 1 {
        assert !q[1].isretried;
      }
    }
  }

  /** Distance from the end of the window to the first number never sent: the numbers no frame will carry. */
  function Gap(tid: Tid): nat {
    Offset(SeqAt(tid.win.seqStart, Width(tid.win)), NextFresh(tid.bufq, tid.seqNext))
  }

  lemma GapArithmetic(start: nat, first: nat, next: nat, k: nat)
    requires start < SEQ_MAX && next < SEQ_MAX && first == Before(next, k)
    ensures Offset(start, next) == (Offset(start, first) + k) % SEQ_MAX
  {}

  /**
   Teardown throws the queued new frames away but keeps their numbers: the gap grows by their count.
   Only ath_tgt_tid_drain closes it.
   */
  lemma TeardownGap(tid: Tid, m: Numbers)
    requires TidInv(false, tid, m) && tid.aggr
    ensures Gap(CleanupTid(tid)) == (Gap(tid) + FreshCount(tid.bufq)) % SEQ_MAX
    ensures Gap(DrainTid(tid)) == 0
  {
    hide *;
    FreshSmall(tid, m);
    CleanupGap(tid, m);
    FreshSpan(tid.bufq, tid.seqNext);
    DrainGap(tid);
    GapArithmetic(SeqAt(tid.win.seqStart, Width(tid.win)), NextFresh(tid.bufq, tid.seqNext), tid.seqNext,
                  FreshCount(tid.bufq));
    GapUnfold(tid);
  }

  lemma FreshSmall(tid: Tid, m: Numbers)
    requires TidInv(false, tid, m) && tid.aggr
    ensures tid.seqNext < SEQ_MAX && QueueOk(tid.bufq, tid.seqNext)
    ensures SeqAt(tid.win.seqStart, Width(tid.win)) < SEQ_MAX
  {
    hide Represents, QueueOk;
  }

  lemma GapUnfold(tid: Tid)
    ensures Gap(tid) == Offset(SeqAt(tid.win.seqStart, Width(tid.win)), NextFresh(tid.bufq, tid.seqNext))
  {}

  lemma CleanupGap(tid: Tid, m: Numbers)
    requires TidInv(false, tid, m) && tid.aggr
    ensures Gap(CleanupTid(tid)) == Offset(SeqAt(tid.win.seqStart, Width(tid.win)), tid.seqNext)
  {
    hide Represents, QueueOk, FlushRetried, Flush;
    CleanupCounts(false, tid, Elems(m));
    FlushEnds(tid, Elems(m));
    assert SeqAt(CleanupTid(tid).win.seqStart, 0) == CleanupTid(tid).win.seqStart;
  }

  lemma DrainGap(tid: Tid)
    ensures Gap(DrainTid(tid)) == 0
  {
    assert Width(DrainTid(tid).win) == 0;
  }

  /** Resolving a queue of retried frames moves the start but not the end of the window. */
  lemma {:induction false} FlushRetriedKeepsEnd(w: Window, q: seq<Frame>, next: nat, held: set<nat>)
    requires QueueOk(q, next) && RetriedSeqs(q) !! held && Represents(false, w, RetriedSeqs(q) + held)
    ensures var v := FlushRetried(w, q); SeqAt(v.seqStart, Width(v)) == SeqAt(w.seqStart, Width(w))
    decreases |q|
  {
    hide Represents, RetriedSeqs, Resolve, QueueOk, SlidTo;
    if q != [] {
      RetriedSeqsFirst(q);
      QueueDrop(q, next);
      if q[0].isretried {
        var x := q[0].seqno;
        var k := ResolveRepresents(false, w, RetriedSeqs(q) + held, x);
        SlidKeepsEnd(w, Resolve(w, x), RetriedSeqs(q) + held - {x}, k);
        assert RetriedSeqs(q) + held - {x} == RetriedSeqs(q[1..]) + held;
        FlushRetriedKeepsEnd(Resolve(w, x), q[1..], next, held);
      } else {
        assert RetriedSeqs(q) == RetriedSeqs(q[1..]);
        FlushRetriedKeepsEnd(w, q[1..], next, held);
      }
    }
  }

  lemma SlidKeepsEnd(w: Window, v: Window, unresolved: set<nat>, k: nat)
    requires SlidTo(false, w, v, unresolved, k)
    ensures SeqAt(v.seqStart, Width(v)) == SeqAt(w.seqStart, Width(w))
  {
    SeqAtAdd(w.seqStart, k, Width(v));
  }

  lemma FlushEnds(tid: Tid, held: set<nat>)
    requires InSession(false, tid.win, tid.bufq, tid.seqNext, held)
    ensures CleanupTid(tid).win.seqStart == SeqAt(tid.win.seqStart, Width(tid.win))
  {
    hide Represents, QueueOk, FlushRetried, Flush, RetriedSeqs;
    FlushRetriedLeaves(false, tid.win, tid.bufq, tid.seqNext, held);
    FlushRetriedKeepsEnd(tid.win, tid.bufq, tid.seqNext, held);
    FlushCounts(false, FlushRetried(tid.win, tid.bufq), held);
  }

  // ---------------------------------------------------------------------------------
  // A stalled session

  /** In a session with an empty window, a scheduling decision takes nothing exactly when the gap is 64 or more. */
  lemma NothingChosenIff(s: Sc, t: TidId, limit: nat)
    requires Width(s.tids[t].win) == 0 && s.tids[t].bufq != [] && !s.tids[t].bufq[0].isretried
    ensures Chosen(s, t, limit) == 0 <==> Gap(s.tids[t]) >= WME_MAX_BA
  {
    hide Aggregate.FormAggr, Aggregate.WellLaid, U16;
    var tid := s.tids[t];
    assert SeqAt(tid.win.seqStart, 0) == tid.win.seqStart;
    U16Small(limit);
    Aggregate.FormLaid(tid.win.seqStart, tid.bufq, U16(limit), s.k2);
  }

  predicate Stalled(tid: Tid) {
    tid.aggr && Width(tid.win) == 0 && Gap(tid) >= WME_MAX_BA
  }

  lemma GapAtStart(tid: Tid)
    requires Width(tid.win) == 0
    ensures Gap(tid) == Offset(tid.win.seqStart, NextFresh(tid.bufq, tid.seqNext))
  {
    assert SeqAt(tid.win.seqStart, 0) == tid.win.seqStart;
  }

  /** A stalled session has nothing in hardware and nothing waiting for a retry, and no decision takes a frame. */
  lemma StalledFacts(strict: bool, s: Sc, t: TidId)
    requires Good(strict, s) && Stalled(s.tids[t])
    ensures Held(s, t) == multiset{} && Quiet(s.tids[t]) && !s.tids[t].cleanup
    ensures s.tids[t].bufq != [] ==> !s.tids[t].bufq[0].isretried
  {
    hide Good, InHardware, QueueOf, NormalsOk, QueuedOk, QueueOk, View;
    var tid := s.tids[t];
    GoodLook(strict, s, t);
    GapAtStart(tid);
    NoMembers(strict, tid, Held(s, t));
  }

  lemma NoMembers(strict: bool, tid: Tid, m: Numbers)
    requires TidInv(strict, tid, m) && tid.aggr && Width(tid.win) == 0
    ensures m == multiset{} && (tid.bufq != [] ==> !tid.bufq[0].isretried)
  {
    hide QueueOk, View;
    assert RetriedSeqs(tid.bufq) + Elems(m) == {};
    assert forall x :: x in m ==> x in RetriedSeqs(tid.bufq) + Elems(m);
    assert forall f :: f in tid.bufq && f.isretried ==> f.seqno in RetriedSeqs(tid.bufq) + Elems(m);
    assert tid.bufq != [] ==> tid.bufq[0] in tid.bufq;
  }

  /** A gap lasts only while nothing of the session is sent: with a member in the window there is none. */
  lemma SendingClosesGap(tid: Tid, m: Numbers)
    requires TidInv(false, tid, m) && tid.aggr && Width(tid.win) > 0
    ensures Gap(tid) == 0
  {
    hide QueueOk, View;
    GapFrom(tid.win.seqStart, NextFresh(tid.bufq, tid.seqNext), Width(tid.win));
  }

  lemma GapFrom(start: nat, x: nat, width: nat)
    requires start < SEQ_MAX && Offset(start, x) == width
    ensures Offset(SeqAt(start, width), x) == 0
  {}

  /** The events that end a session of t, or restart its numbers. */
  predicate Ends(s: Sc, e: Event, t: TidId) {
    match e
    case DisableAggr(u, _) => u == t
    case DrainTids(q) => q == QueueOf(t)
    case Complete(q, st, _, _, _) => s.hw[q] != [] && s.hw[q][0][0].comp == Bar && s.hw[q][0][0].tid == t && st.xretry
    case CompleteStopped(q, st, _, _) =>
      s.hw[q] != [] && s.hw[q][0][0].comp == Bar && s.hw[q][0][0].tid == t && st.xretry
    case _ => false
  }

  /** Only the flags of t change. */
  predicate FlagsOnly(s: Sc, r: Sc, t: TidId) {
    r.tids[t] == s.tids[t].(paused := r.tids[t].paused, sched := r.tids[t].sched)
  }

  lemma ProcessStalled(s: Sc, q: Ac, st: TxStat, linked: bool, limit: nat, t: TidId)
    requires s.hw[q] != [] && Quiet(s.tids[t]) && !s.tids[t].cleanup
    requires !Mine(s.hw[q][0], t)
    requires var f := s.hw[q][0][0]; !(f.comp == Bar && f.tid == t && st.xretry)
    ensures FlagsOnly(s, Process(s, q, st, linked, limit), t)
  {
    hide TidCleanup, CompCleanup, CompAggr, CompUnaggr, Resume, Disable, Drain, QueueOf, Quiet;
    var c := s.hw[q][0];
    var v := c[0].tid;
    var s1 := Pop(s, q);
    match c[0].comp
    case Normal => if v != t { TidCleanupAside(s1, v, limit, t); }
    case Bar =>
      ResumeAside(s1, v, limit, t);
      if v != t { CompBarAside(s1, v, c[0], st, linked, limit, t); }
    case Aggr =>
      CompCleanupAside(s1, v, c, limit, t);
      CompUnaggrAside(s1, v, c[0], st, linked, t);
      CompAggrAside(s1, v, c, st, t);
  }

  lemma HeadNotMine(s: Sc, q: Ac, t: TidId)
    requires Shape(s) && s.hw[q] != [] && Held(s, t) == multiset{}
    ensures !Mine(s.hw[q][0], t)
  {
    var c := s.hw[q][0];
    assert ChainOk(c, q);
    assert c[0].seqno in SeqNumbers(c);
  }

  lemma ReceiveStalled(s: Sc, t: TidId, known: bool, skb: nat, pktlen: nat, key: KeyType)
    requires Stalled(s.tids[t]) && s.tids[t].seqNext < SEQ_MAX
    ensures Stalled(Receive(s, t, known, skb, pktlen, key).tids[t])
  {
    hide Enqueue, QueueOf, NextSeq, Width, AddFrame, NextFresh;
    if known && s.free != [] {
      var tid := s.tids[t];
      GapAtStart(tid);
      var (s1, f) := Prepared(s, t, skb, pktlen, key);
      NextFreshAppend(tid.bufq, tid.seqNext, f);
      FreshOfNone(tid.seqNext);
      var tid' := s1.tids[t].(bufq := tid.bufq + [f]);
      GapAtStart(tid');
      EnqueueKeeps(SetTid(s1, t, tid'), QueueOf(t), t);
      GapAtStart(tid'.(sched := true));
    }
  }

  lemma FreshOfNone(next: nat)
    ensures NextFresh([], next) == next
  {}

  lemma EnqueueKeeps(s: Sc, q: Ac, t: TidId)
    ensures Enqueue(s, q, t).tids[t] == s.tids[t].(sched := Enqueue(s, q, t).tids[t].sched)
  {}

  lemma ReceiveAside(s: Sc, v: TidId, known: bool, skb: nat, pktlen: nat, key: KeyType, t: TidId)
    requires v != t
    ensures Receive(s, v, known, skb, pktlen, key).tids[t] == s.tids[t]
  {
    hide NextSeq, AddFrame, QueueOf, Within;
  }

  lemma {:induction false} DrainAside(s: Sc, q: Ac, t: TidId)
    requires Homed(s, q) && QueueOf(t) != q
    ensures DrainScheduled(s, q).tids[t] == s.tids[t]
    decreases |s.tidq[q]|
  {
    hide FreeAll, DrainTid, QueueOf;
    if s.tidq[q] != [] {
      FreeAllKeepsTidq(Dequeue(s, q), Dequeue(s, q).tids[s.tidq[q][0]].bufq);
      DrainAside(DrainFirst(s, q), q, t);
    }
  }

  lemma FlagsStalled(s: Sc, r: Sc, t: TidId)
    requires FlagsOnly(s, r, t)
    ensures Stalled(r.tids[t]) == Stalled(s.tids[t]) && Quiet(r.tids[t]) == Quiet(s.tids[t])
  {}

  /** Every other event leaves a stalled session stalled. */
  lemma StepStalled(strict: bool, s: Sc, e: Event, t: TidId)
    requires Good(strict, s) && Stalled(s.tids[t]) && !Ends(s, e, t)
    ensures Stalled(Step(s, e).tids[t])
  {
    hide Good, Stalled, Quiet, Process, Schedule, Receive, Disable, DrainScheduled, Held, QueueOf, Shape;
    StalledFacts(strict, s, t);
    GoodShape(strict, s);
    match e
    case Recv(v, known, skb, pktlen, key) =>
      if v == t {
        NextIsSmall(strict, s, t);
        ReceiveStalled(s, t, known, skb, pktlen, key);
      } else {
        ReceiveAside(s, v, known, skb, pktlen, key, t);
      }
    case Complete(q, st, linked, limit, next) =>
      if s.hw[q] != [] {
        var s1 := Process(s, q, st, linked, limit);
        HeadNotMine(s, q, t);
        ProcessStalled(s, q, st, linked, limit, t);
        FlagsStalled(s, s1, t);
        ScheduleAside(s1, q, next, t);
        FlagsStalled(s1, Schedule(s1, q, next), t);
      }
    case CompleteStopped(q, st, linked, limit) =>
      if s.hw[q] != [] {
        HeadNotMine(s, q, t);
        ProcessStalled(s, q, st, linked, limit, t);
        FlagsStalled(s, Process(s, q, st, linked, limit), t);
      }
    case EnableAggr(v) => StalledAggr(s.tids[t]);
    case DisableAggr(v, limit) =>
      DisableAside(s, v, limit, t);
      if s.tids[v].aggr { FlagsStalled(s, Disable(s, v, limit), t); }
    case DrainTids(q) =>
      GoodHomed(strict, s, q);
      DrainAside(s, q, t);
  }

  lemma StalledAggr(tid: Tid)
    requires Stalled(tid)
    ensures tid.(aggr := true) == tid
  {}

  lemma NextIsSmall(strict: bool, s: Sc, t: TidId)
    requires Good(strict, s)
    ensures s.tids[t].seqNext < SEQ_MAX
  {
    hide Good, Held, QueuedOk, NormalsOk, InSession;
    GoodLook(strict, s, t);
  }

  lemma GoodHomed(strict: bool, s: Sc, q: Ac)
    requires Good(strict, s)
    ensures Homed(s, q)
  {
    hide Inv, QueueOf, Scheduling.Served;
  }

  /** No event of the run ends the session of t. */
  predicate GoesOn(s: Sc, es: seq<Event>, t: TidId)
    decreases |es|
  {
    es == [] || (!Ends(s, es[0], t) && GoesOn(Step(s, es[0]), es[1..], t))
  }

  /**
   A session with an empty window and a gap of 64 or more stays so over every run that does not end it:
   however many frames come, nothing of it is ever in hardware.
   */
  lemma {:induction false} WideGapSendsNothing(strict: bool, s: Sc, es: seq<Event>, t: TidId)
    requires Good(strict, s) && Stalled(s.tids[t]) && AllowedRun(strict, s, es) && GoesOn(s, es, t)
    ensures Stalled(Run(s, es).tids[t]) && Held(Run(s, es), t) == multiset{}
    decreases |es|
  {
    hide Good, Stalled, Step, Allowed, Held, Ends;
    if es == [] {
      StalledFacts(strict, s, t);
    } else {
      StepStalled(strict, s, es[0], t);
      StepKeepsInv(strict, s, es[0]);
      WideGapSendsNothing(strict, Step(s, es[0]), es[1..], t);
    }
  }
}
