/**
 When a hardware queue stands idle although somebody on its list could send. A scheduling call serves one
 identifier and then stops, so it is wasted on one with nothing to send, or with nothing it may send. Nothing
 completes on an idle queue, so only a frame sent at once sets it going again.
 */
module Idle {
  import opened Frames
  import opened Window
  import opened Softc
  import opened Session
  import opened Engine
  import opened Steps
  import opened Growth
  import opened Scheduling
  import opened Turns
  import opened Runs
  import opened Bystander
  import opened Stall
  import opened Queues
  import Aggregate

  /** A scheduling decision would take a frame of it. */
  predicate CanSend(tid: Tid) {
    !tid.paused && !Quiet(tid)
  }

  /** Hardware has work for queue q, or nobody of q could send. */
  ghost predicate Working(s: Sc, q: Ac) {
    s.hw[q] != [] || forall u: TidId :: QueueOf(u) == q ==> !CanSend(s.tids[u])
  }

  /** A decision for t puts an entry into hardware exactly when t is not quiet. */
  lemma QuietIff(s: Sc, t: TidId, limit: nat)
    ensures Quiet(s.tids[t]) ==> SchedTid(s, t, limit) == s
    ensures !Quiet(s.tids[t]) ==> SchedTid(s, t, limit).hw[QueueOf(t)] != []
  {
    hide Aggregate.FormAggr, Aggregate.WellLaid, U16, AddFrames, QueueOf;
    if Quiet(s.tids[t]) {
      QuietChosen(s, t, limit);
    } else {
      U16Small(limit);
      Aggregate.FormLaid(s.tids[t].win.seqStart, s.tids[t].bufq, U16(limit), s.k2);
    }
  }

  // ---------------------------------------------------------------------------------
  // One scheduling call

  /** The first identifier of list l that is not paused is quiet. */
  predicate FirstQuiet(s: Sc, l: seq<TidId>) {
    l != [] && if s.tids[l[0]].paused then FirstQuiet(s, l[1..]) else Quiet(s.tids[l[0]])
  }

  /** A scheduling call on queue q is wasted. */
  predicate Wastes(s: Sc, q: Ac) {
    FirstQuiet(s, s.tidq[q])
  }

  /** Only marks and lists differ. */
  ghost predicate SameButMarks(s: Sc, r: Sc) {
    r.hw == s.hw && forall u: TidId :: r.tids[u] == s.tids[u].(sched := r.tids[u].sched)
  }

  lemma WorkingButMarks(s: Sc, r: Sc, q: Ac)
    requires SameButMarks(s, r)
    ensures Working(r, q) <==> Working(s, q)
  {
    hide QueueOf;
    forall u: TidId ensures CanSend(r.tids[u]) <==> CanSend(s.tids[u]) {}
  }

  /** Nobody on the list is unpaused: nobody of the queue could send. */
  lemma AllPaused(s: Sc, q: Ac)
    requires AllServed(s) && forall i :: 0 <= i < |s.tidq[q]| ==> s.tids[s.tidq[q][i]].paused
    ensures Working(s, q)
  {
    hide QueueOf, HasBar;
    forall u: TidId | QueueOf(u) == q ensures !CanSend(s.tids[u]) {
      assert Served(s, u);
      if s.tids[u].sched { var i :| 0 <= i < |s.tidq[q]| && s.tidq[q][i] == u; }
    }
  }

  /**
   After a scheduling call the queue works, unless it did not before and the call was wasted: on the first
   identifier of the list that is not paused, which is quiet.
   */
  lemma {:induction false} ScheduleWorksIff(s: Sc, q: Ac, limit: nat)
    requires AllServed(s)
    ensures Working(Schedule(s, q, limit), q) <==> Working(s, q) || !Wastes(s, q)
    decreases |s.tidq[q]|
  {
    hide SchedTid, Enqueue, QueueOf, AllServed, Working, Quiet;
    var l := s.tidq[q];
    if l == [] {
      AllPaused(s, q);
    } else {
      var t := l[0];
      var s1 := Dequeue(s, q);
      WorkingButMarks(s, s1, q);
      FirstQuietMarks(s, s1, l[1..]);
      if s.tids[t].paused {
        DequeueLists(s, q);
        Finish(s1, t);
        ScheduleWorksIff(s1, q, limit);
      } else {
        QuietMark(s.tids[t], s1.tids[t]);
        Scheduling.HeadQueue(s, q);
        ServedWorks(s1, q, t, limit);
      }
    }
  }

  lemma {:induction false} FirstQuietMarks(s: Sc, r: Sc, l: seq<TidId>)
    requires SameButMarks(s, r)
    ensures FirstQuiet(r, l) <==> FirstQuiet(s, l)
  {
    hide Quiet, SameButMarks;
    if l != [] {
      MarkedOnly(s, r, l[0]);
      QuietMark(s.tids[l[0]], r.tids[l[0]]);
      FirstQuietMarks(s, r, l[1..]);
    }
  }

  lemma MarkedOnly(s: Sc, r: Sc, u: TidId)
    requires SameButMarks(s, r)
    ensures r.tids[u] == s.tids[u].(sched := r.tids[u].sched)
  {}

  lemma QuietMark(a: Tid, b: Tid)
    requires b == a.(sched := b.sched)
    ensures Quiet(b) <==> Quiet(a)
  {}

  lemma ServedWorks(s: Sc, q: Ac, t: TidId, limit: nat)
    requires QueueOf(t) == q && !s.tids[t].paused
    ensures Working(Requeue(SchedTid(s, t, limit), q, t), q) <==> Working(s, q) || !Quiet(s.tids[t])
  {
    hide SchedTid, QueueOf, Quiet;
    QuietIff(s, t, limit);
    var s1 := SchedTid(s, t, limit);
    if Quiet(s.tids[t]) {
      WorkingButMarks(s, Requeue(s, q, t), q);
    }
  }
  /**
   With nothing in its hardware queue, an identifier is quiet exactly when its queue is empty or its session
   stalls: for as long as a member is in the window, a frame waits for a retry, and it may be sent.
   */
  lemma QuietWhen(s: Sc, t: TidId)
    requires Good(true, s) && s.hw[QueueOf(t)] == []
    ensures Quiet(s.tids[t]) <==> s.tids[t].bufq == [] || Stalled(s.tids[t])
  {
    hide Good, QueueOf, NormalsOk, TidInv, Gap, Quiet;
    GoodLook(true, s, t);
    assert Held(s, t) == multiset{};
    if Stalled(s.tids[t]) { StalledFacts(true, s, t); }
    if s.tids[t].bufq == [] { EmptyQuiet(s.tids[t]); } else { QuietStalls(s.tids[t]); }
  }

  lemma EmptyQuiet(tid: Tid)
    requires tid.bufq == []
    ensures Quiet(tid)
  {}

  lemma QuietStalls(tid: Tid)
    requires TidInv(true, tid, multiset{}) && tid.bufq != []
    ensures Quiet(tid) ==> Stalled(tid)
  {
    hide View, FreshInOrder, Clean;
    var f := tid.bufq[0];
    if Width(tid.win) > 0 {
      assert Elems(multiset{}) == {};
      var x :| x in RetriedSeqs(tid.bufq) + Elems(multiset{});
      var g :| g in tid.bufq && g.isretried && g.seqno == x;
      assert f.isretried;
      assert f in tid.bufq && f.seqno in RetriedSeqs(tid.bufq) + Elems(multiset{});
    } else {
      NoMembers(true, tid, multiset{});
      GapAtStart(tid);
    }
  }

  /** The first identifier of list l that is not paused has an empty queue, or its session stalls. */
  predicate FirstUseless(s: Sc, l: seq<TidId>) {
    l != [] && var tid := s.tids[l[0]];
               if tid.paused then FirstUseless(s, l[1..]) else tid.bufq == [] || Stalled(tid)
  }

  /** Whom a scheduling call on an idle queue is wasted on. */
  lemma {:induction false} WastedOn(s: Sc, q: Ac, l: seq<TidId>)
    requires Good(true, s) && s.hw[q] == [] && forall t :: t in l ==> QueueOf(t) == q
    ensures FirstQuiet(s, l) <==> FirstUseless(s, l)
  {
    hide Good, QueueOf, Quiet, Stalled;
    if l != [] {
      WastedOn(s, q, l[1..]);
      QuietWhen(s, l[0]);
    }
  }

  // ---------------------------------------------------------------------------------
  // Events

  /** A frame for t goes into its hardware queue at once, that queue being empty. */
  predicate SentAtOnce(s: Sc, t: TidId, known: bool) {
    var tid := s.tids[t];
    known && s.free != [] && (!tid.aggr || (tid.bufq == [] && !tid.paused && Within(tid.win, tid.seqNext)))
  }

  lemma ReceiveIdle(s: Sc, t: TidId, known: bool, skb: nat, pktlen: nat, key: KeyType)
    requires s.hw[QueueOf(t)] == []
    ensures var r := Receive(s, t, known, skb, pktlen, key); var q := QueueOf(t);
      && (r.hw[q] != [] <==> SentAtOnce(s, t, known))
      && (forall u: TidId :: u != t ==> r.tids[u] == s.tids[u])
      && (CanSend(s.tids[t]) ==> CanSend(r.tids[t]))
      && (!SentAtOnce(s, t, known) ==> (CanSend(r.tids[t]) <==> CanSend(s.tids[t])))
  {
    hide QueueOf, AddFrame, NextSeq, Offset;
  }

  lemma ReceiveWorks(s: Sc, t: TidId, known: bool, skb: nat, pktlen: nat, key: KeyType)
    requires Shape(s) && Working(s, QueueOf(t))
    ensures Working(Receive(s, t, known, skb, pktlen, key), QueueOf(t))
  {
    hide QueueOf, Receive, CanSend, Shape;
    if s.hw[QueueOf(t)] == [] {
      ReceiveIdle(s, t, known, skb, pktlen, key);
    } else {
      ReceiveGrew(s, t, known, skb, pktlen, key);
    }
  }

  /** What can leave queue q idle while somebody could send: a wasted call after a completion, or a stop. */
  predicate Cause(s: Sc, e: Event, q: Ac) {
    s.hw[q] != []
    && match e
       case Complete(p, st, linked, limit, _) =>
         p == q && var x := Process(s, p, st, linked, limit); x.hw[q] == [] && Wastes(x, q)
       case CompleteStopped(p, _, _, _) => p == q
       case _ => false
  }

  /** In strict runs a call is wasted only on an identifier that has an empty queue, or whose session stalls. */
  lemma StrictCause(s: Sc, q: Ac, st: TxStat, linked: bool, limit: nat, next: nat)
    requires Good(true, s) && s.hw[q] != [] && Allowed(true, s, CompleteStopped(q, st, linked, limit))
    ensures var x := Process(s, q, st, linked, limit);
      Cause(s, Complete(q, st, linked, limit, next), q) <==> x.hw[q] == [] && FirstUseless(x, x.tidq[q])
  {
    hide Good, Allowed, Process, FirstQuiet, FirstUseless, QueueOf;
    var x := Process(s, q, st, linked, limit);
    StepKeepsInv(true, s, CompleteStopped(q, st, linked, limit));
    if x.hw[q] == [] {
      GoodHomed(true, x, q);
      WastedOn(x, q, x.tidq[q]);
    }
  }

  lemma ElsewhereWorks(s: Sc, r: Sc, p: Ac, q: Ac)
    requires Elsewhere(s, r, p) && p != q
    ensures Working(r, q) <==> Working(s, q)
  {
    hide QueueOf, CanSend;
    forall u: TidId | QueueOf(u) == q ensures r.tids[u] == s.tids[u] {}
  }

  /** Every other event, and every other scheduling call, keeps the queue working. */
  lemma StepWorks(strict: bool, s: Sc, e: Event, q: Ac)
    requires Good(strict, s) && Allowed(strict, s, e) && Working(s, q) && !Cause(s, e, q)
    ensures Working(Step(s, e), q)
  {
    hide Good, Working, Process, Schedule, Receive, Disable, DrainScheduled, QueueOf, Shape, AllServed, Wastes;
    hide Elsewhere;
    GoodShape(strict, s);
    GoodServed(strict, s);
    if QueueOfEvent(e) != q {
      StepElsewhere(s, e);
      ElsewhereWorks(s, Step(s, e), QueueOfEvent(e), q);
    } else {
      match e
      case Recv(t, known, skb, pktlen, key) => ReceiveWorks(s, t, known, skb, pktlen, key);
      case Complete(p, st, linked, limit, next) =>
        if s.hw[p] != [] {
          var x := Process(s, p, st, linked, limit);
          ProcessServes(s, p, st, linked, limit);
          BusyWorks(x, q);
          ScheduleWorksIff(x, q, next);
        }
      case CompleteStopped(_, _, _, _) =>
      case EnableAggr(t) => EnableWorks(strict, s, t);
      case DisableAggr(t, limit) => DisableWorks(s, t, limit);
      case DrainTids(_) => DrainWorks(strict, s, q);
    }
  }

  lemma BusyWorks(s: Sc, q: Ac)
    ensures s.hw[q] != [] ==> Working(s, q)
  {}

  lemma EnableWorks(strict: bool, s: Sc, t: TidId)
    requires Good(strict, s) && Working(s, QueueOf(t))
    ensures Working(SetTid(s, t, s.tids[t].(aggr := true)), QueueOf(t))
  {
    hide Good, QueueOf, InSession, Held, NormalsOk;
    GoodLook(strict, s, t);
  }

  lemma DisableWorks(s: Sc, t: TidId, limit: nat)
    requires Working(s, QueueOf(t))
    ensures Working(Disable(s, t, limit), QueueOf(t))
  {
    hide QueueOf, Disable;
    DisableOnly(s, t, limit);
  }

  /** A drain sets everything right: nobody of the queue has anything to send. */
  lemma DrainWorks(strict: bool, s: Sc, q: Ac)
    requires Good(strict, s) && s.hw[q] == []
    ensures Working(DrainScheduled(s, q), q)
  {
    hide Good, QueueOf, DrainScheduled;
    DrainEmpties(strict, s, q);
  }

  // ---------------------------------------------------------------------------------
  // Runs

  /** In no state of the run does the queue work. */
  ghost predicate IdleSince(s: Sc, es: seq<Event>, q: Ac)
    decreases |es|
  {
    !Working(s, q) && (es == [] || IdleSince(Step(s, es[0]), es[1..], q))
  }

  /** An event of the run is a cause, and in no state since then did the queue work. */
  ghost predicate LeftIdle(s: Sc, es: seq<Event>, q: Ac)
    decreases |es|
  {
    es != []
    && ((Cause(s, es[0], q) && IdleSince(Step(s, es[0]), es[1..], q)) || LeftIdle(Step(s, es[0]), es[1..], q))
  }

  /**
   A hardware queue stands idle while somebody of it could send only after a cause: a scheduling call
   wasted on a quiet identifier, or a stop with no drain. Over every allowed run.
   */
  lemma {:induction false} IdleHasCause(strict: bool, s: Sc, es: seq<Event>, q: Ac)
    requires Good(strict, s) && AllowedRun(strict, s, es) && !Working(Run(s, es), q)
    ensures IdleSince(s, es, q) || LeftIdle(s, es, q)
    decreases |es|
  {
    hide Good, Working, Step, Allowed, Cause;
    if es != [] {
      StepKeepsInv(strict, s, es[0]);
      IdleHasCause(strict, Step(s, es[0]), es[1..], q);
      if IdleSince(Step(s, es[0]), es[1..], q) && Working(s, q) && !Cause(s, es[0], q) {
        StepWorks(strict, s, es[0], q);
      }
    }
  }

  lemma AttachedWorks(k2: bool, n: nat, q: Ac)
    ensures Working(Attached(k2, n), q)
  {}
  /** So after every allowed run from attachment. */
  lemma IdleIsLeftIdle(strict: bool, k2: bool, n: nat, es: seq<Event>, q: Ac)
    requires AllowedRun(strict, Attached(k2, n), es)
    ensures !Working(Run(Attached(k2, n), es), q) ==> LeftIdle(Attached(k2, n), es, q)
  {
    hide Good, Working, Run, AllowedRun, LeftIdle, Attached;
    AttachedGood(strict, k2, n);
    AttachedWorks(k2, n, q);
    if !Working(Run(Attached(k2, n), es), q) { IdleHasCause(strict, Attached(k2, n), es, q); }
  }

  // ---------------------------------------------------------------------------------
  // An idle queue stays idle

  /** The event sends a frame on queue q at once. */
  predicate Wakes(s: Sc, e: Event, q: Ac) {
    e.Recv? && QueueOf(e.t) == q && SentAtOnce(s, e.t, e.known)
  }

  /** The event throws away what u has queued. */
  predicate Clears(e: Event, u: TidId) {
    (e.DisableAggr? && e.t == u) || (e.DrainTids? && e.q == QueueOf(u))
  }

  /** Nothing but a frame sent at once sets an idle queue going, however many of its identifiers could send. */
  lemma StaysIdle(strict: bool, s: Sc, e: Event, u: TidId)
    requires Good(strict, s) && s.hw[QueueOf(u)] == [] && CanSend(s.tids[u])
    ensures Step(s, e).hw[QueueOf(u)] == [] <==> !Wakes(s, e, QueueOf(u))
    ensures !Clears(e, u) ==> CanSend(Step(s, e).tids[u])
  {
    hide Process, Schedule, Receive, Disable, DrainScheduled, QueueOf, Shape, Elsewhere, CanSend, SentAtOnce;
    hide Good, AllServed;
    var q := QueueOf(u);
    GoodShape(strict, s);
    GoodServed(strict, s);
    if QueueOfEvent(e) != q {
      StepElsewhere(s, e);
      ElsewhereAt(s, Step(s, e), QueueOfEvent(e), u);
    } else {
      match e
      case Recv(t, known, skb, pktlen, key) => ReceiveIdle(s, t, known, skb, pktlen, key);
      case Complete(_, _, _, _, _) =>
      case CompleteStopped(_, _, _, _) =>
      case EnableAggr(t) => EnableSends(strict, s, u);
      case DisableAggr(t, limit) => DisableOnly(s, t, limit);
      case DrainTids(_) => DrainKeepsHw(s, q);
    }
  }

  lemma ElsewhereAt(s: Sc, r: Sc, q: Ac, u: TidId)
    requires Elsewhere(s, r, q) && QueueOf(u) != q
    ensures r.hw[QueueOf(u)] == s.hw[QueueOf(u)] && r.tids[u] == s.tids[u]
  {
    hide QueueOf;
  }
  lemma EnableSends(strict: bool, s: Sc, u: TidId)
    requires Good(strict, s) && CanSend(s.tids[u])
    ensures CanSend(s.tids[u].(aggr := true))
  {
    hide Good, QueueOf, InSession, Held, NormalsOk;
    GoodLook(strict, s, u);
  }

  /** No event of the run sends a frame on the queue of u at once, or throws away what u has queued. */
  predicate NobodyHelps(s: Sc, es: seq<Event>, u: TidId)
    decreases |es|
  {
    es == [] || (!Wakes(s, es[0], QueueOf(u)) && !Clears(es[0], u) && NobodyHelps(Step(s, es[0]), es[1..], u))
  }

  /** However many frames come for identifiers that have some queued, and however many completions are called. */
  lemma {:induction false} IdleLasts(strict: bool, s: Sc, es: seq<Event>, u: TidId)
    requires Good(strict, s) && AllowedRun(strict, s, es) && NobodyHelps(s, es, u)
    requires s.hw[QueueOf(u)] == [] && CanSend(s.tids[u])
    ensures Run(s, es).hw[QueueOf(u)] == [] && CanSend(Run(s, es).tids[u])
    decreases |es|
  {
    hide Good, CanSend, Step, Allowed, Wakes, Clears, QueueOf;
    if es != [] {
      StaysIdle(strict, s, es[0], u);
      StepKeepsInv(strict, s, es[0]);
      IdleLasts(strict, Step(s, es[0]), es[1..], u);
    }
  }
}
