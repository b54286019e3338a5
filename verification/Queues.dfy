/** The four hardware queues do not meet: an event on one of them leaves the others and their identifiers alone. */
module Queues {
  import opened Frames
  import opened Window
  import opened Softc
  import opened Engine
  import opened Steps
  import opened Growth
  import opened Scheduling
  import opened Runs

  /** From s to r nothing of the other queues changes: their entries, their lists, their identifiers. */
  ghost predicate Elsewhere(s: Sc, r: Sc, q: Ac) {
    && r.hw == s.hw[q := r.hw[q]] && r.tidq == s.tidq[q := r.tidq[q]]
    && forall v: TidId :: QueueOf(v) != q ==> r.tids[v] == s.tids[v]
  }

  lemma ElsewhereTrans(a: Sc, b: Sc, c: Sc, q: Ac)
    requires Elsewhere(a, b, q) && Elsewhere(b, c, q)
    ensures Elsewhere(a, c, q)
  {
    hide QueueOf;
  }

  /** Only identifier t and its queue change. */
  ghost predicate OnlyOf(s: Sc, r: Sc, t: TidId) {
    var q := QueueOf(t);
    r.tids == s.tids[t := r.tids[t]] && r.hw == s.hw[q := r.hw[q]] && r.tidq == s.tidq[q := r.tidq[q]]
  }

  lemma OnlyElsewhere(s: Sc, r: Sc, t: TidId)
    requires OnlyOf(s, r, t)
    ensures Elsewhere(s, r, QueueOf(t))
  {
    hide QueueOf;
  }

  lemma EnqueueOnly(s: Sc, s1: Sc, t: TidId)
    requires OnlyOf(s, s1, t)
    ensures OnlyOf(s, Enqueue(s1, QueueOf(t), t), t)
    ensures Homed(s1, QueueOf(t)) ==> Homed(Enqueue(s1, QueueOf(t), t), QueueOf(t))
  {
    hide QueueOf;
  }

  lemma SchedTidOnlyOf(s: Sc, t: TidId, limit: nat)
    ensures OnlyOf(s, SchedTid(s, t, limit), t)
  {
    hide QueueOf, Chosen, AddFrames;
  }

  lemma {:induction false} ScheduleElsewhere(s: Sc, q: Ac, limit: nat)
    requires Homed(s, q)
    ensures Elsewhere(s, Schedule(s, q, limit), q)
    decreases |s.tidq[q]|
  {
    hide SchedTid, Enqueue, QueueOf;
    if s.tidq[q] != [] {
      var t := s.tidq[q][0];
      var s1 := Dequeue(s, q);
      assert QueueOf(t) == q;
      assert OnlyOf(s, s1, t);
      OnlyElsewhere(s, s1, t);
      if s.tids[t].paused {
        ScheduleElsewhere(s1, q, limit);
        ElsewhereTrans(s, s1, Schedule(s1, q, limit), q);
      } else {
        var s2 := SchedTid(s1, t, limit);
        SchedTidOnlyOf(s1, t, limit);
        EnqueueOnly(s1, s2, t);
        OnlyElsewhere(s1, s2, t);
        OnlyElsewhere(s1, Enqueue(s2, q, t), t);
        ElsewhereTrans(s, s1, Requeue(s2, q, t), q);
      }
    }
  }

  lemma ResumeElsewhere(s: Sc, t: TidId, limit: nat)
    requires Homed(s, QueueOf(t))
    ensures Elsewhere(s, Resume(s, t, limit), QueueOf(t))
  {
    hide QueueOf, Schedule, Enqueue, Elsewhere;
    var q := QueueOf(t);
    var s1 := SetTid(s, t, s.tids[t].(paused := false));
    OnlyElsewhere(s, s1, t);
    if s.tids[t].bufq != [] {
      EnqueueOnly(s, s1, t);
      OnlyElsewhere(s, Enqueue(s1, q, t), t);
      ScheduleElsewhere(Enqueue(s1, q, t), q, limit);
      ElsewhereTrans(s, Enqueue(s1, q, t), Schedule(Enqueue(s1, q, t), q, limit), q);
    }
  }

  lemma TidCleanupElsewhere(s: Sc, t: TidId, limit: nat)
    requires Homed(s, QueueOf(t))
    ensures Elsewhere(s, TidCleanup(s, t, limit), QueueOf(t))
    ensures s.tids[t].incomp != 1 ==> TidCleanup(s, t, limit).tidq == s.tidq
  {
    hide QueueOf, Resume, Elsewhere;
    var s1 := SetTid(s, t, s.tids[t].(incomp := s.tids[t].incomp - 1));
    OnlyElsewhere(s, s1, t);
    if s1.tids[t].incomp == 0 {
      var s2 := SetTid(s1, t, s1.tids[t].(cleanup := false));
      OnlyElsewhere(s1, s2, t);
      ElsewhereTrans(s, s1, s2, QueueOf(t));
      ResumeElsewhere(s2, t, limit);
      ElsewhereTrans(s, s2, Resume(s2, t, limit), QueueOf(t));
    }
  }

  lemma {:induction false} CompCleanupElsewhere(s: Sc, t: TidId, c: seq<Frame>, limit: nat)
    requires Homed(s, QueueOf(t))
    ensures Elsewhere(s, CompCleanup(s, t, c, limit), QueueOf(t))
    decreases |c|
  {
    hide QueueOf, TidCleanup, Elsewhere;
    OnlyElsewhere(s, s, t);
    if c != [] {
      var s1 := FreeBuf(s, c[0]);
      var s2 := TidCleanup(s1, t, limit);
      OnlyElsewhere(s, s1, t);
      TidCleanupElsewhere(s1, t, limit);
      ElsewhereTrans(s, s1, s2, QueueOf(t));
      if s1.tids[t].incomp != 1 {
        CompCleanupElsewhere(s2, t, c[1..], limit);
        ElsewhereTrans(s, s2, CompCleanup(s2, t, c[1..], limit), QueueOf(t));
      }
    }
  }

  lemma CompAggrElsewhere(s: Sc, t: TidId, c: Chain, st: TxStat)
    ensures Elsewhere(s, CompAggr(s, t, c, st), QueueOf(t))
  {
    hide QueueOf, CompFrames, Enqueue, Elsewhere;
    var a := CompFrames(Acc(s, [], [], 0), t, c, st, UseBa(st));
    CompFramesOnly(Acc(s, [], [], 0), t, c, st, UseBa(st));
    var s1 := if a.bar == [] then a.s else BarTx(a.s, t, a.bar[0]);
    var s2 := SetTid(s1, t, s1.tids[t].(bufq := a.bfq + s1.tids[t].bufq));
    EnqueueOnly(s, s2, t);
    OnlyElsewhere(s, if a.bfq == [] then s1 else Enqueue(s2, QueueOf(t), t), t);
  }

  lemma CompUnaggrElsewhere(s: Sc, t: TidId, f: Frame, st: TxStat, linked: bool)
    ensures Elsewhere(s, CompUnaggr(s, t, f, st, linked), QueueOf(t))
  {
    hide QueueOf, Resolve, Enqueue, Elsewhere;
    var (s1, g) := ToggleIf(s, f, !linked);
    EnqueueOnly(s, SetTid(s1, t, s1.tids[t].(bufq := [SetRetry(g)] + s1.tids[t].bufq)), t);
    OnlyElsewhere(s, CompUnaggr(s, t, f, st, linked), t);
  }

  /** Ending a session sends nothing. */
  lemma DisableOnly(s: Sc, t: TidId, limit: nat)
    ensures var r := Disable(s, t, limit);
      r.hw == s.hw && r.tidq == s.tidq && r.tids == s.tids[t := r.tids[t]] && r.tids[t].bufq == []
  {
    hide FreeAll, Flush, FlushRetried;
    var s0 := SetTid(s, t, s.tids[t].(aggr := false));
    FreeAllKeepsTidq(s0, s0.tids[t].bufq);
  }

  lemma CompBarElsewhere(s: Sc, t: TidId, f: Frame, st: TxStat, linked: bool, limit: nat)
    requires Homed(s, QueueOf(t))
    ensures Elsewhere(s, CompBar(s, t, f, st, linked, limit), QueueOf(t))
  {
    hide QueueOf, Resume, Disable, FreeAll, Elsewhere, DrainTid;
    var r := CompBar(s, t, f, st, linked, limit);
    if !st.xretry {
      ResumeElsewhere(s, t, limit);
      OnlyElsewhere(Resume(s, t, limit), r, t);
      ElsewhereTrans(s, Resume(s, t, limit), r, QueueOf(t));
    } else {
      var s1 := Disable(s, t, limit);
      DisableOnly(s, t, limit);
      FreeAllKeepsTidq(s1, s1.tids[t].bufq);
      OnlyElsewhere(s, r, t);
    }
  }

  lemma ProcessElsewhere(s: Sc, q: Ac, st: TxStat, linked: bool, limit: nat)
    requires s.hw[q] != [] && QueueOf(s.hw[q][0][0].tid) == q && Homed(s, q)
    ensures Elsewhere(s, Process(s, q, st, linked, limit), q)
  {
    hide QueueOf, TidCleanup, CompCleanup, CompAggr, CompUnaggr, CompBar, Elsewhere;
    var c := s.hw[q][0];
    var t := c[0].tid;
    var s1 := Pop(s, q);
    var r := Process(s, q, st, linked, limit);
    OnlyElsewhere(s, s1, t);
    match c[0].comp {
      case Normal =>
        TidCleanupElsewhere(s1, t, limit);
        OnlyElsewhere(s1, s1, t);
        var s2 := if s1.tids[t].cleanup then TidCleanup(s1, t, limit) else s1;
        OnlyElsewhere(s2, r, t);
        ElsewhereTrans(s1, s2, r, q);
      case Bar => CompBarElsewhere(s1, t, c[0], st, linked, limit);
      case Aggr =>
        CompCleanupElsewhere(s1, t, c, limit);
        CompUnaggrElsewhere(s1, t, c[0], st, linked);
        CompAggrElsewhere(s1, t, c, st);
    }
    ElsewhereTrans(s, s1, r, q);
  }

  lemma ReceiveElsewhere(s: Sc, t: TidId, known: bool, skb: nat, pktlen: nat, key: KeyType)
    ensures Elsewhere(s, Receive(s, t, known, skb, pktlen, key), QueueOf(t))
  {
    hide QueueOf, Enqueue, AddFrame, Within, NextSeq, Elsewhere;
    var r := Receive(s, t, known, skb, pktlen, key);
    if known && s.free != [] {
      var (s1, f) := Prepared(s, t, skb, pktlen, key);
      EnqueueOnly(s, SetTid(s1, t, s1.tids[t].(bufq := s1.tids[t].bufq + [f])), t);
    }
    OnlyElsewhere(s, r, t);
  }

  lemma {:induction false} DrainElsewhere(s: Sc, q: Ac)
    requires Homed(s, q)
    ensures Elsewhere(s, DrainScheduled(s, q), q)
    decreases |s.tidq[q]|
  {
    hide FreeAll, DrainTid, QueueOf, Elsewhere;
    if s.tidq[q] == [] {
      Nowhere(s, q);
    } else {
      var t := s.tidq[q][0];
      var r := DrainFirst(s, q);
      FreeAllKeepsTidq(Dequeue(s, q), Dequeue(s, q).tids[t].bufq);
      assert QueueOf(t) == q;
      OnlyElsewhere(s, r, t);
      DrainElsewhere(r, q);
      ElsewhereTrans(s, r, DrainScheduled(r, q), q);
    }
  }

  lemma Nowhere(s: Sc, q: Ac)
    ensures Elsewhere(s, s, q)
  {}

  /** The queue an event is about. */
  function QueueOfEvent(e: Event): Ac {
    match e
    case Recv(t, _, _, _, _) => QueueOf(t)
    case Complete(q, _, _, _, _) => q
    case CompleteStopped(q, _, _, _) => q
    case EnableAggr(t) => QueueOf(t)
    case DisableAggr(t, _) => QueueOf(t)
    case DrainTids(q) => q
  }

  lemma ListsHomed(s: Sc, q: Ac)
    requires AllServed(s)
    ensures Homed(s, q)
  {
    hide QueueOf, Served;
  }

  lemma CompletesHome(s: Sc, q: Ac, st: TxStat, linked: bool, limit: nat)
    requires Shape(s) && AllServed(s) && s.hw[q] != []
    ensures var r := Process(s, q, st, linked, limit); Elsewhere(s, r, q) && Homed(r, q)
  {
    hide Process, Elsewhere, QueueOf, AllServed, Homed;
    ListsHomed(s, q);
    assert ChainOk(s.hw[q][0], q);
    ProcessElsewhere(s, q, st, linked, limit);
    ProcessServes(s, q, st, linked, limit);
    ListsHomed(Process(s, q, st, linked, limit), q);
  }

  /**
   Queues are independent. Whatever the event, in every state with well-formed entries and lists, so over
   every run, nothing of the other three queues changes; they share only the buffers and the way to the host.
   */
  lemma StepElsewhere(s: Sc, e: Event)
    requires Shape(s) && AllServed(s)
    ensures Elsewhere(s, Step(s, e), QueueOfEvent(e))
  {
    hide Shape, AllServed, Process, Schedule, Receive, Disable, DrainScheduled, QueueOf, Elsewhere, Homed;
    var q := QueueOfEvent(e);
    ListsHomed(s, q);
    Nowhere(s, q);
    match e
    case Recv(t, known, skb, pktlen, key) => ReceiveElsewhere(s, t, known, skb, pktlen, key);
    case Complete(_, st, linked, limit, next) =>
      if s.hw[q] != [] {
        CompletesHome(s, q, st, linked, limit);
        var s1 := Process(s, q, st, linked, limit);
        ScheduleElsewhere(s1, q, next);
        ElsewhereTrans(s, s1, Schedule(s1, q, next), q);
      }
    case CompleteStopped(_, st, linked, limit) =>
      if s.hw[q] != [] { CompletesHome(s, q, st, linked, limit); }
    case EnableAggr(t) => OnlyElsewhere(s, Step(s, e), t);
    case DisableAggr(t, limit) =>
      DisableOnly(s, t, limit);
      if s.tids[t].aggr { OnlyElsewhere(s, Step(s, e), t); }
    case DrainTids(_) => DrainElsewhere(s, q);
  }
  /** A run none of whose events is about queue q leaves everything of q as it was. */
  lemma {:induction false} RunElsewhere(s: Sc, es: seq<Event>, q: Ac)
    requires Shape(s) && AllServed(s) && forall e :: e in es ==> QueueOfEvent(e) != q
    ensures var r := Run(s, es);
      && r.hw[q] == s.hw[q] && r.tidq[q] == s.tidq[q]
      && forall v: TidId :: QueueOf(v) == q ==> r.tids[v] == s.tids[v]
    decreases |es|
  {
    hide Shape, AllServed, Step, QueueOf, QueueOfEvent;
    if es != [] {
      assert es[0] in es;
      StepElsewhere(s, es[0]);
      StepGrew(s, es[0]);
      StepServes(s, es[0]);
      RunElsewhere(Step(s, es[0]), es[1..], q);
    }
  }
}
