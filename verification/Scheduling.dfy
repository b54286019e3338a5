/**
 The lists of schedulable identifiers: whoever has frames queued is paused or on its list. When the list is
 served is the subject of modules Turns and Idle.
 */
module Scheduling {
  import opened Frames
  import opened Window
  import opened Softc
  import opened Steps
  import opened Growth

  /** The lists of schedulable identifiers: each on its own queue's list, once, exactly when marked so. */
  ghost predicate Lists(s: Sc) {
    && (forall q, i :: 0 <= q < WME_NUM_AC && 0 <= i < |s.tidq[q]| ==> QueueOf(s.tidq[q][i]) == q)
    && (forall q, i, j :: 0 <= q < WME_NUM_AC && 0 <= i < j < |s.tidq[q]| ==> s.tidq[q][i] != s.tidq[q][j])
    && (forall u: TidId :: s.tids[u].sched <==> u in s.tidq[QueueOf(u)])
  }

  /** A BAR of u is in the hardware queue. */
  ghost predicate HasBar(h: seq<Chain>, u: TidId) {
    exists i :: 0 <= i < |h| && h[i][0].tid == u && h[i][0].comp == Bar
  }

  /** u is paused only for a teardown, or until its BAR completes. */
  ghost predicate Accounted(s: Sc, u: TidId) {
    s.tids[u].paused ==> s.tids[u].cleanup || HasBar(s.hw[QueueOf(u)], u)
  }

  /** u is paused, or has nothing queued, or is on its list. */
  predicate Listed(tid: Tid) {
    tid.paused || tid.bufq == [] || tid.sched
  }

  ghost predicate Served(s: Sc, u: TidId) {
    Accounted(s, u) && Listed(s.tids[u])
  }

  ghost predicate AllServed(s: Sc) {
    Lists(s) && forall u: TidId :: Served(s, u)
  }

  ghost predicate ServedBut(s: Sc, t: TidId) {
    Lists(s) && forall u: TidId :: u != t ==> Served(s, u)
  }

  // ---------------------------------------------------------------------------------
  // Single changes

  lemma StillServed(s: Sc, s1: Sc, u: TidId)
    requires Served(s, u) && HwGrew(s, s1)
    requires s1.tids[u] == s.tids[u].(sched := s1.tids[u].sched) && (s.tids[u].sched ==> s1.tids[u].sched)
    ensures Served(s1, u)
  {
    hide QueueOf;
    if HasBar(s.hw[QueueOf(u)], u) {
      var i :| 0 <= i < |s.hw[QueueOf(u)]| && s.hw[QueueOf(u)][i][0].tid == u && s.hw[QueueOf(u)][i][0].comp == Bar;
      assert s1.hw[QueueOf(u)][i] == s.hw[QueueOf(u)][i];
    }
  }

  lemma SameMarks(s: Sc, s1: Sc, t: TidId)
    requires ServedBut(s, t) && s1.tidq == s.tidq && HwGrew(s, s1)
    requires forall u: TidId :: s1.tids[u].sched == s.tids[u].sched && (u == t || s1.tids[u] == s.tids[u])
    ensures ServedBut(s1, t)
  {
    hide QueueOf, Served, HwGrew;
    forall u: TidId | u != t ensures Served(s1, u) { StillServed(s, s1, u); }
  }

  lemma Finish(s: Sc, t: TidId)
    requires ServedBut(s, t) && Served(s, t)
    ensures AllServed(s)
  {
    hide Lists, Served;
  }

  lemma Begin(s: Sc, t: TidId)
    requires AllServed(s)
    ensures ServedBut(s, t)
  {}

  /** A change of t alone, its mark untouched, that leaves it served. */
  lemma ChangeOne(s: Sc, s1: Sc, t: TidId)
    requires ServedBut(s, t) && s1.tidq == s.tidq && s1.tids == s.tids[t := s1.tids[t]]
    requires s1.tids[t].sched == s.tids[t].sched && HwGrew(s, s1)
    ensures ServedBut(s1, t)
    ensures Served(s1, t) ==> AllServed(s1)
  {
    hide QueueOf, HwGrew, Served;
    SameMarks(s, s1, t);
    if Served(s1, t) { Finish(s1, t); }
  }

  lemma EnqueueServes(s: Sc, t: TidId)
    requires ServedBut(s, t) && Accounted(s, t)
    ensures AllServed(Enqueue(s, QueueOf(t), t))
  {
    hide QueueOf, HasBar;
    var r := Enqueue(s, QueueOf(t), t);
    if s.tids[t].paused || s.tids[t].sched {
      Finish(s, t);
    } else {
      EnqueueLists(s, t);
      forall u: TidId ensures Served(r, u) { if u != t { StillServed(s, r, u); } }
    }
  }

  lemma EnqueueLists(s: Sc, t: TidId)
    requires Lists(s) && !s.tids[t].paused && !s.tids[t].sched
    ensures Lists(Enqueue(s, QueueOf(t), t))
  {
    hide QueueOf;
    var q := QueueOf(t);
    var r := Enqueue(s, q, t);
    assert t !in s.tidq[q];
    assert r.tidq[q] == s.tidq[q] + [t];
    forall p, i | 0 <= p < WME_NUM_AC && 0 <= i < |r.tidq[p]| ensures QueueOf(r.tidq[p][i]) == p {
      if p == q && i == |s.tidq[q]| {} else { assert r.tidq[p][i] == s.tidq[p][i]; }
    }
    forall u: TidId ensures r.tids[u].sched <==> u in r.tidq[QueueOf(u)] {
      assert s.tids[u].sched <==> u in s.tidq[QueueOf(u)];
    }
  }

  lemma DequeueLists(s: Sc, q: Ac)
    requires AllServed(s) && s.tidq[q] != []
    ensures ServedBut(Dequeue(s, q), s.tidq[q][0]) && Accounted(Dequeue(s, q), s.tidq[q][0])
    ensures !Dequeue(s, q).tids[s.tidq[q][0]].sched
  {
    hide QueueOf;
    var t := s.tidq[q][0];
    var r := Dequeue(s, q);
    assert QueueOf(t) == q;
    forall p, i | 0 <= p < WME_NUM_AC && 0 <= i < |r.tidq[p]| ensures QueueOf(r.tidq[p][i]) == p {
      if p == q { assert r.tidq[p][i] == s.tidq[q][i + 1]; } else { assert r.tidq[p][i] == s.tidq[p][i]; }
    }
    DequeueOnce(s, q);
    hide HasBar;
    assert Served(s, t);
    forall u: TidId | u != t ensures Served(r, u) { StillServed(s, r, u); }
  }

  lemma DequeueOnce(s: Sc, q: Ac)
    requires Lists(s) && s.tidq[q] != []
    ensures var r := Dequeue(s, q);
      && (forall p, i, j :: 0 <= p < WME_NUM_AC && 0 <= i < j < |r.tidq[p]| ==> r.tidq[p][i] != r.tidq[p][j])
      && (forall u: TidId :: r.tids[u].sched <==> u in r.tidq[QueueOf(u)])
  {
    hide QueueOf;
    var t := s.tidq[q][0];
    var r := Dequeue(s, q);
    assert QueueOf(t) == q;
    forall p, i, j | 0 <= p < WME_NUM_AC && 0 <= i < j < |r.tidq[p]| ensures r.tidq[p][i] != r.tidq[p][j] {
      if p == q {
        assert r.tidq[p][i] == s.tidq[q][i + 1] && r.tidq[p][j] == s.tidq[q][j + 1];
      } else {
        assert r.tidq[p][i] == s.tidq[p][i] && r.tidq[p][j] == s.tidq[p][j];
      }
    }
    forall u: TidId ensures r.tids[u].sched <==> u in r.tidq[QueueOf(u)] {
      assert s.tids[u].sched <==> u in s.tidq[QueueOf(u)];
      HeadOnce(s.tidq[q], u);
    }
  }

  lemma HeadOnce(l: seq<TidId>, u: TidId)
    requires l != [] && forall i, j :: 0 <= i < j < |l| ==> l[i] != l[j]
    ensures u in l[1..] <==> u in l && u != l[0]
  {
    if u in l && u != l[0] {
      var i :| 0 <= i < |l| && l[i] == u;
      assert l[1..][i - 1] == u;
    }
    if u in l[1..] {
      var i :| 0 <= i < |l[1..]| && l[1..][i] == u;
      assert l[i + 1] == u;
    }
  }

  // ---------------------------------------------------------------------------------
  // Routines

  lemma SchedTidOnly(s: Sc, t: TidId, limit: nat)
    ensures var r := SchedTid(s, t, limit);
      r.tidq == s.tidq && r.tids == s.tids[t := r.tids[t]] && r.tids[t].sched == s.tids[t].sched
      && r.tids[t].paused == s.tids[t].paused && r.tids[t].cleanup == s.tids[t].cleanup && HwGrew(s, r)
  {
    hide Chosen, AddFrames, QueueOf;
  }

  lemma {:induction false} ScheduleServes(s: Sc, q: Ac, limit: nat)
    requires AllServed(s)
    ensures AllServed(Schedule(s, q, limit))
    decreases |s.tidq[q]|
  {
    hide SchedTid, AllServed, ServedBut, QueueOf, Enqueue, HwGrew, HasBar;
    if s.tidq[q] != [] {
      var t := s.tidq[q][0];
      var s1 := Dequeue(s, q);
      DequeueLists(s, q);
      if s.tids[t].paused {
        Finish(s1, t);
        ScheduleServes(s1, q, limit);
      } else {
        var s2 := SchedTid(s1, t, limit);
        SchedTidOnly(s1, t, limit);
        ChangeOne(s1, s2, t);
        HeadQueue(s, q);
        EnqueueServes(s2, t);
      }
    }
  }

  lemma HeadQueue(s: Sc, q: Ac)
    requires AllServed(s) && s.tidq[q] != []
    ensures QueueOf(s.tidq[q][0]) == q
  {}

  lemma ResumeServes(s: Sc, t: TidId, limit: nat)
    requires ServedBut(s, t)
    ensures AllServed(Resume(s, t, limit))
  {
    hide AllServed, ServedBut, QueueOf, Enqueue, Schedule;
    var s1 := SetTid(s, t, s.tids[t].(paused := false));
    ChangeOne(s, s1, t);
    if s.tids[t].bufq != [] {
      EnqueueServes(s1, t);
      ScheduleServes(Enqueue(s1, QueueOf(t), t), QueueOf(t), limit);
    }
  }

  /** Only the window of t is touched. */
  ghost predicate OnlyTid(s: Sc, r: Sc, t: TidId) {
    && r.tidq == s.tidq && r.hw == s.hw && r.tids == s.tids[t := r.tids[t]]
    && r.tids[t] == s.tids[t].(win := r.tids[t].win)
  }

  lemma {:induction false} CompFramesOnly(a: Acc, t: TidId, c: seq<Frame>, st: TxStat, useBa: bool)
    ensures OnlyTid(a.s, CompFrames(a, t, c, st, useBa).s, t)
    decreases |c|
  {
    hide Acked, CompSubframe;
    if c != [] {
      var acked := useBa && Acked(st, c[0].seqno);
      CompSubframeOnly(a, t, c[0], |c| == 1, acked);
      CompFramesOnly(CompSubframe(a, t, c[0], |c| == 1, acked), t, c[1..], st, useBa);
    }
  }

  lemma CompSubframeOnly(a: Acc, t: TidId, f: Frame, last: bool, acked: bool)
    ensures OnlyTid(a.s, CompSubframe(a, t, f, last, acked).s, t)
  {
    hide Resolve;
  }

  lemma BarTxServes(s: Sc, t: TidId, f: Frame)
    requires ServedBut(s, t)
    ensures AllServed(BarTx(s, t, f))
  {
    hide ServedBut, AllServed, QueueOf;
    var r := BarTx(s, t, f);
    var h := r.hw[QueueOf(t)];
    assert h[|h| - 1][0].tid == t && h[|h| - 1][0].comp == Bar;
    ChangeOne(s, r, t);
  }

  lemma CompFinishServes(a: Acc, t: TidId)
    requires AllServed(a.s)
    ensures AllServed(CompFinish(a, t))
  {
    hide AllServed, ServedBut, QueueOf, Enqueue, BarTx, HasBar;
    Begin(a.s, t);
    var s1 := if a.bar == [] then a.s else BarTx(a.s, t, a.bar[0]);
    if a.bar != [] { BarTxServes(a.s, t, a.bar[0]); }
    if a.bfq != [] {
      PrependServes(s1, t, a.bfq);
    }
  }

  lemma PrependServes(s: Sc, t: TidId, p: seq<Frame>)
    requires AllServed(s)
    ensures AllServed(Enqueue(SetTid(s, t, s.tids[t].(bufq := p + s.tids[t].bufq)), QueueOf(t), t))
  {
    hide AllServed, ServedBut, QueueOf, Enqueue, HasBar;
    Begin(s, t);
    ServedAt(s, t);
    var s1 := SetTid(s, t, s.tids[t].(bufq := p + s.tids[t].bufq));
    ChangeOne(s, s1, t);
    EnqueueServes(s1, t);
  }

  lemma CompAggrServes(s: Sc, t: TidId, c: Chain, st: TxStat)
    requires AllServed(s)
    ensures AllServed(CompAggr(s, t, c, st))
  {
    hide AllServed, ServedBut, CompFinish, CompFrames, HasBar;
    var a := CompFrames(Acc(s, [], [], 0), t, c, st, UseBa(st));
    CompFramesOnly(Acc(s, [], [], 0), t, c, st, UseBa(st));
    Begin(s, t);
    ServedAt(s, t);
    ChangeOne(s, a.s, t);
    CompFinishServes(a, t);
  }

  lemma ServedAt(s: Sc, t: TidId)
    requires AllServed(s)
    ensures Served(s, t)
  {}

  lemma CompUnaggrServes(s: Sc, t: TidId, f: Frame, st: TxStat, linked: bool)
    requires AllServed(s)
    ensures AllServed(CompUnaggr(s, t, f, st, linked))
  {
    hide AllServed, ServedBut, QueueOf, Enqueue, Resolve, BarTx, HasBar;
    Begin(s, t);
    ServedAt(s, t);
    var s1 := UpdateBaw(s, t, f.seqno);
    if !st.xretry {
      ChangeOne(s, FreeBuf(s1, f), t);
    } else if f.retries >= OWLMAX_RETRIES {
      ChangeOne(s, s1, t);
      BarTxServes(s1, t, f);
    } else {
      var (s2, g) := ToggleIf(s, f, !linked);
      ChangeOne(s, s2, t);
      PrependServes(s2, t, [SetRetry(g)]);
    }
  }

  lemma TidCleanupServes(s: Sc, t: TidId, limit: nat)
    requires AllServed(s)
    ensures AllServed(TidCleanup(s, t, limit))
  {
    hide AllServed, ServedBut, Resume, HasBar;
    Begin(s, t);
    ServedAt(s, t);
    var s1 := SetTid(s, t, s.tids[t].(incomp := s.tids[t].incomp - 1));
    ChangeOne(s, s1, t);
    if s1.tids[t].incomp == 0 {
      ChangeOne(s1, SetTid(s1, t, s1.tids[t].(cleanup := false)), t);
      ResumeServes(SetTid(s1, t, s1.tids[t].(cleanup := false)), t, limit);
    }
  }

  lemma FreeBufServes(s: Sc, f: Frame)
    requires AllServed(s)
    ensures AllServed(FreeBuf(s, f))
  {
    hide ServedBut, AllServed, HasBar;
    Begin(s, 0);
    ServedAt(s, 0);
    ChangeOne(s, FreeBuf(s, f), 0);
  }

  lemma {:induction false} CompCleanupServes(s: Sc, t: TidId, c: seq<Frame>, limit: nat)
    requires AllServed(s)
    ensures AllServed(CompCleanup(s, t, c, limit))
    decreases |c|
  {
    hide AllServed, TidCleanup, FreeBuf;
    if c != [] {
      var s1 := FreeBuf(s, c[0]);
      FreeBufServes(s, c[0]);
      TidCleanupServes(s1, t, limit);
      if s1.tids[t].incomp != 1 { CompCleanupServes(TidCleanup(s1, t, limit), t, c[1..], limit); }
    }
  }

  lemma CleanupServes(s: Sc, t: TidId, limit: nat)
    requires ServedBut(s, t)
    ensures AllServed(Cleanup(s, t, limit))
  {
    hide AllServed, ServedBut, FreeAll, Flush, FlushRetried, Resume;
    FreeAllKeepsTidq(s, s.tids[t].bufq);
    var s1 := SetTid(FreeAll(s, s.tids[t].bufq), t, CleanupTid(s.tids[t]));
    ChangeOne(s, s1, t);
    if !s1.tids[t].cleanup { ResumeServes(s1, t, limit); }
  }

  lemma DisableServes(s: Sc, t: TidId, limit: nat)
    requires ServedBut(s, t)
    ensures AllServed(Disable(s, t, limit))
  {
    hide AllServed, ServedBut, Cleanup;
    ChangeOne(s, SetTid(s, t, s.tids[t].(aggr := false)), t);
    CleanupServes(SetTid(s, t, s.tids[t].(aggr := false)), t, limit);
  }

  lemma DrainServes(s: Sc, t: TidId)
    requires ServedBut(s, t) && Accounted(s, t)
    ensures AllServed(Drain(s, t)) && Drain(s, t).tidq == s.tidq
  {
    hide AllServed, ServedBut, FreeAll, HasBar;
    FreeAllKeepsTidq(s, s.tids[t].bufq);
    ChangeOne(s, Drain(s, t), t);
  }

  lemma CompBarServes(s: Sc, t: TidId, f: Frame, st: TxStat, linked: bool, limit: nat)
    requires ServedBut(s, t) && Listed(s.tids[t]) && f.comp == Bar && f.tid == t
    ensures AllServed(CompBar(s, t, f, st, linked, limit))
  {
    hide AllServed, ServedBut, Resume, Disable, Drain, FreeBuf, QueueOf;
    if !st.xretry {
      ResumeServes(s, t, limit);
      FreeBufServes(Resume(s, t, limit), f);
    } else if f.retries >= OWLMAX_BAR_RETRIES {
      hide HasBar;
      DisableServes(s, t, limit);
      Begin(Disable(s, t, limit), t);
      ServedAt(Disable(s, t, limit), t);
      DrainServes(Disable(s, t, limit), t);
      FreeBufServes(Drain(Disable(s, t, limit), t), f);
    } else {
      BarAgain(s, CompBar(s, t, f, st, linked, limit), t);
    }
  }

  /** A BAR of t at the end of its hardware queue accounts for t. */
  lemma BarAgain(s: Sc, r: Sc, t: TidId)
    requires ServedBut(s, t) && Listed(s.tids[t]) && r.tids == s.tids && r.tidq == s.tidq && HwGrew(s, r)
    requires var h := r.hw[QueueOf(t)]; h != [] && h[|h| - 1][0].tid == t && h[|h| - 1][0].comp == Bar
    ensures AllServed(r)
  {
    hide ServedBut, AllServed, QueueOf, HwGrew;
    ChangeOne(s, r, t);
  }

  lemma PopServes(s: Sc, q: Ac)
    requires AllServed(s) && s.hw[q] != []
    ensures ServedBut(Pop(s, q), s.hw[q][0][0].tid)
    ensures s.hw[q][0][0].comp != Bar ==> Served(Pop(s, q), s.hw[q][0][0].tid)
    ensures Listed(s.tids[s.hw[q][0][0].tid])
  {
    hide QueueOf, HasBar;
    ServedAt(s, s.hw[q][0][0].tid);
    var r := Pop(s, q);
    forall u: TidId | u != s.hw[q][0][0].tid || s.hw[q][0][0].comp != Bar ensures Served(r, u) {
      assert Served(s, u);
      PopHasBar(s.hw[q], u);
    }
  }

  lemma PopHasBar(h: seq<Chain>, u: TidId)
    requires h != [] && (h[0][0].tid != u || h[0][0].comp != Bar)
    ensures HasBar(h, u) ==> HasBar(h[1..], u)
  {
    if HasBar(h, u) {
      var i :| 0 <= i < |h| && h[i][0].tid == u && h[i][0].comp == Bar;
      assert h[1..][i - 1] == h[i];
    }
  }

  lemma ProcessServes(s: Sc, q: Ac, st: TxStat, linked: bool, limit: nat)
    requires AllServed(s) && s.hw[q] != []
    ensures AllServed(Process(s, q, st, linked, limit))
  {
    hide AllServed, ServedBut, CompBar, CompCleanup, CompUnaggr, CompAggr, TidCleanup, FreeBuf, Served;
    var c := s.hw[q][0];
    var t := c[0].tid;
    var s1 := Pop(s, q);
    PopServes(s, q);
    if c[0].comp != Bar { Finish(s1, t); }
    match c[0].comp
    case Normal =>
      TidCleanupServes(s1, t, limit);
      FreeBufServes(if s1.tids[t].cleanup then TidCleanup(s1, t, limit) else s1, c[0]);
    case Bar => CompBarServes(s1, t, c[0], st, linked, limit);
    case Aggr =>
      if s.tids[t].cleanup { CompCleanupServes(s1, t, c, limit); }
      else if |c| == 1 { CompUnaggrServes(s1, t, c[0], st, linked); }
      else { CompAggrServes(s1, t, c, st); }
  }

  lemma ReceiveServes(s: Sc, t: TidId, known: bool, skb: nat, pktlen: nat, key: KeyType)
    requires AllServed(s)
    ensures AllServed(Receive(s, t, known, skb, pktlen, key))
  {
    hide AllServed, ServedBut, QueueOf, Enqueue, AddFrame, Within, NextSeq;
    var r := Receive(s, t, known, skb, pktlen, key);
    Begin(s, t);
    ServedAt(s, t);
    if known && s.free != [] && s.tids[t].aggr {
      var (s1, f) := Prepared(s, t, skb, pktlen, key);
      var s2 := SetTid(s1, t, s1.tids[t].(bufq := s1.tids[t].bufq + [f]));
      ChangeOne(s, s2, t);
      EnqueueServes(s2, t);
      if r != Enqueue(s2, QueueOf(t), t) { ChangeOne(s, r, t); }
    } else {
      ChangeOne(s, r, t);
    }
  }

  lemma {:induction false} DrainScheduledServes(s: Sc, q: Ac)
    requires AllServed(s)
    ensures AllServed(DrainScheduled(s, q)) && DrainScheduled(s, q).tidq[q] == []
    decreases |s.tidq[q]|
  {
    hide AllServed, ServedBut, Drain;
    if s.tidq[q] != [] {
      DequeueLists(s, q);
      DrainServes(Dequeue(s, q), s.tidq[q][0]);
      DrainScheduledServes(DrainFirst(s, q), q);
    }
  }

  lemma StepServes(s: Sc, e: Event)
    requires AllServed(s)
    ensures AllServed(Step(s, e))
  {
    hide AllServed, ServedBut, Receive, Process, Schedule, Disable, DrainScheduled;
    match e
    case Recv(t, known, skb, pktlen, key) => ReceiveServes(s, t, known, skb, pktlen, key);
    case Complete(q, st, linked, limit, next) =>
      if s.hw[q] != [] {
        ProcessServes(s, q, st, linked, limit);
        ScheduleServes(Process(s, q, st, linked, limit), q, next);
      }
    case CompleteStopped(q, st, linked, limit) =>
      if s.hw[q] != [] { ProcessServes(s, q, st, linked, limit); }
    case EnableAggr(t) =>
      Begin(s, t);
      ServedAt(s, t);
      ChangeOne(s, Step(s, e), t);
    case DisableAggr(t, limit) =>
      Begin(s, t);
      DisableServes(s, t, limit);
    case DrainTids(q) => DrainScheduledServes(s, q);
  }

  /**
   No stranded identifier. Over every run, whatever the events, every identifier is paused, or has
   an empty queue, or is on its list; and it is there at most once, exactly when marked scheduled.
   */
  lemma {:induction false} NoneStranded(s: Sc, es: seq<Event>)
    requires AllServed(s)
    ensures AllServed(Run(s, es))
    decreases |es|
  {
    hide AllServed, Step;
    if es != [] {
      StepServes(s, es[0]);
      NoneStranded(Step(s, es[0]), es[1..]);
    }
  }

  lemma AttachedServed(k2: bool, n: nat)
    ensures AllServed(Attached(k2, n))
  {
    hide QueueOf;
    var s := Attached(k2, n);
    forall u: TidId ensures s.tids[u].sched <==> u in s.tidq[QueueOf(u)] { assert s.tidq[QueueOf(u)] == []; }
  }
}
