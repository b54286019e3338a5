/**
 What every routine does to the hardware queues, in every state with well-formed entries: they grow at
 their ends only, by well-formed entries.
 */
module Growth {
  import opened Frames
  import opened Window
  import opened Softc
  import opened Session
  import opened Engine
  import opened Steps
  import opened Completions

  ghost predicate HwGrew(s: Sc, r: Sc) {
    forall q :: 0 <= q < WME_NUM_AC ==> s.hw[q] <= r.hw[q]
  }

  ghost predicate Grew(s: Sc, r: Sc) {
    HwGrew(s, r) && Shape(r)
  }

  lemma GrewTrans(a: Sc, b: Sc, c: Sc)
    requires Grew(a, b) && Grew(b, c)
    ensures Grew(a, c)
  {
    hide Shape;
  }

  lemma GrewSame(s: Sc, r: Sc)
    requires Shape(s) && r.hw == s.hw && r.tids == s.tids
    ensures Grew(s, r)
  {}

  lemma SetTidGrew(s: Sc, t: TidId, tid: Tid)
    requires Shape(s) && QueuedOk(tid.bufq, t)
    ensures Grew(s, SetTid(s, t, tid))
  {
    hide QueuedOk, ChainOk;
  }

  lemma QueuedAt(s: Sc, t: TidId)
    requires Shape(s)
    ensures QueuedOk(s.tids[t].bufq, t)
  {}

  lemma SubmitGrew(s: Sc, q: Ac, c: Chain)
    requires Shape(s) && ChainOk(c, q)
    ensures Grew(s, Submit(s, q, c))
  {
    hide Shape, ChainOk;
    SubmitShape(s, q, c);
  }

  lemma EnqueueGrew(s: Sc, q: Ac, t: TidId)
    requires Shape(s)
    ensures Grew(s, Enqueue(s, q, t))
  {
    hide QueuedOk, ChainOk;
    QueuedAt(s, t);
  }

  lemma DequeueGrew(s: Sc, q: Ac)
    requires Shape(s) && s.tidq[q] != []
    ensures Grew(s, Dequeue(s, q))
  {
    hide QueuedOk, ChainOk;
    QueuedAt(s, s.tidq[q][0]);
  }

  // ---------------------------------------------------------------------------------
  // Scheduling

  lemma SchedTidGrew(s: Sc, t: TidId, limit: nat)
    requires Shape(s)
    ensures Grew(s, SchedTid(s, t, limit))
  {
    hide Grew, Shape, Chosen, ChainOk, QueuedOk, AddFrames, QueueOf, Submit, SetTid;
    var tid := s.tids[t];
    QueuedAt(s, t);
    var c := if tid.aggr then Chosen(s, t, limit) else if tid.bufq == [] then 0 else 1;
    if c == 0 {
      GrewSame(s, s);
    } else {
      PrefixOk(tid.bufq, t, c);
      var tid' := if tid.aggr then tid.(win := AddFrames(tid.win, tid.bufq[..c]), bufq := tid.bufq[c..])
                  else tid.(bufq := tid.bufq[c..]);
      SetTidGrew(s, t, tid');
      GrewShape(s, SetTid(s, t, tid'));
      SubmitGrew(SetTid(s, t, tid'), QueueOf(t), tid.bufq[..c]);
      GrewTrans(s, SetTid(s, t, tid'), Submit(SetTid(s, t, tid'), QueueOf(t), tid.bufq[..c]));
    }
  }

  lemma GrewShape(s: Sc, r: Sc)
    requires Grew(s, r)
    ensures Shape(r)
  {}

  lemma {:induction false} ScheduleGrew(s: Sc, q: Ac, limit: nat)
    requires Shape(s)
    ensures Grew(s, Schedule(s, q, limit))
    decreases |s.tidq[q]|
  {
    hide Grew, Shape, SchedTid, Enqueue;
    if s.tidq[q] == [] {
      GrewSame(s, s);
    } else {
      var t := s.tidq[q][0];
      var s1 := Dequeue(s, q);
      DequeueGrew(s, q);
      GrewShape(s, s1);
      if s.tids[t].paused {
        ScheduleGrew(s1, q, limit);
        GrewTrans(s, s1, Schedule(s1, q, limit));
      } else {
        var s2 := SchedTid(s1, t, limit);
        SchedTidGrew(s1, t, limit);
        GrewShape(s1, s2);
        GrewTrans(s, s1, s2);
        EnqueueGrew(s2, q, t);
        GrewTrans(s, s2, Enqueue(s2, q, t));
      }
    }
  }

  lemma ResumeGrew(s: Sc, t: TidId, limit: nat)
    requires Shape(s)
    ensures Grew(s, Resume(s, t, limit))
  {
    hide Grew, Shape, Schedule, Enqueue, QueueOf, QueuedOk;
    QueuedAt(s, t);
    var s1 := SetTid(s, t, s.tids[t].(paused := false));
    SetTidGrew(s, t, s.tids[t].(paused := false));
    GrewShape(s, s1);
    if s.tids[t].bufq != [] {
      var s2 := Enqueue(s1, QueueOf(t), t);
      EnqueueGrew(s1, QueueOf(t), t);
      GrewShape(s1, s2);
      ScheduleGrew(s2, QueueOf(t), limit);
      GrewTrans(s, s1, s2);
      GrewTrans(s, s2, Schedule(s2, QueueOf(t), limit));
    }
  }

  // ---------------------------------------------------------------------------------
  // Completions

  lemma BarTxGrew(s: Sc, t: TidId, f: Frame)
    requires Shape(s) && f.retries >= OWLMAX_RETRIES
    ensures Grew(s, BarTx(s, t, f))
  {
    hide Grew, Shape, QueueOf, QueuedOk;
    QueuedAt(s, t);
    SetTidGrew(s, t, s.tids[t].(paused := true));
    GrewShape(s, Pause(s, t));
    SubmitGrew(Pause(s, t), QueueOf(t), [BarOf(s, t, f)]);
    GrewTrans(s, Pause(s, t), BarTx(s, t, f));
  }

  /** The loop over an aggregate touches no queue, and collects frames fit for them. */
  lemma {:induction false} CompFramesGrew(a: Acc, t: TidId, c: seq<Frame>, st: TxStat, useBa: bool)
    requires Shape(a.s) && AccOk(a, t) && forall f :: f in c ==> f.tid == t && f.comp == Aggr
    ensures var r := CompFrames(a, t, c, st, useBa); Grew(a.s, r.s) && AccOk(r, t)
    decreases |c|
  {
    hide Grew, Shape, Acked, CompSubframe, AccOk;
    if c == [] {
      GrewSame(a.s, a.s);
    } else {
      var acked := useBa && Acked(st, c[0].seqno);
      var b := CompSubframe(a, t, c[0], |c| == 1, acked);
      CompSubframeGrew(a, t, c[0], |c| == 1, acked);
      GrewShape(a.s, b.s);
      CompFramesGrew(b, t, c[1..], st, useBa);
      GrewTrans(a.s, b.s, CompFrames(b, t, c[1..], st, useBa).s);
    }
  }

  lemma CompSubframeGrew(a: Acc, t: TidId, f: Frame, last: bool, acked: bool)
    requires Shape(a.s) && AccOk(a, t) && f.tid == t && f.comp == Aggr
    ensures var r := CompSubframe(a, t, f, last, acked); Grew(a.s, r.s) && AccOk(r, t)
  {
    hide Grew, Shape, Resolve;
    QueuedAt(a.s, t);
    var tid := a.s.tids[t].(win := Resolve(a.s.tids[t].win, f.seqno));
    SetTidGrew(a.s, t, tid);
    GrewShape(a.s, SetTid(a.s, t, tid));
    GrewSame(SetTid(a.s, t, tid), FreeBuf(SetTid(a.s, t, tid), f));
    GrewTrans(a.s, SetTid(a.s, t, tid), FreeBuf(SetTid(a.s, t, tid), f));
    GrewSame(a.s, ToggleIf(a.s, f, last).0);
  }

  lemma PrependGrew(s: Sc, t: TidId, p: seq<Frame>)
    requires Shape(s) && QueuedOk(p, t)
    ensures var s1 := SetTid(s, t, s.tids[t].(bufq := p + s.tids[t].bufq)); Grew(s, Enqueue(s1, QueueOf(t), t))
  {
    hide Grew, Shape, Enqueue, QueueOf;
    QueuedAt(s, t);
    var s1 := SetTid(s, t, s.tids[t].(bufq := p + s.tids[t].bufq));
    SetTidGrew(s, t, s.tids[t].(bufq := p + s.tids[t].bufq));
    GrewShape(s, s1);
    EnqueueGrew(s1, QueueOf(t), t);
    GrewTrans(s, s1, Enqueue(s1, QueueOf(t), t));
  }

  lemma CompFinishGrew(a: Acc, t: TidId)
    requires Shape(a.s) && AccOk(a, t)
    ensures Grew(a.s, CompFinish(a, t))
  {
    hide Grew, Shape, BarTx, Enqueue, QueueOf, QueuedOk;
    var s1 := if a.bar == [] then a.s else BarTx(a.s, t, a.bar[0]);
    if a.bar == [] { GrewSame(a.s, a.s); } else { BarTxGrew(a.s, t, a.bar[0]); }
    GrewShape(a.s, s1);
    if a.bfq != [] {
      PrependGrew(s1, t, a.bfq);
      GrewTrans(a.s, s1, CompFinish(a, t));
    }
  }

  lemma CompAggrGrew(s: Sc, t: TidId, c: Chain, st: TxStat)
    requires Shape(s) && forall f :: f in c ==> f.tid == t && f.comp == Aggr
    ensures Grew(s, CompAggr(s, t, c, st))
  {
    hide Grew, Shape, CompFrames, CompFinish;
    var a := CompFrames(Acc(s, [], [], 0), t, c, st, UseBa(st));
    CompFramesGrew(Acc(s, [], [], 0), t, c, st, UseBa(st));
    GrewShape(s, a.s);
    CompFinishGrew(a, t);
    GrewTrans(s, a.s, CompFinish(a, t));
  }

  lemma CompUnaggrGrew(s: Sc, t: TidId, f: Frame, st: TxStat, linked: bool)
    requires Shape(s) && f.tid == t && f.comp == Aggr
    ensures Grew(s, CompUnaggr(s, t, f, st, linked))
  {
    hide Grew, Shape, Enqueue, QueueOf, Resolve, BarTx;
    QueuedAt(s, t);
    var s1 := UpdateBaw(s, t, f.seqno);
    SetTidGrew(s, t, s.tids[t].(win := Resolve(s.tids[t].win, f.seqno)));
    GrewShape(s, s1);
    if !st.xretry {
      GrewSame(s1, FreeBuf(s1, f));
      GrewTrans(s, s1, FreeBuf(s1, f));
    } else if f.retries >= OWLMAX_RETRIES {
      BarTxGrew(s1, t, f);
      GrewTrans(s, s1, BarTx(s1, t, f));
    } else {
      var (s2, g) := ToggleIf(s, f, !linked);
      GrewSame(s, s2);
      GrewShape(s, s2);
      PrependGrew(s2, t, [SetRetry(g)]);
      GrewTrans(s, s2, CompUnaggr(s, t, f, st, linked));
    }
  }

  lemma TidCleanupGrew(s: Sc, t: TidId, limit: nat)
    requires Shape(s)
    ensures Grew(s, TidCleanup(s, t, limit))
  {
    hide Grew, Shape, Resume, QueuedOk;
    QueuedAt(s, t);
    var s1 := SetTid(s, t, s.tids[t].(incomp := s.tids[t].incomp - 1));
    SetTidGrew(s, t, s.tids[t].(incomp := s.tids[t].incomp - 1));
    GrewShape(s, s1);
    if s1.tids[t].incomp == 0 {
      var s2 := SetTid(s1, t, s1.tids[t].(cleanup := false));
      SetTidGrew(s1, t, s1.tids[t].(cleanup := false));
      GrewShape(s1, s2);
      ResumeGrew(s2, t, limit);
      GrewTrans(s, s1, s2);
      GrewTrans(s, s2, Resume(s2, t, limit));
    }
  }

  lemma {:induction false} CompCleanupGrew(s: Sc, t: TidId, c: seq<Frame>, limit: nat)
    requires Shape(s)
    ensures Grew(s, CompCleanup(s, t, c, limit))
    decreases |c|
  {
    hide Grew, Shape, TidCleanup, FreeBuf;
    if c == [] {
      GrewSame(s, s);
    } else {
      var s1 := FreeBuf(s, c[0]);
      FreeBufGrew(s, c[0]);
      GrewShape(s, s1);
      var s2 := TidCleanup(s1, t, limit);
      TidCleanupGrew(s1, t, limit);
      GrewShape(s1, s2);
      GrewTrans(s, s1, s2);
      if s1.tids[t].incomp != 1 {
        CompCleanupGrew(s2, t, c[1..], limit);
        GrewTrans(s, s2, CompCleanup(s2, t, c[1..], limit));
      }
    }
  }

  lemma FreeBufGrew(s: Sc, f: Frame)
    requires Shape(s)
    ensures Grew(s, FreeBuf(s, f))
  {
    hide Grew, Shape;
    GrewSame(s, FreeBuf(s, f));
  }

  lemma DisableGrew(s: Sc, t: TidId, limit: nat)
    requires Shape(s)
    ensures Grew(s, Disable(s, t, limit))
  {
    hide Grew, Shape, Resume, FreeAll, Flush, FlushRetried;
    var s0 := SetTid(s, t, s.tids[t].(aggr := false));
    var s1 := FreeAll(s0, s0.tids[t].bufq);
    var tid := CleanupTid(s0.tids[t]);
    FreeAllKeepsTidq(s0, s0.tids[t].bufq);
    SetTidGrew(s, t, tid);
    GrewShape(s, SetTid(s, t, tid));
    GrewSame(SetTid(s, t, tid), SetTid(s1, t, tid));
    GrewTrans(s, SetTid(s, t, tid), SetTid(s1, t, tid));
    GrewShape(s, SetTid(s1, t, tid));
    if !tid.cleanup {
      ResumeGrew(SetTid(s1, t, tid), t, limit);
      GrewTrans(s, SetTid(s1, t, tid), Resume(SetTid(s1, t, tid), t, limit));
    }
  }

  lemma DrainGrew(s: Sc, t: TidId)
    requires Shape(s)
    ensures Grew(s, Drain(s, t))
  {
    hide Grew, Shape, FreeAll;
    FreeAllKeepsTidq(s, s.tids[t].bufq);
    SetTidGrew(s, t, DrainTid(s.tids[t]));
    GrewShape(s, SetTid(s, t, DrainTid(s.tids[t])));
    GrewSame(SetTid(s, t, DrainTid(s.tids[t])), Drain(s, t));
    GrewTrans(s, SetTid(s, t, DrainTid(s.tids[t])), Drain(s, t));
  }

  lemma CompBarGrew(s: Sc, t: TidId, f: Frame, st: TxStat, linked: bool, limit: nat)
    requires Shape(s) && ChainOk([f], QueueOf(t)) && f.comp == Bar && f.tid == t
    ensures Grew(s, CompBar(s, t, f, st, linked, limit))
  {
    hide Grew, Shape, Resume, Disable, Drain, FreeBuf, QueueOf;
    if !st.xretry {
      ResumeGrew(s, t, limit);
      GrewShape(s, Resume(s, t, limit));
      FreeBufGrew(Resume(s, t, limit), f);
      GrewTrans(s, Resume(s, t, limit), FreeBuf(Resume(s, t, limit), f));
    } else {
      var s1 := Disable(s, t, limit);
      DisableGrew(s, t, limit);
      GrewShape(s, s1);
      DrainGrew(s1, t);
      GrewShape(s1, Drain(s1, t));
      GrewTrans(s, s1, Drain(s1, t));
      FreeBufGrew(Drain(s1, t), f);
      GrewTrans(s, Drain(s1, t), FreeBuf(Drain(s1, t), f));
    }
  }

  lemma PopShape(s: Sc, q: Ac)
    requires Shape(s) && s.hw[q] != []
    ensures Shape(Pop(s, q)) && ChainOk(s.hw[q][0], q)
  {
    hide ChainOk, QueuedOk;
    var r := Pop(s, q);
    forall p, i | 0 <= p < WME_NUM_AC && 0 <= i < |r.hw[p]| ensures ChainOk(r.hw[p][i], p) {
      if p == q { assert r.hw[p][i] == s.hw[p][i + 1]; }
    }
  }

  /** One completion, its entry taken off. */
  lemma ProcessGrew(s: Sc, q: Ac, st: TxStat, linked: bool, limit: nat)
    requires Shape(s) && s.hw[q] != []
    ensures Grew(Pop(s, q), Process(s, q, st, linked, limit))
  {
    hide Grew, Shape, CompBar, CompCleanup, CompUnaggr, CompAggr, TidCleanup, FreeBuf, QueueOf;
    var c := s.hw[q][0];
    var t := c[0].tid;
    var s1 := Pop(s, q);
    PopShape(s, q);
    match c[0].comp
    case Normal =>
      if s.tids[t].cleanup {
        var s2 := TidCleanup(s1, t, limit);
        TidCleanupGrew(s1, t, limit);
        GrewShape(s1, s2);
        FreeBufGrew(s2, c[0]);
        GrewTrans(s1, s2, FreeBuf(s2, c[0]));
      } else {
        FreeBufGrew(s1, c[0]);
      }
    case Bar =>
      assert c == [c[0]];
      CompBarGrew(s1, t, c[0], st, linked, limit);
    case Aggr =>
      assert c[0] in c;
      if s.tids[t].cleanup { CompCleanupGrew(s1, t, c, limit); }
      else if |c| == 1 { CompUnaggrGrew(s1, t, c[0], st, linked); }
      else { CompAggrGrew(s1, t, c, st); }
  }

  // ---------------------------------------------------------------------------------
  // The other events

  lemma ReceiveGrew(s: Sc, t: TidId, known: bool, skb: nat, pktlen: nat, key: KeyType)
    requires Shape(s)
    ensures Grew(s, Receive(s, t, known, skb, pktlen, key))
  {
    hide Grew, Shape, Enqueue, QueueOf, AddFrame, Within, NextSeq;
    var r := Receive(s, t, known, skb, pktlen, key);
    if !known || s.free == [] {
      GrewSame(s, r);
    } else {
      var (s1, f) := Prepared(s, t, skb, pktlen, key);
      QueuedAt(s, t);
      NextSmall(s.tids[t].win.seqStart);
      var queued := s1.tids[t].(bufq := s1.tids[t].bufq + [f]);
      var sent := s1.tids[t].(win := if s.tids[t].aggr then AddFrame(s1.tids[t].win, f)
                                     else s1.tids[t].win.(seqStart := NextSeq(s1.tids[t].win.seqStart)));
      SetTidGrew(s, t, sent);
      GrewShape(s, SetTid(s, t, sent));
      GrewSame(SetTid(s, t, sent), SetTid(s1, t, sent));
      GrewTrans(s, SetTid(s, t, sent), SetTid(s1, t, sent));
      GrewShape(s, SetTid(s1, t, sent));
      SubmitGrew(SetTid(s1, t, sent), QueueOf(t), [f]);
      GrewTrans(s, SetTid(s1, t, sent), Submit(SetTid(s1, t, sent), QueueOf(t), [f]));
      if s.tids[t].aggr {
        SetTidGrew(s, t, queued);
        GrewShape(s, SetTid(s, t, queued));
        GrewSame(SetTid(s, t, queued), SetTid(s1, t, queued));
        GrewTrans(s, SetTid(s, t, queued), SetTid(s1, t, queued));
        GrewShape(s, SetTid(s1, t, queued));
        EnqueueGrew(SetTid(s1, t, queued), QueueOf(t), t);
        GrewTrans(s, SetTid(s1, t, queued), Enqueue(SetTid(s1, t, queued), QueueOf(t), t));
      }
    }
  }

  lemma {:induction false} DrainScheduledGrew(s: Sc, q: Ac)
    requires Shape(s)
    ensures Grew(s, DrainScheduled(s, q))
    decreases |s.tidq[q]|
  {
    hide Grew, Shape, Drain;
    if s.tidq[q] == [] {
      GrewSame(s, s);
    } else {
      var s1 := Dequeue(s, q);
      DequeueGrew(s, q);
      GrewShape(s, s1);
      DrainGrew(s1, s.tidq[q][0]);
      GrewShape(s1, DrainFirst(s, q));
      GrewTrans(s, s1, DrainFirst(s, q));
      DrainScheduledGrew(DrainFirst(s, q), q);
      GrewTrans(s, DrainFirst(s, q), DrainScheduled(s, q));
    }
  }

  /** Every event keeps the entries well-formed; only a completion takes one off a hardware queue. */
  lemma StepGrew(s: Sc, e: Event)
    requires Shape(s)
    ensures Shape(Step(s, e))
    ensures !e.Complete? && !e.CompleteStopped? ==> HwGrew(s, Step(s, e))
  {
    hide Shape, Process, Schedule, Receive, Disable, DrainScheduled;
    match e
    case Recv(t, known, skb, pktlen, key) => ReceiveGrew(s, t, known, skb, pktlen, key);
    case Complete(q, st, linked, limit, next) =>
      if s.hw[q] == [] {
        GrewSame(s, s);
      } else {
        var s1 := Process(s, q, st, linked, limit);
        ProcessGrew(s, q, st, linked, limit);
        ScheduleGrew(s1, q, next);
        GrewTrans(Pop(s, q), s1, Schedule(s1, q, next));
      }
    case CompleteStopped(q, st, linked, limit) =>
      if s.hw[q] == [] { GrewSame(s, s); } else { ProcessGrew(s, q, st, linked, limit); }
    case EnableAggr(t) =>
      QueuedAt(s, t);
      SetTidGrew(s, t, s.tids[t].(aggr := true));
    case DisableAggr(t, limit) =>
      GrewSame(s, s);
      DisableGrew(s, t, limit);
    case DrainTids(q) => DrainScheduledGrew(s, q);
  }

  lemma AttachedShape(k2: bool, n: nat)
    ensures Shape(Attached(k2, n))
  {}

  /** Over every run, whatever the events, every entry is well-formed; every BAR carries ten retries or more. */
  lemma {:induction false} RunShape(s: Sc, es: seq<Event>)
    requires Shape(s)
    ensures Shape(Run(s, es))
    decreases |es|
  {
    hide Shape, Step, HwGrew;
    if es != [] {
      StepGrew(s, es[0]);
      RunShape(Step(s, es[0]), es[1..]);
    }
  }
}
