/**
 What the data path never loses or duplicates. Own(s, x) counts a token x in a state: a
 Buffer token for every place that holds the buffer, an Skb token for every place that holds
 the frame (a queue, or the list handed back to the host), and as many Credit tokens as
 completions the queued frames can still take. Every routine keeps the first two kinds, and
 can only spend the third.
 */
module Conservation {
  import opened Frames
  import opened Window
  import opened Softc

  datatype Token = Buffer(id: nat) | Skb(id: nat) | Credit

  /** A data frame can be completed once for each retry left, and once more as a BAR. */
  function Weight(f: Frame): nat {
    if f.comp != Aggr then 1 else if f.retries >= OWLMAX_RETRIES then 2 else 12 - f.retries
  }

  function Tok(f: Frame, x: Token): nat {
    match x
    case Buffer(b) => if f.buf == b then 1 else 0
    case Skb(k) => if f.skb == k then 1 else 0
    case Credit => Weight(f)
  }

  function Toks(q: seq<Frame>, x: Token): nat {
    if q == [] then 0 else Tok(q[0], x) + Toks(q[1..], x)
  }

  function ChainToks(h: seq<Chain>, x: Token): nat {
    if h == [] then 0 else Toks(h[0], x) + ChainToks(h[1..], x)
  }

  function HwToks(hw: seq<seq<Chain>>, x: Token): nat {
    if hw == [] then 0 else ChainToks(hw[0], x) + HwToks(hw[1..], x)
  }

  function TidToks(tids: seq<Tid>, x: Token): nat {
    if tids == [] then 0 else Toks(tids[0].bufq, x) + TidToks(tids[1..], x)
  }

  function Bufs(ids: seq<nat>, x: Token): nat {
    if ids == [] then 0 else (if x == Buffer(ids[0]) then 1 else 0) + Bufs(ids[1..], x)
  }

  function Skbs(ids: seq<nat>, x: Token): nat {
    if ids == [] then 0 else (if x == Skb(ids[0]) then 1 else 0) + Skbs(ids[1..], x)
  }

  function Own(s: Sc, x: Token): nat {
    Bufs(s.free, x) + Bufs([s.held], x) + Skbs(s.done, x) + TidToks(s.tids, x) + HwToks(s.hw, x)
  }

  /** Buffers and frames are exactly kept; at least n credits are spent. */
  predicate Kept(x: Token, before: int, after: int, n: int) {
    if x.Credit? then after + n <= before else after == before
  }

  // ---------------------------------------------------------------------------------
  // Sums

  lemma {:induction false} ToksConcat(a: seq<Frame>, b: seq<Frame>, x: Token)
    ensures Toks(a + b, x) == Toks(a, x) + Toks(b, x)
  {
    hide Tok;
    if a == [] {
      assert a + b == b;
    } else {
      assert (a + b)[1..] == a[1..] + b;
      ToksConcat(a[1..], b, x);
    }
  }

  lemma ToksOne(f: Frame, x: Token)
    ensures Toks([f], x) == Tok(f, x)
  {
    hide Tok;
    assert Toks([f][1..], x) == 0;
  }

  lemma ToksNone(q: seq<Frame>, x: Token)
    requires q == []
    ensures Toks(q, x) == 0
  {}

  lemma ToksSplit(q: seq<Frame>, c: nat, x: Token)
    requires c <= |q|
    ensures Toks(q, x) == Toks(q[..c], x) + Toks(q[c..], x)
  {
    hide *;
    assert q == q[..c] + q[c..];
    ToksConcat(q[..c], q[c..], x);
  }

  lemma {:induction false} ChainAppend(h: seq<Chain>, c: Chain, x: Token)
    ensures ChainToks(h + [c], x) == ChainToks(h, x) + Toks(c, x)
  {
    hide Toks;
    if h == [] {
      assert h + [c] == [c] && [c][1..] == [];
    } else {
      assert (h + [c])[1..] == h[1..] + [c];
      ChainAppend(h[1..], c, x);
    }
  }

  lemma {:induction false} HwUpdate(hw: seq<seq<Chain>>, q: nat, h: seq<Chain>, x: Token)
    requires q < |hw|
    ensures HwToks(hw[q := h], x) + ChainToks(hw[q], x) == HwToks(hw, x) + ChainToks(h, x)
  {
    hide ChainToks;
    if q == 0 {
      assert hw[q := h][1..] == hw[1..];
    } else {
      assert hw[q := h][1..] == hw[1..][q - 1 := h];
      HwUpdate(hw[1..], q - 1, h, x);
    }
  }

  lemma {:induction false} TidUpdate(tids: seq<Tid>, t: nat, tid: Tid, x: Token)
    requires t < |tids|
    ensures TidToks(tids[t := tid], x) + Toks(tids[t].bufq, x) == TidToks(tids, x) + Toks(tid.bufq, x)
  {
    hide Toks;
    if t == 0 {
      assert tids[t := tid][1..] == tids[1..];
    } else {
      assert tids[t := tid][1..] == tids[1..][t - 1 := tid];
      TidUpdate(tids[1..], t - 1, tid, x);
    }
  }

  lemma {:induction false} BufsAppend(ids: seq<nat>, i: nat, x: Token)
    ensures Bufs(ids + [i], x) == Bufs(ids, x) + Bufs([i], x)
  {
    if ids == [] {
      assert ids + [i] == [i];
    } else {
      assert (ids + [i])[1..] == ids[1..] + [i];
      BufsAppend(ids[1..], i, x);
    }
  }

  lemma {:induction false} SkbsAppend(ids: seq<nat>, i: nat, x: Token)
    ensures Skbs(ids + [i], x) == Skbs(ids, x) + Skbs([i], x)
  {
    if ids == [] {
      assert ids + [i] == [i];
    } else {
      assert (ids + [i])[1..] == ids[1..] + [i];
      SkbsAppend(ids[1..], i, x);
    }
  }

  // ---------------------------------------------------------------------------------
  // Each routine

  lemma OwnSetTid(s: Sc, t: TidId, tid: Tid, x: Token)
    ensures Own(SetTid(s, t, tid), x) + Toks(s.tids[t].bufq, x) == Own(s, x) + Toks(tid.bufq, x)
  {
    hide Toks, Bufs, Skbs, HwToks, TidToks;
    TidUpdate(s.tids, t, tid, x);
  }

  lemma OwnSubmit(s: Sc, q: Ac, c: Chain, x: Token)
    ensures Own(Submit(s, q, c), x) == Own(s, x) + Toks(c, x)
  {
    hide Toks, Bufs, Skbs, HwToks, TidToks, ChainToks;
    HwUpdate(s.hw, q, s.hw[q] + [c], x);
    ChainAppend(s.hw[q], c, x);
  }

  lemma TokParts(f: Frame, x: Token)
    ensures Bufs([f.buf], x) == if x == Buffer(f.buf) then 1 else 0
    ensures Skbs([f.skb], x) == if x == Skb(f.skb) then 1 else 0
    ensures Kept(x, Tok(f, x), Bufs([f.buf], x) + Skbs([f.skb], x), 1)
  {
    assert Bufs([f.buf][1..], x) == 0 && Skbs([f.skb][1..], x) == 0;
  }

  lemma OwnFreeBuf(s: Sc, f: Frame, x: Token)
    ensures Kept(x, Own(s, x) + Tok(f, x), Own(FreeBuf(s, f), x), 1)
  {
    hide Tok, Toks, HwToks, TidToks, Bufs, Skbs;
    TokParts(f, x);
    BufsAppend(s.free, s.held, x);
    SkbsAppend(s.done, f.skb, x);
  }

  lemma OwnToggleIf(s: Sc, f: Frame, b: bool, x: Token)
    ensures var r := ToggleIf(s, f, b); Own(r.0, x) + Tok(r.1, x) == Own(s, x) + Tok(f, x)
  {
    hide Toks, HwToks, TidToks, Skbs, Bufs;
    TokParts(f, x);
    TokParts(f.(buf := s.held), x);
  }

  lemma TokSetRetry(f: Frame, x: Token)
    requires f.comp == Aggr && f.retries < OWLMAX_RETRIES
    ensures Kept(x, Tok(f, x), Tok(SetRetry(f), x), 1)
  {}

  lemma TokSetRetryBar(f: Frame, x: Token)
    requires f.comp != Aggr
    ensures Tok(SetRetry(f), x) == Tok(f, x)
  {}

  lemma {:induction false} OwnFreeAll(s: Sc, q: seq<Frame>, x: Token)
    ensures Kept(x, Own(s, x) + Toks(q, x), Own(FreeAll(s, q), x), |q|)
    decreases |q|
  {
    hide Own, Tok;
    if q != [] {
      OwnFreeBuf(s, q[0], x);
      OwnFreeAll(FreeBuf(s, q[0]), q[1..], x);
    }
  }

  lemma OwnEnqueue(s: Sc, q: Ac, t: TidId, x: Token)
    ensures Own(Enqueue(s, q, t), x) == Own(s, x)
  {
    hide Toks, Bufs, Skbs, HwToks, TidToks;
    TidUpdate(s.tids, t, s.tids[t].(sched := true), x);
  }

  lemma OwnSendPrefix(s: Sc, t: TidId, c: nat, x: Token)
    requires 0 < c <= |s.tids[t].bufq|
    ensures Own(SendPrefix(s, t, c), x) == Own(s, x)
  {
    hide Own, Toks, Submit, AddFrames, QueueOf;
    var tid := s.tids[t];
    var tid' := tid.(win := AddFrames(tid.win, tid.bufq[..c]), bufq := tid.bufq[c..]);
    OwnSetTid(s, t, tid', x);
    OwnSubmit(SetTid(s, t, tid'), QueueOf(t), tid.bufq[..c], x);
    ToksSplit(tid.bufq, c, x);
  }

  lemma OwnSchedTid(s: Sc, t: TidId, limit: nat, x: Token)
    ensures Own(SchedTid(s, t, limit), x) == Own(s, x)
  {
    hide Own, Toks, Submit, SendPrefix, Chosen, QueueOf;
    var tid := s.tids[t];
    if tid.aggr {
      var c := Chosen(s, t, limit);
      if c > 0 { OwnSendPrefix(s, t, c, x); }
    } else if tid.bufq != [] {
      var tid' := tid.(bufq := tid.bufq[1..]);
      OwnSetTid(s, t, tid', x);
      OwnSubmit(SetTid(s, t, tid'), QueueOf(t), tid.bufq[..1], x);
      ToksSplit(tid.bufq, 1, x);
    }
  }

  lemma OwnDequeue(s: Sc, q: Ac, x: Token)
    requires s.tidq[q] != []
    ensures Own(Dequeue(s, q), x) == Own(s, x)
  {
    hide Toks, Bufs, Skbs, HwToks, TidToks;
    var t := s.tidq[q][0];
    TidUpdate(s.tids, t, s.tids[t].(sched := false), x);
  }

  lemma {:induction false} OwnSchedule(s: Sc, q: Ac, limit: nat, x: Token)
    ensures Own(Schedule(s, q, limit), x) == Own(s, x)
    decreases |s.tidq[q]|
  {
    hide Own, SchedTid, Enqueue;
    if s.tidq[q] != [] {
      var t := s.tidq[q][0];
      var s1 := Dequeue(s, q);
      OwnDequeue(s, q, x);
      if s.tids[t].paused {
        OwnSchedule(s1, q, limit, x);
      } else {
        OwnSchedTid(s1, t, limit, x);
        OwnEnqueue(SchedTid(s1, t, limit), q, t, x);
      }
    }
  }

  lemma OwnResume(s: Sc, t: TidId, limit: nat, x: Token)
    ensures Own(Resume(s, t, limit), x) == Own(s, x)
  {
    hide Own, Enqueue, Schedule, QueueOf;
    var s1 := SetTid(s, t, s.tids[t].(paused := false));
    OwnSetTid(s, t, s.tids[t].(paused := false), x);
    OwnEnqueue(s1, QueueOf(t), t, x);
    OwnSchedule(Enqueue(s1, QueueOf(t), t), QueueOf(t), limit, x);
  }

  lemma OwnUpdateBaw(s: Sc, t: TidId, seqno: nat, x: Token)
    ensures Own(UpdateBaw(s, t, seqno), x) == Own(s, x)
  {
    hide Own, Resolve;
    OwnSetTid(s, t, s.tids[t].(win := Resolve(s.tids[t].win, seqno)), x);
  }

  /** A frame that becomes a BAR keeps its buffer and its skb. */
  lemma OwnBarTx(s: Sc, t: TidId, f: Frame, x: Token)
    requires f.comp == Aggr
    ensures Kept(x, Own(s, x) + Tok(f, x), Own(BarTx(s, t, f), x), 1)
  {
    hide Own, QueueOf, Submit;
    var g := f.(comp := Bar, seqno := s.tids[t].win.seqStart, tid := t);
    OwnSetTid(s, t, s.tids[t].(paused := true), x);
    OwnSubmit(Pause(s, t), QueueOf(t), [g], x);
    ToksOne(g, x);
  }

  function OwnAcc(a: Acc, x: Token): nat {
    Own(a.s, x) + Toks(a.bfq, x) + if a.bar == [] then 0 else Tok(a.bar[0].(comp := Bar), x)
  }

  lemma OwnCompSubframe(a: Acc, t: TidId, f: Frame, last: bool, acked: bool, x: Token)
    requires f.comp == Aggr
    ensures Kept(x, OwnAcc(a, x) + Tok(f, x), OwnAcc(CompSubframe(a, t, f, last, acked), x), 1)
  {
    hide Own, Toks, FreeBuf, UpdateBaw;
    OwnUpdateBaw(a.s, t, f.seqno, x);
    if acked || (f.retries >= OWLMAX_RETRIES && a.bar != []) {
      OwnFreeBuf(UpdateBaw(a.s, t, f.seqno), f, x);
    } else if f.retries < OWLMAX_RETRIES {
      hide Tok;
      OwnToggleIf(a.s, f, last, x);
      var g := ToggleIf(a.s, f, last).1;
      TokSetRetry(g, x);
      ToksConcat(a.bfq, [SetRetry(g)], x);
      ToksOne(SetRetry(g), x);
    }
  }

  lemma {:induction false} OwnCompFrames(a: Acc, t: TidId, c: seq<Frame>, st: TxStat, useBa: bool, x: Token)
    requires forall f :: f in c ==> f.comp == Aggr
    ensures Kept(x, OwnAcc(a, x) + Toks(c, x), OwnAcc(CompFrames(a, t, c, st, useBa), x), |c|)
    decreases |c|
  {
    hide OwnAcc, Tok, CompSubframe, Acked;
    if c != [] {
      var acked := useBa && Acked(st, c[0].seqno);
      OwnCompSubframe(a, t, c[0], |c| == 1, acked, x);
      OwnCompFrames(CompSubframe(a, t, c[0], |c| == 1, acked), t, c[1..], st, useBa, x);
    }
  }

  lemma OwnPrepend(s: Sc, t: TidId, p: seq<Frame>, x: Token)
    ensures Own(SetTid(s, t, s.tids[t].(bufq := p + s.tids[t].bufq)), x) == Own(s, x) + Toks(p, x)
  {
    hide Own, Toks, SetTid;
    OwnSetTid(s, t, s.tids[t].(bufq := p + s.tids[t].bufq), x);
    ToksConcat(p, s.tids[t].bufq, x);
  }

  lemma OwnBarPlain(s: Sc, t: TidId, f: Frame, x: Token)
    ensures Own(BarTx(s, t, f), x) == Own(s, x) + Tok(f.(comp := Bar), x)
  {
    hide Own, QueueOf, Submit;
    var g := f.(comp := Bar, seqno := s.tids[t].win.seqStart, tid := t);
    OwnSetTid(s, t, s.tids[t].(paused := true), x);
    OwnSubmit(Pause(s, t), QueueOf(t), [g], x);
    ToksOne(g, x);
  }

  lemma OwnCompFinish(a: Acc, t: TidId, x: Token)
    ensures Own(CompFinish(a, t), x) == OwnAcc(a, x)
  {
    hide Own, Toks, Tok, BarTx, Enqueue, QueueOf, SetTid;
    var s1 := if a.bar == [] then a.s else BarTx(a.s, t, a.bar[0]);
    if a.bar != [] { OwnBarPlain(a.s, t, a.bar[0], x); }
    if a.bfq == [] {
      ToksNone(a.bfq, x);
    } else {
      OwnPrepend(s1, t, a.bfq, x);
      OwnEnqueue(SetTid(s1, t, s1.tids[t].(bufq := a.bfq + s1.tids[t].bufq)), QueueOf(t), t, x);
    }
  }

  // ---------------------------------------------------------------------------------
  // Teardown and the completion functions

  lemma FreeBufKeeps(s: Sc, f: Frame)
    ensures FreeBuf(s, f).tids == s.tids && FreeBuf(s, f).hw == s.hw && FreeBuf(s, f).tidq == s.tidq
  {}

  /** While more subframes are expected than the chain holds, the cleanup loop frees all of them. */
  lemma {:induction false} OwnCompCleanup(s: Sc, t: TidId, c: seq<Frame>, limit: nat, x: Token)
    requires |c| <= s.tids[t].incomp
    ensures Kept(x, Own(s, x) + Toks(c, x), Own(CompCleanup(s, t, c, limit), x), |c|)
    decreases |c|
  {
    hide Own, Tok, FreeBuf, Resume;
    if c != [] {
      var s1 := FreeBuf(s, c[0]);
      FreeBufKeeps(s, c[0]);
      OwnFreeBuf(s, c[0], x);
      OwnTidCleanup(s1, t, limit, x);
      if s1.tids[t].incomp == 1 {
        assert c[1..] == [];
      } else {
        OwnCompCleanup(TidCleanup(s1, t, limit), t, c[1..], limit, x);
      }
    }
  }

  lemma OwnTidCleanup(s: Sc, t: TidId, limit: nat, x: Token)
    ensures Own(TidCleanup(s, t, limit), x) == Own(s, x)
  {
    hide Own, Resume;
    var s1 := SetTid(s, t, s.tids[t].(incomp := s.tids[t].incomp - 1));
    OwnSetTid(s, t, s.tids[t].(incomp := s.tids[t].incomp - 1), x);
    OwnSetTid(s1, t, s1.tids[t].(cleanup := false), x);
    OwnResume(SetTid(s1, t, s1.tids[t].(cleanup := false)), t, limit, x);
  }

  lemma OwnEmptied(s: Sc, s1: Sc, t: TidId, x: Token)
    requires s1 == FreeAll(s, s.tids[t].bufq)
    ensures s1.tids[t].bufq == s.tids[t].bufq
    ensures Kept(x, Own(s, x) + Toks(s.tids[t].bufq, x), Own(s1, x), 0)
  {
    hide Own, Toks;
    FreeAllKeepsTidq(s, s.tids[t].bufq);
    OwnFreeAll(s, s.tids[t].bufq, x);
  }

  lemma OwnReplace(s: Sc, s1: Sc, t: TidId, tid: Tid, x: Token)
    requires tid.bufq == [] && s1 == FreeAll(s, s.tids[t].bufq)
    ensures Kept(x, Own(s, x), Own(SetTid(s1, t, tid), x), 0)
  {
    hide *;
    OwnEmptied(s, s1, t, x);
    OwnSetTid(s1, t, tid, x);
    ToksNone(tid.bufq, x);
    KeptLess(x, Own(s, x), Toks(s.tids[t].bufq, x), Own(s1, x), Own(SetTid(s1, t, tid), x), 0);
  }

  lemma KeptLess(x: Token, before: int, moved: int, between: int, after: int, n: nat)
    requires Kept(x, before + moved, between, n) && after + moved == between
    ensures Kept(x, before, after, 0)
  {}

  lemma OwnCleanup(s: Sc, t: TidId, limit: nat, x: Token)
    ensures Kept(x, Own(s, x), Own(Cleanup(s, t, limit), x), 0)
  {
    hide Own, FreeAll, Resume, Flush, FlushRetried;
    OwnReplace(s, FreeAll(s, s.tids[t].bufq), t, CleanupTid(s.tids[t]), x);
    OwnResume(SetTid(FreeAll(s, s.tids[t].bufq), t, CleanupTid(s.tids[t])), t, limit, x);
  }

  lemma OwnDrain(s: Sc, t: TidId, x: Token)
    ensures Kept(x, Own(s, x), Own(Drain(s, t), x), 0)
  {
    hide Own, FreeAll;
    OwnReplace(s, FreeAll(s, s.tids[t].bufq), t, DrainTid(s.tids[t]), x);
  }

  lemma OwnDisable(s: Sc, t: TidId, limit: nat, x: Token)
    ensures Kept(x, Own(s, x), Own(Disable(s, t, limit), x), 0)
  {
    hide Own, Cleanup;
    OwnSetTid(s, t, s.tids[t].(aggr := false), x);
    OwnCleanup(SetTid(s, t, s.tids[t].(aggr := false)), t, limit, x);
  }

  lemma OwnCompBar(s: Sc, t: TidId, f: Frame, st: TxStat, linked: bool, limit: nat, x: Token)
    requires f.comp == Bar
    ensures Kept(x, Own(s, x) + Tok(f, x), Own(CompBar(s, t, f, st, linked, limit), x),
                 if st.xretry && f.retries < OWLMAX_BAR_RETRIES then 0 else 1)
  {
    hide Own, Disable, Drain, FreeBuf, Resume, Submit, QueueOf, Tok;
    if !st.xretry {
      OwnResume(s, t, limit, x);
      OwnFreeBuf(Resume(s, t, limit), f, x);
    } else if f.retries >= OWLMAX_BAR_RETRIES {
      OwnDisable(s, t, limit, x);
      OwnDrain(Disable(s, t, limit), t, x);
      OwnFreeBuf(Drain(Disable(s, t, limit), t), f, x);
    } else {
      var r := ToggleIf(s, f, !linked);
      OwnToggleIf(s, f, !linked, x);
      OwnSubmit(r.0, QueueOf(t), [SetRetry(r.1)], x);
      ToksOne(SetRetry(r.1), x);
      TokSetRetryBar(r.1, x);
    }
  }

  lemma OwnCompUnaggr(s: Sc, t: TidId, f: Frame, st: TxStat, linked: bool, x: Token)
    requires f.comp == Aggr
    ensures Kept(x, Own(s, x) + Tok(f, x), Own(CompUnaggr(s, t, f, st, linked), x), 1)
  {
    hide Own, FreeBuf, UpdateBaw, BarTx, Enqueue, QueueOf, SetTid, Tok, Toks;
    OwnUpdateBaw(s, t, f.seqno, x);
    if !st.xretry {
      OwnFreeBuf(UpdateBaw(s, t, f.seqno), f, x);
    } else if f.retries >= OWLMAX_RETRIES {
      OwnBarTx(UpdateBaw(s, t, f.seqno), t, f, x);
    } else {
      var r := ToggleIf(s, f, !linked);
      var g := SetRetry(r.1);
      OwnToggleIf(s, f, !linked, x);
      TokSetRetry(r.1, x);
      OwnPrepend(r.0, t, [g], x);
      ToksOne(g, x);
      OwnEnqueue(SetTid(r.0, t, r.0.tids[t].(bufq := [g] + r.0.tids[t].bufq)), QueueOf(t), t, x);
    }
  }

  lemma OwnCompAggr(s: Sc, t: TidId, c: seq<Frame>, st: TxStat, x: Token)
    requires forall f :: f in c ==> f.comp == Aggr
    ensures Kept(x, Own(s, x) + Toks(c, x), Own(CompAggr(s, t, c, st), x), |c|)
  {
    hide Own, CompFrames, CompFinish, Tok;
    var a := Acc(s, [], [], 0);
    OwnCompFrames(a, t, c, st, UseBa(st), x);
    OwnCompFinish(CompFrames(a, t, c, st, UseBa(st)), t, x);
  }

  lemma OwnCompNormal(s: Sc, t: TidId, f: Frame, limit: nat, x: Token)
    ensures Kept(x, Own(s, x) + Tok(f, x), Own(CompNormal(s, t, f, limit), x), 1)
  {
    hide Own, TidCleanup, FreeBuf, Tok;
    OwnTidCleanup(s, t, limit, x);
    OwnFreeBuf(if s.tids[t].cleanup then TidCleanup(s, t, limit) else s, f, x);
  }

  /** The entry at the head of q is well-formed. */
  ghost predicate HeadShape(s: Sc, q: Ac)
    requires s.hw[q] != []
  {
    var c := s.hw[q][0];
    && (c[0].comp != Aggr ==> |c| == 1)
    && (c[0].comp == Aggr ==> forall f :: f in c ==> f.comp == Aggr)
    && (c[0].comp == Bar ==> c[0].retries >= OWLMAX_BAR_RETRIES)
  }

  /** And completing it cannot lose a subframe: a teardown's count covers it. */
  ghost predicate HeadSafe(s: Sc, q: Ac)
    requires s.hw[q] != []
  {
    var c := s.hw[q][0];
    HeadShape(s, q) && (c[0].comp == Aggr && s.tids[c[0].tid].cleanup ==> |c| <= s.tids[c[0].tid].incomp)
  }

  lemma OwnPop(s: Sc, q: Ac, x: Token)
    requires s.hw[q] != []
    ensures Own(s.(hw := s.hw[q := s.hw[q][1..]]), x) + Toks(s.hw[q][0], x) == Own(s, x)
  {
    hide Toks, Bufs, Skbs, HwToks, TidToks;
    HwUpdate(s.hw, q, s.hw[q][1..], x);
  }

  /** One completion keeps every buffer and every frame, and spends at least one credit. */
  lemma ProcessConserves(s: Sc, q: Ac, st: TxStat, linked: bool, limit: nat, x: Token)
    requires s.hw[q] != [] && HeadSafe(s, q)
    ensures Kept(x, Own(s, x), Own(Process(s, q, st, linked, limit), x), 1)
  {
    hide Own, Toks, Tok, CompNormal, CompBar, CompCleanup, CompUnaggr, CompAggr;
    var c := s.hw[q][0];
    var t := c[0].tid;
    var s1 := s.(hw := s.hw[q := s.hw[q][1..]]);
    OwnPop(s, q, x);
    if |c| == 1 {
      assert c == [c[0]];
      ToksOne(c[0], x);
    }
    match c[0].comp
    case Normal => OwnCompNormal(s1, t, c[0], limit, x);
    case Bar => OwnCompBar(s1, t, c[0], st, linked, limit, x);
    case Aggr =>
      if s.tids[t].cleanup { OwnCompCleanup(s1, t, c, limit, x); }
      else if |c| == 1 { OwnCompUnaggr(s1, t, c[0], st, linked, x); }
      else { OwnCompAggr(s1, t, c, st, x); }
  }

  /** Whatever the count, the cleanup loop creates nothing, and completes at least one subframe. */
  lemma {:induction false} CompCleanupSpends(s: Sc, t: TidId, c: seq<Frame>, limit: nat, x: Token)
    ensures Own(CompCleanup(s, t, c, limit), x) + (if x.Credit? && c != [] then 1 else 0) <= Own(s, x) + Toks(c, x)
    decreases |c|
  {
    hide Own, Tok, FreeBuf, Resume;
    if c != [] {
      var s1 := FreeBuf(s, c[0]);
      OwnFreeBuf(s, c[0], x);
      OwnTidCleanup(s1, t, limit, x);
      if s1.tids[t].incomp != 1 {
        CompCleanupSpends(TidCleanup(s1, t, limit), t, c[1..], limit, x);
      }
    }
  }

  /** In every state, one completion of a well-formed entry creates nothing and spends at least one credit. */
  lemma ProcessSpends(s: Sc, q: Ac, st: TxStat, linked: bool, limit: nat, x: Token)
    requires s.hw[q] != [] && HeadShape(s, q)
    ensures Own(Process(s, q, st, linked, limit), x) + (if x.Credit? then 1 else 0) <= Own(s, x)
  {
    hide Own, Toks, Tok, CompCleanup, Process;
    if HeadSafe(s, q) {
      ProcessConserves(s, q, st, linked, limit, x);
    } else {
      CleanupSpends(s, q, st, linked, limit, x);
    }
  }

  lemma CleanupSpends(s: Sc, q: Ac, st: TxStat, linked: bool, limit: nat, x: Token)
    requires s.hw[q] != [] && s.hw[q][0][0].comp == Aggr && s.tids[s.hw[q][0][0].tid].cleanup
    ensures Own(Process(s, q, st, linked, limit), x) + (if x.Credit? then 1 else 0) <= Own(s, x)
  {
    hide Own, Toks, Tok, CompCleanup;
    var c := s.hw[q][0];
    OwnPop(s, q, x);
    CompCleanupSpends(s.(hw := s.hw[q := s.hw[q][1..]]), c[0].tid, c, limit, x);
  }

  // ---------------------------------------------------------------------------------
  // Frames from the host

  /** How many of token x a new frame brings in, the buffer being taken from the free list. */
  function Gain(x: Token, skb: nat): nat {
    if x == Skb(skb) then 1 else if x == Credit then 12 else 0
  }

  lemma OwnPrepared(s: Sc, t: TidId, skb: nat, pktlen: nat, key: KeyType, x: Token)
    requires s.free != []
    ensures var r := Prepared(s, t, skb, pktlen, key);
            Kept(x, Own(s, x) + Gain(x, skb), Own(r.0, x) + Tok(r.1, x), 0)
  {
    hide Own, Toks, Bufs, Skbs, NextSeq;
    var r := Prepared(s, t, skb, pktlen, key);
    TokParts(r.1, x);
    OwnSetTid(s, t, s.tids[t].(seqNext := NextSeq(s.tids[t].seqNext)), x);
    OwnTakeFree(SetTid(s, t, s.tids[t].(seqNext := NextSeq(s.tids[t].seqNext))), x);
    FreshWeight(r.1, skb, x);
  }

  lemma FreshWeight(f: Frame, skb: nat, x: Token)
    requires f.skb == skb && f.retries == 0
    ensures x.Credit? ==> Tok(f, x) <= Gain(x, skb)
    ensures !x.Credit? ==> Tok(f, x) == (if x == Buffer(f.buf) then 1 else 0) + Gain(x, skb)
  {}

  lemma OwnTakeFree(s: Sc, x: Token)
    requires s.free != []
    ensures Own(s.(free := s.free[1..]), x) + Bufs([s.free[0]], x) == Own(s, x)
  {
    hide Skbs, HwToks, TidToks;
    assert Bufs([s.free[0]][1..], x) == 0;
  }

  lemma OwnReturn(s: Sc, skb: nat, x: Token)
    ensures Kept(x, Own(s, x) + Gain(x, skb), Own(s.(done := s.done + [skb]), x), 0)
  {
    hide Bufs, HwToks, TidToks;
    SkbsAppend(s.done, skb, x);
    assert Skbs([skb][1..], x) == 0;
  }

  lemma ReceiveConserves(s: Sc, t: TidId, known: bool, skb: nat, pktlen: nat, key: KeyType, x: Token)
    ensures Kept(x, Own(s, x) + Gain(x, skb), Own(Receive(s, t, known, skb, pktlen, key), x), 0)
  {
    hide Own, Toks, Tok, Prepared, Submit, Enqueue, QueueOf, SetTid, Within, AddFrame, NextSeq;
    if !known || s.free == [] {
      OwnReturn(s, skb, x);
    } else {
      var r := Prepared(s, t, skb, pktlen, key);
      OwnPrepared(s, t, skb, pktlen, key, x);
      OwnHandle(r.0, t, r.1, x);
    }
  }

  lemma NextSeqSmall(n: nat)
    ensures NextSeq(n) < SEQ_MAX
  {}

  lemma OwnHandle(s: Sc, t: TidId, f: Frame, x: Token)
    ensures Own(HandleAggr(s, t, f), x) == Own(s, x) + Tok(f, x)
    ensures Own(HandleNormal(s, t, f), x) == Own(s, x) + Tok(f, x)
  {
    hide Own, Toks, Tok, Submit, Enqueue, QueueOf, SetTid, Within, AddFrame, NextSeq;
    var tid := s.tids[t];
    var q := QueueOf(t);
    ToksOne(f, x);
    ToksConcat(tid.bufq, [f], x);
    OwnSetTid(s, t, tid.(bufq := tid.bufq + [f]), x);
    OwnEnqueue(SetTid(s, t, tid.(bufq := tid.bufq + [f])), q, t, x);
    OwnSetTid(s, t, tid.(win := AddFrame(tid.win, f)), x);
    OwnSubmit(SetTid(s, t, tid.(win := AddFrame(tid.win, f))), q, [f], x);
    NextSeqSmall(tid.win.seqStart);
    var w := tid.win.(seqStart := NextSeq(tid.win.seqStart));
    OwnSetTid(s, t, tid.(win := w), x);
    OwnSubmit(SetTid(s, t, tid.(win := w)), q, [f], x);
  }

  lemma {:induction false} OwnDrainScheduled(s: Sc, q: Ac, x: Token)
    ensures Kept(x, Own(s, x), Own(DrainScheduled(s, q), x), 0)
    decreases |s.tidq[q]|
  {
    hide Own, Drain;
    if s.tidq[q] != [] {
      OwnDequeue(s, q, x);
      OwnDrain(Dequeue(s, q), s.tidq[q][0], x);
      OwnDrainScheduled(DrainFirst(s, q), q, x);
    }
  }
}
