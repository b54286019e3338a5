/** Completion, teardown and reception keep the invariant of module Engine. */
module Completions {
  import opened Frames
  import opened Window
  import opened Softc
  import opened Session
  import opened Engine
  import opened Steps

  ghost predicate AccOk(a: Acc, t: TidId) {
    && QueuedOk(a.bfq, t) && (forall g :: g in a.bfq ==> g.isretried)
    && |a.bar| <= 1 && (a.bar != [] ==> a.bar[0].retries >= OWLMAX_RETRIES)
  }

  lemma UpdateBawInv(strict: bool, s: Sc, t: TidId, hand: Numbers, x: nat)
    requires Inv(strict, s, t, hand) && !s.tids[t].cleanup && x in hand
    ensures Inv(strict, UpdateBaw(s, t, x), t, hand - multiset{x})
    ensures !UpdateBaw(s, t, x).tids[t].cleanup
  {
    hide Inv, TidInv, Resolve, Held, QueuedOk, NormalsOk;
    Look(strict, s, t, hand);
    ResolveOne(strict, s.tids[t], Held(s, t) + hand, x);
    assert Held(s, t) + hand - multiset{x} == Held(s, t) + (hand - multiset{x});
    SetTidInv(strict, s, t, hand, s.tids[t].(win := Resolve(s.tids[t].win, x)), hand - multiset{x});
  }

  /** What a subframe leaves in hand: its number is resolved unless the frame will be retried. */
  lemma CompSubframeInv(strict: bool, a: Acc, t: TidId, f: Frame, last: bool, acked: bool, hand: Numbers)
    requires Inv(strict, a.s, t, hand) && !a.s.tids[t].cleanup && f.seqno in hand
    requires AccOk(a, t) && f.tid == t && f.comp == Aggr
    ensures var r := CompSubframe(a, t, f, last, acked);
            var kept := !acked && f.retries < OWLMAX_RETRIES;
            && Inv(strict, r.s, t, if kept then hand else hand - multiset{f.seqno})
            && !r.s.tids[t].cleanup && AccOk(r, t)
            && SeqNumbers(r.bfq) == SeqNumbers(a.bfq) + if kept then multiset{f.seqno} else multiset{}
  {
    hide Inv, UpdateBaw, SeqNumbers;
    UpdateBawInv(strict, a.s, t, hand, f.seqno);
    var s1 := UpdateBaw(a.s, t, f.seqno);
    SameInv(strict, s1, FreeBuf(s1, f), t, hand - multiset{f.seqno});
    var r := ToggleIf(a.s, f, last);
    SameInv(strict, a.s, r.0, t, hand);
    SeqNumbersOne(SetRetry(r.1));
    SeqNumbersConcat(a.bfq, [SetRetry(r.1)]);
  }

  lemma HandStep(m: Numbers, m': Numbers, c: seq<Frame>, kept: bool)
    requires c != [] && m' == m + if kept then multiset{c[0].seqno} else multiset{}
    ensures c[0].seqno in m + SeqNumbers(c)
    ensures m' + SeqNumbers(c[1..]) == if kept then m + SeqNumbers(c) else m + SeqNumbers(c) - multiset{c[0].seqno}
  {}

  lemma {:induction false} CompFramesInv(strict: bool, a: Acc, t: TidId, c: seq<Frame>, st: TxStat, useBa: bool)
    requires Inv(strict, a.s, t, SeqNumbers(a.bfq) + SeqNumbers(c)) && !a.s.tids[t].cleanup && AccOk(a, t)
    requires forall f :: f in c ==> f.tid == t && f.comp == Aggr
    ensures var r := CompFrames(a, t, c, st, useBa);
            Inv(strict, r.s, t, SeqNumbers(r.bfq)) && !r.s.tids[t].cleanup && AccOk(r, t)
    decreases |c|
  {
    hide Inv, CompSubframe, Acked, AccOk;
    if c == [] {
      assert SeqNumbers(a.bfq) + SeqNumbers(c) == SeqNumbers(a.bfq);
    } else {
      hide SeqNumbers;
      var f := c[0];
      var acked := useBa && Acked(st, f.seqno);
      var kept := !acked && f.retries < OWLMAX_RETRIES;
      var r := CompSubframe(a, t, f, |c| == 1, acked);
      HandStep(SeqNumbers(a.bfq), SeqNumbers(a.bfq) + if kept then multiset{f.seqno} else multiset{}, c, kept);
      CompSubframeInv(strict, a, t, f, |c| == 1, acked, SeqNumbers(a.bfq) + SeqNumbers(c));
      CompFramesInv(strict, r, t, c[1..], st, useBa);
    }
  }

  function BarOf(s: Sc, t: TidId, f: Frame): Frame {
    f.(comp := Bar, seqno := s.tids[t].win.seqStart, tid := t)
  }

  lemma BarTxInv(strict: bool, s: Sc, t: TidId, f: Frame, hand: Numbers)
    requires Inv(strict, s, t, hand) && f.retries >= OWLMAX_RETRIES
    ensures Inv(strict, BarTx(s, t, f), t, hand)
    ensures BarTx(s, t, f).tids == s.tids[t := s.tids[t].(paused := true)]
  {
    hide Inv, QueueOf;
    FlagsInv(strict, s, t, hand, t, s.tids[t].(paused := true));
    assert hand == hand + multiset{};
    SubmitInv(strict, Pause(s, t), t, hand, [BarOf(s, t, f)], hand);
  }

  lemma PrependInv(strict: bool, s: Sc, t: TidId, p: seq<Frame>)
    requires Inv(strict, s, t, SeqNumbers(p)) && QueuedOk(p, t) && !s.tids[t].cleanup
    requires forall g :: g in p ==> g.isretried
    ensures Inv(strict, SetTid(s, t, s.tids[t].(bufq := p + s.tids[t].bufq)), t, multiset{})
  {
    hide Inv, TidInv, Held, NormalsOk, SeqNumbers;
    Look(strict, s, t, SeqNumbers(p));
    PutBackMany(strict, s.tids[t], Held(s, t), p);
    assert Held(s, t) + multiset{} == Held(s, t);
    SetTidInv(strict, s, t, SeqNumbers(p), s.tids[t].(bufq := p + s.tids[t].bufq), multiset{});
  }

  lemma CompFinishInv(strict: bool, a: Acc, t: TidId)
    requires Inv(strict, a.s, t, SeqNumbers(a.bfq)) && !a.s.tids[t].cleanup && AccOk(a, t)
    ensures Inv(strict, CompFinish(a, t), t, multiset{})
  {
    hide Inv, BarTx, Enqueue, QueueOf;
    var s1 := if a.bar == [] then a.s else BarTx(a.s, t, a.bar[0]);
    if a.bar != [] { BarTxInv(strict, a.s, t, a.bar[0], SeqNumbers(a.bfq)); }
    if a.bfq != [] {
      var s2 := SetTid(s1, t, s1.tids[t].(bufq := a.bfq + s1.tids[t].bufq));
      PrependInv(strict, s1, t, a.bfq);
      EnqueueInv(strict, s2, QueueOf(t), t, t, multiset{});
    }
  }

  lemma CompAggrInv(strict: bool, s: Sc, t: TidId, c: Chain, st: TxStat)
    requires Inv(strict, s, t, SeqNumbers(c)) && !s.tids[t].cleanup
    requires forall f :: f in c ==> f.tid == t && f.comp == Aggr
    ensures Inv(strict, CompAggr(s, t, c, st), t, multiset{})
  {
    hide Inv, CompFrames, CompFinish;
    var a := Acc(s, [], [], 0);
    assert SeqNumbers([]) + SeqNumbers(c) == SeqNumbers(c);
    CompFramesInv(strict, a, t, c, st, UseBa(st));
    CompFinishInv(strict, CompFrames(a, t, c, st, UseBa(st)), t);
  }

  lemma CompUnaggrInv(strict: bool, s: Sc, t: TidId, f: Frame, st: TxStat, linked: bool)
    requires Inv(strict, s, t, multiset{f.seqno}) && !s.tids[t].cleanup && f.tid == t && f.comp == Aggr
    ensures Inv(strict, CompUnaggr(s, t, f, st, linked), t, multiset{})
  {
    hide Inv, UpdateBaw, BarTx, Enqueue, QueueOf;
    UpdateBawInv(strict, s, t, multiset{f.seqno}, f.seqno);
    assert multiset{f.seqno} - multiset{f.seqno} == multiset{};
    var s1 := UpdateBaw(s, t, f.seqno);
    if !st.xretry {
      SameInv(strict, s1, FreeBuf(s1, f), t, multiset{});
    } else if f.retries >= OWLMAX_RETRIES {
      BarTxInv(strict, s1, t, f, multiset{});
    } else {
      var r := ToggleIf(s, f, !linked);
      var g := SetRetry(r.1);
      SameInv(strict, s, r.0, t, multiset{f.seqno});
      SeqNumbersOne(g);
      PrependInv(strict, r.0, t, [g]);
      EnqueueInv(strict, SetTid(r.0, t, r.0.tids[t].(bufq := [g] + r.0.tids[t].bufq)), QueueOf(t), t, t, multiset{});
    }
  }

  // ---------------------------------------------------------------------------------
  // Teardown

  lemma CountDown(strict: bool, tid: Tid, m: Numbers, m': Numbers)
    requires TidInv(strict, tid, m) && tid.cleanup
    requires |m'| < tid.incomp && (strict ==> |m'| == tid.incomp - 1)
    ensures tid.incomp > 1 ==> TidInv(strict, tid.(incomp := tid.incomp - 1), m')
    ensures tid.incomp == 1 ==> TidInv(strict, tid.(incomp := 0, cleanup := false), m')
  {}

  lemma TidCleanupInv(strict: bool, s: Sc, t: TidId, limit: nat, hand: Numbers, hand': Numbers)
    requires Inv(strict, s, t, hand) && s.tids[t].cleanup
    requires |Held(s, t) + hand'| < s.tids[t].incomp && (strict ==> |Held(s, t) + hand'| == s.tids[t].incomp - 1)
    ensures Inv(strict, TidCleanup(s, t, limit), t, hand')
    ensures s.tids[t].incomp != 1 ==> TidCleanup(s, t, limit).tids[t] == s.tids[t].(incomp := s.tids[t].incomp - 1)
  {
    hide Inv, TidInv, Resume, Held, NormalsOk, NormalsBehind, QueuedOk;
    Look(strict, s, t, hand);
    var m' := Held(s, t) + hand';
    var tid := s.tids[t];
    CountDown(strict, tid, Held(s, t) + hand, m');
    CleanupNotAggr(strict, tid, Held(s, t) + hand);
    var s1 := SetTid(s, t, tid.(incomp := tid.incomp - 1));
    if tid.incomp == 1 {
      SubNone(Held(s, t), hand');
      assert hand' == multiset{};
      var tid2 := tid.(incomp := 0, cleanup := false);
      SetTidInv(strict, s, t, hand, tid2, hand');
      assert SetTid(s, t, tid2) == SetTid(s1, t, s1.tids[t].(cleanup := false));
      ResumeInv(strict, SetTid(s, t, tid2), t, limit);
    } else {
      SetTidInv(strict, s, t, hand, tid.(incomp := tid.incomp - 1), hand');
    }
  }

  lemma CleanupNotAggr(strict: bool, tid: Tid, m: Numbers)
    requires TidInv(strict, tid, m) && tid.cleanup
    ensures !tid.aggr && |m| <= tid.incomp && (strict ==> |m| == tid.incomp) && tid.incomp > 0
  {}

  lemma HandCard(m: Numbers, hand': Numbers, x: nat)
    ensures |m + (hand' + multiset{x})| == |m + hand'| + 1
  {
    assert m + (hand' + multiset{x}) == m + hand' + multiset{x};
  }

  /** Completions during teardown: the last one, and only that, ends it. */
  lemma {:induction false} CompCleanupInv(strict: bool, s: Sc, t: TidId, c: seq<Frame>, limit: nat)
    requires Inv(strict, s, t, SeqNumbers(c)) && (c != [] ==> s.tids[t].cleanup)
    ensures Inv(strict, CompCleanup(s, t, c, limit), t, multiset{})
    decreases |c|
  {
    hide Inv, TidInv, FreeBuf, TidCleanup, Held, NormalsOk, QueuedOk;
    if c != [] {
      var s1 := FreeBuf(s, c[0]);
      FreeBufSame(s, c[0]);
      SameInv(strict, s, s1, t, SeqNumbers(c));
      var hand' := SeqNumbers(c[1..]);
      assert SeqNumbers(c) == hand' + multiset{c[0].seqno};
      Look(strict, s1, t, SeqNumbers(c));
      CleanupNotAggr(strict, s1.tids[t], Held(s1, t) + SeqNumbers(c));
      HandCard(Held(s1, t), hand', c[0].seqno);
      TidCleanupInv(strict, s1, t, limit, SeqNumbers(c), hand');
      if s1.tids[t].incomp == 1 {
        assert hand' == multiset{} by { SubNone(Held(s1, t), hand'); }
      } else {
        CompCleanupInv(strict, TidCleanup(s1, t, limit), t, c[1..], limit);
      }
    }
  }

  lemma SubNone(a: Numbers, b: Numbers)
    ensures |a + b| == 0 ==> b == multiset{} && a == multiset{}
  {
    assert |a + b| == |a| + |b|;
  }

  lemma FreeBufSame(s: Sc, f: Frame)
    ensures FreeBuf(s, f).tids == s.tids && FreeBuf(s, f).hw == s.hw
  {}

  /** A teardown starts with no frame sent outside aggregation ahead of an aggregated one. */
  ghost predicate TeardownOk(s: Sc, t: TidId) {
    s.tids[t].aggr ==> NormalsBehind(s.hw[QueueOf(t)], t)
  }

  lemma DisableInv(strict: bool, s: Sc, t: TidId, limit: nat)
    requires Inv(strict, s, t, multiset{}) && TeardownOk(s, t)
    ensures Inv(strict, Disable(s, t, limit), t, multiset{})
  {
    hide Inv, TidInv, Resume, Held, NormalsOk, NormalsBehind, CleanupTid, FreeAll, QueueOf;
    Look(strict, s, t, multiset{});
    var m := Held(s, t) + multiset{};
    CleanupOne(strict, s.tids[t], m);
    var s1 := SetTid(s, t, s.tids[t].(aggr := false));
    var tid := CleanupTid(s1.tids[t]);
    SetTidInv(strict, s, t, multiset{}, tid, multiset{});
    var s2 := SetTid(FreeAll(s1, s1.tids[t].bufq), t, tid);
    FreeAllKeepsTidq(s1, s1.tids[t].bufq);
    assert s2.tids == SetTid(s, t, tid).tids;
    SameInv(strict, SetTid(s, t, tid), s2, t, multiset{});
    if !tid.cleanup { ResumeInv(strict, s2, t, limit); }
  }

  /** After teardown of a session the identifier is not aggregating, and its queue and window are empty. */
  lemma DisableIdles(strict: bool, s: Sc, t: TidId, limit: nat)
    requires Inv(strict, s, t, multiset{})
    ensures var r := Disable(s, t, limit).tids[t]; !r.aggr && r.bufq == [] && r.win.head == r.win.tail
  {
    hide Inv, TidInv, Held, NormalsOk, CleanupTid, FreeAll, Schedule, Enqueue;
    Look(strict, s, t, multiset{});
    CleanupOne(strict, s.tids[t], Held(s, t) + multiset{});
    IdleWindow(strict, CleanupTid(s.tids[t].(aggr := false)), Held(s, t) + multiset{});
  }

  lemma IdleWindow(strict: bool, tid: Tid, m: Numbers)
    requires TidInv(strict, tid, m) && !tid.aggr
    ensures tid.win.head == tid.win.tail && tid.bufq == []
  {}

  /** Draining an identifier with nothing in hardware restarts its numbers at the window. */
  lemma DrainOne(strict: bool, tid: Tid, m: Numbers)
    requires TidInv(strict, tid, m) && (tid.aggr ==> m == multiset{})
    ensures TidInv(strict, DrainTid(tid), m)
  {
    if tid.aggr {
      hide Represents, RetriedSeqs;
      DrainRestarts(strict, tid);
      assert Elems(m) == {};
    } else {
      IdleOne(strict, tid, m, DrainTid(tid).win, tid.win.seqStart);
      assert DrainTid(tid) == tid.(win := DrainTid(tid).win, seqNext := tid.win.seqStart);
    }
  }

  lemma DrainInv(strict: bool, s: Sc, t: TidId, u: TidId)
    requires Inv(strict, s, t, multiset{})
    requires s.tids[u].aggr ==> Held(s, u) == multiset{}
    ensures Inv(strict, Drain(s, u), t, multiset{})
    ensures Drain(s, u).hw == s.hw && Drain(s, u).tidq == s.tidq && Drain(s, u).tids == s.tids[u := DrainTid(s.tids[u])]
  {
    hide Inv, TidInv, Held, NormalsOk, FreeAll, DrainTid, QueuedOk;
    NobodysHand(strict, s, t, u);
    Look(strict, s, u, multiset{});
    DrainOne(strict, s.tids[u], Held(s, u) + multiset{});
    DrainTidEmpty(s.tids[u], u);
    SetTidInv(strict, s, u, multiset{}, DrainTid(s.tids[u]), multiset{});
    FreeAllKeepsTidq(s, s.tids[u].bufq);
    SameInv(strict, SetTid(s, u, DrainTid(s.tids[u])), Drain(s, u), u, multiset{});
    NobodysHand(strict, Drain(s, u), u, t);
  }

  lemma DrainTidEmpty(tid: Tid, u: TidId)
    ensures QueuedOk(DrainTid(tid).bufq, u) && DrainTid(tid).aggr == tid.aggr
  {}

  lemma CompBarInv(strict: bool, s: Sc, t: TidId, f: Frame, st: TxStat, linked: bool, limit: nat)
    requires Inv(strict, s, t, multiset{}) && f.retries >= OWLMAX_BAR_RETRIES
    requires st.xretry ==> TeardownOk(s, t)
    ensures Inv(strict, CompBar(s, t, f, st, linked, limit), t, multiset{})
  {
    hide Inv, Resume, Disable, Drain, FreeBuf, QueueOf, Submit;
    if !st.xretry {
      ResumeInv(strict, s, t, limit);
      FreeBufSame(Resume(s, t, limit), f);
      SameInv(strict, Resume(s, t, limit), FreeBuf(Resume(s, t, limit), f), t, multiset{});
    } else {
      var s1 := Disable(s, t, limit);
      DisableInv(strict, s, t, limit);
      DisableIdles(strict, s, t, limit);
      DrainInv(strict, s1, t, t);
      FreeBufSame(Drain(s1, t), f);
      SameInv(strict, Drain(s1, t), FreeBuf(Drain(s1, t), f), t, multiset{});
    }
  }

  lemma CompNormalInv(strict: bool, s: Sc, t: TidId, f: Frame, limit: nat)
    requires Inv(strict, s, t, multiset{}) && (!s.tids[t].aggr ==> Held(s, t) == multiset{})
    ensures Inv(strict, CompNormal(s, t, f, limit), t, multiset{})
  {
    hide Inv, TidInv, TidCleanup, Held, FreeBuf, NormalsOk, QueuedOk;
    Look(strict, s, t, multiset{});
    if s.tids[t].cleanup {
      CleanupNotAggr(strict, s.tids[t], Held(s, t) + multiset{});
      assert Held(s, t) + multiset{} == multiset{};
      TidCleanupInv(strict, s, t, limit, multiset{}, multiset{});
    }
    var s1 := if s.tids[t].cleanup then TidCleanup(s, t, limit) else s;
    FreeBufSame(s1, f);
    SameInv(strict, s1, FreeBuf(s1, f), t, multiset{});
  }

  /** A completion that ends a session, by a BAR without answer, finds its queue fit for a teardown. */
  ghost predicate CompletionOk(s: Sc, q: Ac, st: TxStat)
    requires s.hw[q] != []
  {
    s.hw[q][0][0].comp == Bar && st.xretry ==> TeardownOk(Pop(s, q), s.hw[q][0][0].tid)
  }

  /** One completion, whatever the hardware reports. */
  lemma ProcessInv(strict: bool, s: Sc, q: Ac, st: TxStat, linked: bool, limit: nat, t: TidId)
    requires Inv(strict, s, t, multiset{}) && s.hw[q] != [] && CompletionOk(s, q, st)
    ensures Inv(strict, Process(s, q, st, linked, limit), t, multiset{})
  {
    hide Inv, CompNormal, CompBar, CompCleanup, CompUnaggr, CompAggr, InHardware, QueueOf;
    var c := s.hw[q][0];
    var v := c[0].tid;
    var s1 := Pop(s, q);
    PopInv(strict, s, t, q);
    match c[0].comp
    case Normal =>
      HeadNormal(strict, s, t, q);
      CompNormalInv(strict, s1, v, c[0], limit);
      NobodysHand(strict, Process(s, q, st, linked, limit), v, t);
    case Bar =>
      CompBarInv(strict, s1, v, c[0], st, linked, limit);
      NobodysHand(strict, Process(s, q, st, linked, limit), v, t);
    case Aggr =>
      if s.tids[v].cleanup {
        CompCleanupInv(strict, s1, v, c, limit);
      } else if |c| == 1 {
        SeqNumbersOne(c[0]);
        assert c == [c[0]];
        CompUnaggrInv(strict, s1, v, c[0], st, linked);
      } else {
        CompAggrInv(strict, s1, v, c, st);
      }
      NobodysHand(strict, Process(s, q, st, linked, limit), v, t);
  }

  lemma HeadNormal(strict: bool, s: Sc, t: TidId, q: Ac)
    requires Inv(strict, s, t, multiset{}) && s.hw[q] != [] && s.hw[q][0][0].comp == Normal
    ensures var v := s.hw[q][0][0].tid; !s.tids[v].aggr ==> Held(Pop(s, q), v) == multiset{}
  {
    hide TidInv, InHardware, QueuedOk, QueueOf;
    var v := s.hw[q][0][0].tid;
    assert ChainOk(s.hw[q][0], q);
    assert UInv(strict, s, v, HandOf(t, multiset{}, v));
    PopOne(s.tids[v], s.hw[q], v);
  }

  // ---------------------------------------------------------------------------------
  // Frames from the host

  lemma ReceiveInv(strict: bool, s: Sc, t: TidId, known: bool, skb: nat, pktlen: nat, key: KeyType)
    requires Inv(strict, s, t, multiset{})
    ensures Inv(strict, Receive(s, t, known, skb, pktlen, key), t, multiset{})
  {
    hide Inv, HandleAggr, HandleNormal, Prepared;
    if !known || s.free == [] {
      SameInv(strict, s, Receive(s, t, known, skb, pktlen, key), t, multiset{});
    } else if s.tids[t].aggr {
      HandleAggrInv(strict, s, t, skb, pktlen, key);
    } else {
      HandleNormalInv(strict, s, t, skb, pktlen, key);
    }
  }

  lemma HandleAggrInv(strict: bool, s: Sc, t: TidId, skb: nat, pktlen: nat, key: KeyType)
    requires Inv(strict, s, t, multiset{}) && s.free != [] && s.tids[t].aggr
    ensures var r := Prepared(s, t, skb, pktlen, key); Inv(strict, HandleAggr(r.0, t, r.1), t, multiset{})
  {
    hide Inv, TidInv, Held, NormalsOk, NextSeq, Add, Within, Enqueue, QueueOf, SeqNumbers;
    var (s1, f) := Prepared(s, t, skb, pktlen, key);
    var tid := s.tids[t];
    var q := QueueOf(t);
    Look(strict, s, t, multiset{});
    var m := Held(s, t) + multiset{};
    if |s1.hw[q]| >= ATH_AGGR_MIN_QDEPTH || tid.bufq != [] || tid.paused || !Within(tid.win, f.seqno) {
      QueueOne(strict, tid, m, f);
      var tid' := tid.(bufq := tid.bufq + [f], seqNext := NextSeq(tid.seqNext));
      SetTidInv(strict, s, t, multiset{}, tid', multiset{});
      var s2 := SetTid(s1, t, s1.tids[t].(bufq := tid.bufq + [f]));
      SameInv(strict, SetTid(s, t, tid'), s2, t, multiset{});
      EnqueueInv(strict, s2, q, t, t, multiset{});
    } else {
      SendOne(strict, tid, m);
      var tid' := tid.(win := Add(tid.win, f.seqno), seqNext := NextSeq(tid.seqNext));
      assert m + multiset{f.seqno} == Held(s, t) + multiset{f.seqno};
      SetTidInv(strict, s, t, multiset{}, tid', multiset{f.seqno});
      var s2 := SetTid(s1, t, s1.tids[t].(win := AddFrame(tid.win, f)));
      SameInv(strict, SetTid(s, t, tid'), s2, t, multiset{f.seqno});
      SeqNumbersOne(f);
      assert multiset{f.seqno} == multiset{} + multiset{f.seqno};
      SubmitInv(strict, s2, t, multiset{f.seqno}, [f], multiset{});
    }
  }

  lemma HandleNormalInv(strict: bool, s: Sc, t: TidId, skb: nat, pktlen: nat, key: KeyType)
    requires Inv(strict, s, t, multiset{}) && s.free != [] && !s.tids[t].aggr
    ensures var r := Prepared(s, t, skb, pktlen, key); Inv(strict, HandleNormal(r.0, t, r.1), t, multiset{})
  {
    hide Inv, TidInv, Held, NormalsOk, NextSeq, QueueOf, SeqNumbers;
    var (s1, f) := Prepared(s, t, skb, pktlen, key);
    var tid := s.tids[t];
    Look(strict, s, t, multiset{});
    NextSmall(tid.seqNext);
    NextSmall(tid.win.seqStart);
    var w := tid.win.(seqStart := NextSeq(tid.win.seqStart));
    IdleOne(strict, tid, Held(s, t) + multiset{}, w, NextSeq(tid.seqNext));
    var tid' := tid.(win := w, seqNext := NextSeq(tid.seqNext));
    SetTidInv(strict, s, t, multiset{}, tid', multiset{});
    var s2 := SetTid(s1, t, s1.tids[t].(win := w));
    SameInv(strict, SetTid(s, t, tid'), s2, t, multiset{});
    SubmitInv(strict, s2, t, multiset{}, [f], multiset{});
  }
}
