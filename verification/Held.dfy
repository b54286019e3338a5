/**
 The descriptor hardware finished last. Hardware may still read its link to find later work, so the buffer it
 belongs to is kept in a slot and off the free list. One slot serves the four hardware queues, and every
 frame freed for whatever reason releases what the slot holds: a completion, a teardown or a drain.
 */
module Held {
  import opened Frames
  import opened Window
  import opened Softc
  import opened Engine
  import opened Steps
  import opened Conservation
  import opened Runs
  import opened Failures
  import Scheduling

  function Last(c: Chain): Frame {
    c[|c| - 1]
  }

  /** A BAR in hardware is in buffer b. */
  ghost predicate InBar(s: Sc, b: nat) {
    exists q, i :: 0 <= q < WME_NUM_AC && 0 <= i < |s.hw[q]| && s.hw[q][i][0].comp == Bar && s.hw[q][i][0].buf == b
  }

  /** Buffer b is held, or carries a BAR. */
  ghost predicate Parked(s: Sc, b: nat) {
    s.held == b || InBar(s, b)
  }

  /** No frame on a software queue is in buffer b. */
  ghost predicate OffQueues(s: Sc, b: nat) {
    forall u: TidId, f :: f in s.tids[u].bufq ==> f.buf != b
  }

  lemma {:induction false} QueuedCounts(tids: seq<Tid>, u: nat, f: Frame)
    requires u < |tids| && f in tids[u].bufq
    ensures TidToks(tids, Buffer(f.buf)) > 0
  {
    if u == 0 {
      FrameCounts(tids[0].bufq, f);
    } else {
      QueuedCounts(tids[1..], u - 1, f);
    }
  }

  lemma {:induction false} FrameCounts(l: seq<Frame>, f: Frame)
    requires f in l
    ensures Toks(l, Buffer(f.buf)) > 0
  {
    if l[0] != f { FrameCounts(l[1..], f); }
  }

  lemma {:induction false} ChainCounts(h: seq<Chain>, i: nat)
    requires i < |h|
    ensures ChainToks(h, Buffer(h[i][0].buf)) > 0
  {
    if i == 0 { FrameCounts(h[0], h[0][0]); } else { ChainCounts(h[1..], i - 1); }
  }

  lemma {:induction false} HwCounts(hw: seq<seq<Chain>>, q: nat, i: nat)
    requires q < |hw| && i < |hw[q]|
    ensures HwToks(hw, Buffer(hw[q][i][0].buf)) > 0
  {
    if q == 0 { ChainCounts(hw[0], i); } else { HwCounts(hw[1..], q - 1, i); }
  }

  lemma {:induction false} FreeHolds(ids: seq<nat>, b: nat)
    ensures b in ids <==> Bufs(ids, Buffer(b)) > 0
  {
    if ids != [] {
      FreeHolds(ids[1..], b);
      assert ids == [ids[0]] + ids[1..];
    }
  }

  /** A parked buffer is in that one place: it is not free, and on no software queue. */
  lemma ParkedAlone(s: Sc, b: nat)
    requires Own(s, Buffer(b)) <= 1 && Parked(s, b)
    ensures b !in s.free && OffQueues(s, b)
  {
    FreeHolds(s.free, b);
    assert Bufs([s.held], Buffer(b)) == if s.held == b then 1 else 0;
    hide Skbs, TidToks, HwToks, Bufs;
    if s.held != b {
      var q, i :| 0 <= q < WME_NUM_AC && 0 <= i < |s.hw[q]| && s.hw[q][i][0].comp == Bar && s.hw[q][i][0].buf == b;
      HwCounts(s.hw, q, i);
    }
    forall u: TidId, f | f in s.tids[u].bufq ensures f.buf != b {
      if f.buf == b { QueuedCounts(s.tids, u, f); }
    }
  }

  lemma QueuedNotFree(s: Sc, u: TidId, f: Frame)
    requires Own(s, Buffer(f.buf)) <= 1 && f in s.tids[u].bufq
    ensures f.buf !in s.free
  {
    FreeHolds(s.free, f.buf);
    QueuedCounts(s.tids, u, f);
    hide Skbs, TidToks, HwToks, Bufs;
  }

  // ---------------------------------------------------------------------------------
  // What keeps the held slot

  /** No buffer was freed or exchanged. */
  predicate Untouched(s: Sc, r: Sc) {
    r.held == s.held && r.free == s.free && r.done == s.done
  }

  lemma SchedTidKeeps(s: Sc, t: TidId, limit: nat)
    ensures Untouched(s, SchedTid(s, t, limit))
  {
    hide Chosen, AddFrames, QueueOf;
  }

  lemma {:induction false} ScheduleKeeps(s: Sc, q: Ac, limit: nat)
    ensures Untouched(s, Schedule(s, q, limit))
    decreases |s.tidq[q]|
  {
    hide SchedTid, QueueOf;
    if s.tidq[q] != [] {
      if s.tids[s.tidq[q][0]].paused {
        ScheduleKeeps(Dequeue(s, q), q, limit);
      } else {
        SchedTidKeeps(Dequeue(s, q), s.tidq[q][0], limit);
      }
    }
  }

  lemma ResumeKeeps(s: Sc, t: TidId, limit: nat)
    ensures Untouched(s, Resume(s, t, limit))
  {
    hide Schedule, QueueOf;
    var s1 := SetTid(s, t, s.tids[t].(paused := false));
    ScheduleKeeps(Enqueue(s1, QueueOf(t), t), QueueOf(t), limit);
  }

  lemma TidCleanupKeeps(s: Sc, t: TidId, limit: nat)
    ensures Untouched(s, TidCleanup(s, t, limit))
  {
    hide Resume;
    var s1 := SetTid(s, t, s.tids[t].(incomp := s.tids[t].incomp - 1));
    ResumeKeeps(SetTid(s1, t, s1.tids[t].(cleanup := false)), t, limit);
  }

  lemma {:induction false} CompCleanupHolds(s: Sc, t: TidId, c: Chain, limit: nat)
    requires |c| <= s.tids[t].incomp
    ensures CompCleanup(s, t, c, limit).held == Last(c).buf
    decreases |c|
  {
    hide Resume;
    var s1 := FreeBuf(s, c[0]);
    TidCleanupKeeps(s1, t, limit);
    var s2 := TidCleanup(s1, t, limit);
    if s1.tids[t].incomp == 1 {
    } else if |c| == 1 {
      assert c[1..] == [];
      assert CompCleanup(s2, t, [], limit) == s2;
    } else {
      CompCleanupHolds(s2, t, c[1..], limit);
    }
  }

  /** The loop over an aggregate ends with the last subframe's buffer held, or taken for the BAR. */
  lemma {:induction false} CompFramesHolds(a: Acc, t: TidId, c: Chain, st: TxStat, useBa: bool)
    requires |a.bar| <= 1
    ensures var r := CompFrames(a, t, c, st, useBa);
      r.s.held == Last(c).buf || (r.bar != [] && r.bar[0].buf == Last(c).buf)
    decreases |c|
  {
    hide Acked, Resolve;
    var b := CompSubframe(a, t, c[0], |c| == 1, useBa && Acked(st, c[0].seqno));
    if |c| == 1 {
      assert c[1..] == [] && CompFrames(b, t, [], st, useBa) == b;
    } else {
      CompFramesHolds(b, t, c[1..], st, useBa);
    }
  }

  lemma BarParks(s: Sc, t: TidId, f: Frame)
    ensures InBar(BarTx(s, t, f), f.buf)
  {
    hide QueueOf;
    var q := QueueOf(t);
    var r := BarTx(s, t, f);
    var i := |s.hw[q]|;
    assert r.hw[q][i][0].comp == Bar && r.hw[q][i][0].buf == f.buf;
  }

  lemma SameParked(s: Sc, r: Sc, b: nat)
    requires Parked(s, b) && r.hw == s.hw && r.held == s.held
    ensures Parked(r, b)
  {
    if s.held != b {
      var q, i :| 0 <= q < WME_NUM_AC && 0 <= i < |s.hw[q]| && s.hw[q][i][0].comp == Bar && s.hw[q][i][0].buf == b;
      assert r.hw[q][i][0].comp == Bar;
    }
  }

  lemma FinishParked(a: Acc, t: TidId, b: nat)
    requires a.s.held == b || (a.bar != [] && a.bar[0].buf == b)
    ensures Parked(CompFinish(a, t), b)
  {
    hide QueueOf, InBar;
    if a.bar != [] { BarParks(a.s, t, a.bar[0]); }
    var s1 := if a.bar == [] then a.s else BarTx(a.s, t, a.bar[0]);
    hide Parked;
    assert Parked(s1, b) by { ParkedIs(s1, b); }
    SameParked(s1, CompFinish(a, t), b);
  }

  lemma ParkedIs(s: Sc, b: nat)
    ensures Parked(s, b) <==> s.held == b || InBar(s, b)
  {}

  /** The one entry whose last buffer goes back to a queue: a lone frame, to be retried, whose descriptor has a link. */
  predicate RetriedInPlace(s: Sc, q: Ac, st: TxStat, linked: bool)
    requires s.hw[q] != []
  {
    var c := s.hw[q][0];
    && c[0].comp == Aggr && !s.tids[c[0].tid].cleanup && |c| == 1
    && linked && st.xretry && c[0].retries < 10
  }

  lemma UnaggrParked(s: Sc, t: TidId, f: Frame, st: TxStat, linked: bool)
    ensures var r := CompUnaggr(s, t, f, st, linked);
      if linked && st.xretry && f.retries < 10
      then r.held == s.held && r.tids[t].bufq != [] && r.tids[t].bufq[0].buf == f.buf
      else Parked(r, f.buf)
  {
    hide QueueOf, Resolve, InBar;
    BarParks(UpdateBaw(s, t, f.seqno), t, f);
  }

  /**
   Where the last buffer of an entry goes. A lone frame to be retried whose descriptor has a link keeps it, the
   slot untouched: hardware has moved on. After every other completion the buffer is held, or carries a BAR.
   */
  lemma LastParked(s: Sc, q: Ac, st: TxStat, linked: bool, limit: nat)
    requires s.hw[q] != [] && HeadSafe(s, q)
    ensures var r := Process(s, q, st, linked, limit);
            var b := Last(s.hw[q][0]).buf;
            var t := s.hw[q][0][0].tid;
      if RetriedInPlace(s, q, st, linked) then r.held == s.held && r.tids[t].bufq != [] && r.tids[t].bufq[0].buf == b
      else Parked(r, b)
  {
    hide Resume, TidCleanup, CompFrames, CompFinish, CompUnaggr, CompCleanup, Disable, Drain, InBar;
    var c := s.hw[q][0];
    var t := c[0].tid;
    var s1 := s.(hw := s.hw[q := s.hw[q][1..]]);
    if c[0].comp == Aggr {
      if s.tids[t].cleanup {
        CompCleanupHolds(s1, t, c, limit);
      } else if |c| == 1 {
        UnaggrParked(s1, t, c[0], st, linked);
      } else {
        CompFramesHolds(Acc(s1, [], [], 0), t, c, st, UseBa(st));
        FinishParked(CompFrames(Acc(s1, [], [], 0), t, c, st, UseBa(st)), t, Last(c).buf);
      }
    }
  }

  // ---------------------------------------------------------------------------------
  // What releases it

  /** The slot's buffer is the first to go to the free list, and a frame was handed back. */
  predicate Released(s: Sc, r: Sc) {
    s.free + [s.held] <= r.free && |s.done| < |r.done|
  }

  /** Either that, or nothing was freed: at most the slot exchanged its buffer for that of a frame to be retried. */
  predicate SlotMoved(s: Sc, r: Sc) {
    Released(s, r) || (r.free == s.free && r.done == s.done)
  }

  lemma SlotThen(s: Sc, m: Sc, r: Sc)
    requires SlotMoved(s, m) && SlotMoved(m, r) && (Untouched(s, m) || Released(s, m))
    ensures SlotMoved(s, r) && (Released(s, m) || Released(m, r) ==> Released(s, r))
  {
    if Released(s, m) { assert s.free + [s.held] <= r.free; }
  }

  lemma {:induction false} FreeAllReleases(s: Sc, q: seq<Frame>)
    ensures if q == [] then FreeAll(s, q) == s else Released(s, FreeAll(s, q))
    decreases |q|
  {
    if q != [] {
      var s1 := FreeBuf(s, q[0]);
      FreeAllReleases(s1, q[1..]);
      SlotThen(s, s1, FreeAll(s1, q[1..]));
    }
  }

  lemma {:induction false} CompCleanupReleases(s: Sc, t: TidId, c: seq<Frame>, limit: nat)
    ensures if c == [] then CompCleanup(s, t, c, limit) == s else Released(s, CompCleanup(s, t, c, limit))
    decreases |c|
  {
    hide TidCleanup;
    if c != [] {
      var s1 := FreeBuf(s, c[0]);
      var s2 := TidCleanup(s1, t, limit);
      TidCleanupKeeps(s1, t, limit);
      assert Released(s, s2);
      if s1.tids[t].incomp != 1 {
        CompCleanupReleases(s2, t, c[1..], limit);
        SlotThen(s, s2, CompCleanup(s2, t, c[1..], limit));
      }
    }
  }

  lemma {:induction false} CompFramesSlot(a: Acc, t: TidId, c: seq<Frame>, st: TxStat, useBa: bool)
    ensures SlotMoved(a.s, CompFrames(a, t, c, st, useBa).s)
    decreases |c|
  {
    hide Acked, Resolve;
    if c != [] {
      var b := CompSubframe(a, t, c[0], |c| == 1, useBa && Acked(st, c[0].seqno));
      if |c| == 1 {
        assert c[1..] == [] && CompFrames(b, t, [], st, useBa) == b;
      } else {
        CompFramesSlot(b, t, c[1..], st, useBa);
        SlotThen(a.s, b.s, CompFrames(b, t, c[1..], st, useBa).s);
      }
    }
  }

  lemma CompAggrSlot(s: Sc, t: TidId, c: Chain, st: TxStat)
    ensures SlotMoved(s, CompAggr(s, t, c, st))
  {
    hide CompFrames, QueueOf;
    CompFramesSlot(Acc(s, [], [], 0), t, c, st, UseBa(st));
  }

  lemma CompUnaggrSlot(s: Sc, t: TidId, f: Frame, st: TxStat, linked: bool)
    ensures SlotMoved(s, CompUnaggr(s, t, f, st, linked))
  {
    hide QueueOf, Resolve;
  }

  lemma DisableReleases(s: Sc, t: TidId, limit: nat)
    ensures if s.tids[t].bufq == [] then Untouched(s, Disable(s, t, limit)) else Released(s, Disable(s, t, limit))
  {
    hide Resume, Flush, FlushRetried, FreeAll;
    var s0 := SetTid(s, t, s.tids[t].(aggr := false));
    FreeAllReleases(s0, s0.tids[t].bufq);
    FreeAllKeepsTidq(s0, s0.tids[t].bufq);
    ResumeKeeps(SetTid(FreeAll(s0, s0.tids[t].bufq), t, CleanupTid(s0.tids[t])), t, limit);
  }

  lemma CompBarSlot(s: Sc, t: TidId, f: Frame, st: TxStat, linked: bool, limit: nat)
    ensures SlotMoved(s, CompBar(s, t, f, st, linked, limit))
  {
    hide Resume, Disable, FreeAll, QueueOf, DrainTid;
    ResumeKeeps(s, t, limit);
    if st.xretry && f.retries >= OWLMAX_BAR_RETRIES {
      var s1 := Disable(s, t, limit);
      DisableReleases(s, t, limit);
      FreeAllReleases(s1, s1.tids[t].bufq);
      SlotThen(s, s1, Drain(s1, t));
      assert Untouched(s, Drain(s1, t)) || Released(s, Drain(s1, t));
      SlotThen(s, Drain(s1, t), FreeBuf(Drain(s1, t), f));
    }
  }

  lemma ProcessSlot(s: Sc, q: Ac, st: TxStat, linked: bool, limit: nat)
    requires s.hw[q] != []
    ensures SlotMoved(s, Process(s, q, st, linked, limit))
  {
    hide TidCleanup, CompCleanup, CompUnaggr, CompAggr, CompBar, QueueOf;
    var c := s.hw[q][0];
    var t := c[0].tid;
    var s1 := Pop(s, q);
    match c[0].comp
    case Normal => TidCleanupKeeps(s1, t, limit);
    case Bar => CompBarSlot(s1, t, c[0], st, linked, limit);
    case Aggr =>
      CompCleanupReleases(s1, t, c, limit);
      CompUnaggrSlot(s1, t, c[0], st, linked);
      CompAggrSlot(s1, t, c, st);
  }

  /** Somebody on list l has a frame queued. */
  predicate SomeQueued(s: Sc, l: seq<TidId>) {
    exists u :: u in l && s.tids[u].bufq != []
  }

  lemma {:induction false} DrainReleases(s: Sc, q: Ac)
    requires forall i, j :: 0 <= i < j < |s.tidq[q]| ==> s.tidq[q][i] != s.tidq[q][j]
    ensures var r := DrainScheduled(s, q);
      if SomeQueued(s, s.tidq[q]) then Released(s, r) else Untouched(s, r)
    decreases |s.tidq[q]|
  {
    hide FreeAll, DrainTid, Released;
    var l := s.tidq[q];
    if l != [] {
      var s1 := Dequeue(s, q);
      var r := DrainFirst(s, q);
      FreeAllReleases(s1, s.tids[l[0]].bufq);
      FreeAllKeepsTidq(s1, s.tids[l[0]].bufq);
      DrainReleases(r, q);
      forall u | u in l[1..] ensures r.tids[u] == s.tids[u] {}
      assert SomeQueued(s, l) <==> s.tids[l[0]].bufq != [] || SomeQueued(r, l[1..]);
      FreedThen(s, s1, r, DrainScheduled(r, q), s.tids[l[0]].bufq != [], SomeQueued(r, l[1..]));
    }
  }

  lemma FreedThen(s: Sc, s1: Sc, m: Sc, r: Sc, a: bool, b: bool)
    requires Untouched(s, s1) && (if a then Released(s1, m) else Untouched(s1, m))
    requires if b then Released(m, r) else Untouched(m, r)
    ensures if a || b then Released(s, r) else Untouched(s, r)
  {}

  /**
   What releases the slot. An event other than the arrival of a frame puts the held buffer on the free list if
   and only if it hands a frame back, on whatever queue; an arriving frame never does. A teardown does so
   exactly when it has queued frames to throw away, and so does a drain.
   */
  lemma HeldFreedIff(s: Sc, e: Event)
    requires Scheduling.Lists(s) && Own(s, Buffer(s.held)) <= 1
    ensures !e.Recv? ==> (s.held in Step(s, e).free <==> |s.done| < |Step(s, e).done|)
    ensures e.Recv? ==> s.held !in Step(s, e).free && Step(s, e).held == s.held
    ensures e.DisableAggr? ==> (s.held in Step(s, e).free <==> s.tids[e.t].aggr && s.tids[e.t].bufq != [])
    ensures e.DrainTids? ==> (s.held in Step(s, e).free <==> SomeQueued(s, s.tidq[e.q]))
  {
    hide Own, Process, Schedule, Disable, DrainScheduled, QueueOf, SlotMoved, SomeQueued;
    HeldNotFree(s);
    match e
    case Recv(t, known, skb, pktlen, key) => ReceiveSlot(s, t, known, skb, pktlen, key);
    case Complete(q, st, linked, limit, next) =>
      if s.hw[q] != [] {
        ProcessSlot(s, q, st, linked, limit);
        ScheduleKeeps(Process(s, q, st, linked, limit), q, next);
        MovedFrees(s, Process(s, q, st, linked, limit));
      }
    case CompleteStopped(q, st, linked, limit) =>
      if s.hw[q] != [] {
        ProcessSlot(s, q, st, linked, limit);
        MovedFrees(s, Process(s, q, st, linked, limit));
      }
    case EnableAggr(t) =>
    case DisableAggr(t, limit) =>
      DisableReleases(s, t, limit);
      MovedFrees(s, Step(s, e));
    case DrainTids(q) =>
      DrainReleases(s, q);
      MovedFrees(s, Step(s, e));
  }

  lemma HeldNotFree(s: Sc)
    requires Own(s, Buffer(s.held)) <= 1
    ensures s.held !in s.free
  {
    hide Own, InBar, OffQueues;
    ParkedAlone(s, s.held);
  }

  lemma MovedFrees(s: Sc, r: Sc)
    requires SlotMoved(s, r) && s.held !in s.free
    ensures s.held in r.free <==> |s.done| < |r.done|
  {
    if Released(s, r) { assert (s.free + [s.held])[|s.free|] in r.free; }
  }

  lemma ReceiveSlot(s: Sc, t: TidId, known: bool, skb: nat, pktlen: nat, key: KeyType)
    ensures var r := Receive(s, t, known, skb, pktlen, key);
      r.held == s.held && forall b :: b in r.free ==> b in s.free
  {
    hide QueueOf, AddFrame, Within, NextSeq;
  }

  /** No event of the run but the arrival of frames hands a frame back. */
  predicate NothingFreed(s: Sc, es: seq<Event>)
    decreases |es|
  {
    es == [] || ((es[0].Recv? || |Step(s, es[0]).done| == |s.done|) && NothingFreed(Step(s, es[0]), es[1..]))
  }

  lemma StepFrees(s: Sc, e: Event, b: nat)
    requires Scheduling.Lists(s) && b !in s.free && (e.Recv? || |Step(s, e).done| == |s.done|)
    ensures b !in Step(s, e).free
  {
    hide Process, Schedule, Disable, DrainScheduled, QueueOf, SomeQueued;
    match e
    case Recv(t, known, skb, pktlen, key) => ReceiveSlot(s, t, known, skb, pktlen, key);
    case Complete(q, st, linked, limit, next) =>
      if s.hw[q] != [] {
        ProcessSlot(s, q, st, linked, limit);
        ScheduleKeeps(Process(s, q, st, linked, limit), q, next);
      }
    case CompleteStopped(q, st, linked, limit) =>
      if s.hw[q] != [] { ProcessSlot(s, q, st, linked, limit); }
    case EnableAggr(t) =>
    case DisableAggr(t, limit) => DisableReleases(s, t, limit);
    case DrainTids(q) => DrainReleases(s, q);
  }

  /** A buffer that is off the free list, as the last one completed is, stays off until a frame is handed back. */
  lemma {:induction false} KeptUntilFreed(s: Sc, es: seq<Event>, b: nat)
    requires Scheduling.AllServed(s) && b !in s.free && NothingFreed(s, es)
    ensures b !in Run(s, es).free
    decreases |es|
  {
    hide Step, Scheduling.AllServed;
    if es != [] {
      ServedLists(s);
      StepFrees(s, es[0], b);
      Scheduling.StepServes(s, es[0]);
      KeptUntilFreed(Step(s, es[0]), es[1..], b);
    }
  }

  lemma ServedLists(s: Sc)
    requires Scheduling.AllServed(s)
    ensures Scheduling.Lists(s)
  {}

  /**
   The last descriptor is kept. After any allowed run from attachment and one completion more, the buffer of
   the entry's last subframe is off the free list, whether the subframe was delivered, retried, given up, or
   became a BAR; and it stays off over every run in which nothing is freed, however many frames come. Unless the
   frame was retried in place, its descriptor having a link, no frame waiting to be sent is in that buffer.
   */
  lemma LastDescriptorKept(strict: bool, k2: bool, n: nat, es: seq<Event>, q: Ac, st: TxStat, linked: bool, limit: nat,
                           more: seq<Event>)
    requires AllowedRun(strict, Attached(k2, n), es) && Run(Attached(k2, n), es).hw[q] != []
    requires NothingFreed(Process(Run(Attached(k2, n), es), q, st, linked, limit), more)
    ensures var s := Run(Attached(k2, n), es);
            var x := Process(s, q, st, linked, limit);
            var b := Last(s.hw[q][0]).buf;
      && b !in x.free && b !in Run(x, more).free
      && (!RetriedInPlace(s, q, st, linked) ==> Parked(x, b) && OffQueues(x, b))
  {
    hide Own, Good, AllowedRun, Run, Attached, Process, HeadSafe, Last, NothingFreed, Scheduling.AllServed;
    hide Parked, OffQueues, RetriedInPlace;
    var s := Run(Attached(k2, n), es);
    var x := Process(s, q, st, linked, limit);
    var b := Last(s.hw[q][0]).buf;
    AttachedGood(strict, k2, n);
    RunConserves(strict, Attached(k2, n), es, Credit);
    GoodHeadSafe(strict, s, q);
    LastParked(s, q, st, linked, limit);
    BuffersConserved(strict, k2, n, es, b, 0);
    ProcessConserves(s, q, st, linked, limit, Buffer(b));
    if RetriedInPlace(s, q, st, linked) {
      QueuedNotFree(x, s.hw[q][0][0].tid, x.tids[s.hw[q][0][0].tid].bufq[0]);
    } else {
      ParkedAlone(x, b);
    }
    GoodServed(strict, s);
    Scheduling.ProcessServes(s, q, st, linked, limit);
    KeptUntilFreed(x, more, b);
  }

  // ---------------------------------------------------------------------------------
  // Released by a teardown

  /** A plain frame of u goes out, one of t is queued behind it, the first completes, and the session of t ends. */
  function ReleaseRun(t: TidId, u: TidId): seq<Event> {
    [FrameIn(u), EnableAggr(t), FrameIn(t)] + [CompleteStopped(QueueOf(t), OK, false, 0), DisableAggr(t, 0)]
  }

  lemma OneBehind(k2: bool, n: nat, t: TidId, u: TidId)
    requires n >= 2 && t != u && QueueOf(t) == QueueOf(u)
    ensures var s := Attached(k2, n); var es := [FrameIn(u), EnableAggr(t), FrameIn(t)]; var r := Run(s, es);
      && AllowedRun(true, s, es) && |r.hw[QueueOf(t)]| == 1 && PlainFrame(r.hw[QueueOf(t)][0], u)
      && r.tids[t].aggr && |r.tids[t].bufq| == 1 && !r.tids[u].cleanup
  {
    hide QueueOf, Run, AllowedRun;
    var s := Attached(k2, n);
    RunThree(true, s, FrameIn(u), EnableAggr(t), FrameIn(t));
    assert s.hw[QueueOf(t)] == [] && s.tidq[QueueOf(t)] == [];
    var s1 := Step(s, FrameIn(u));
    assert |s1.hw[QueueOf(t)]| == 1 && PlainFrame(s1.hw[QueueOf(t)][0], u) && s1.tids[t] == FreshTid();
  }
  /**
   The buffer of u's frame is kept after its completion, and then released by a teardown of t: the host ends
   a session that has a frame queued, and the descriptor hardware finished last is free.
   */
  lemma TeardownFrees(k2: bool, n: nat, t: TidId, u: TidId)
    requires n >= 2 && t != u && QueueOf(t) == QueueOf(u)
    ensures var s := Attached(k2, n);
            var r := Run(s, [FrameIn(u), EnableAggr(t), FrameIn(t)]);
            var x := Step(r, CompleteStopped(QueueOf(t), OK, false, 0));
      && AllowedRun(true, s, ReleaseRun(t, u)) && Run(s, ReleaseRun(t, u)) == Step(x, DisableAggr(t, 0))
      && r.hw[QueueOf(t)] != []
      && var b := Last(r.hw[QueueOf(t)][0]).buf;
         x.held == b && b !in x.free && b in Run(s, ReleaseRun(t, u)).free
  {
    hide Run, AllowedRun, Attached, Own, Good, Disable, Allowed, Step, Last, QueueOf, Scheduling.Lists;
    var s := Attached(k2, n);
    var q := QueueOf(t);
    var a := [FrameIn(u), EnableAggr(t), FrameIn(t)];
    var r := Run(s, a);
    var c := CompleteStopped(q, OK, false, 0);
    OneBehind(k2, n, t, u);
    var x := Step(r, c);
    PlainHeld(r, t, u);
    RunTwo(true, r, c, DisableAggr(t, 0));
    RunConcat(s, a, [c, DisableAggr(t, 0)]);
    AllowedConcat(true, s, a, [c, DisableAggr(t, 0)]);
    RunOne(true, r, c);
    RunConcat(s, a, [c]);
    AllowedConcat(true, s, a, [c]);
    BuffersConserved(true, k2, n, a + [c], x.held, 0);
    AttachedGood(true, k2, n);
    RunConserves(true, s, a + [c], Credit);
    GoodServed(true, x);
    ServedLists(x);
    HeldNotFree(x);
    HeldFreedIff(x, DisableAggr(t, 0));
  }

  lemma PlainHeld(s: Sc, t: TidId, u: TidId)
    requires |s.hw[QueueOf(t)]| == 1 && PlainFrame(s.hw[QueueOf(t)][0], u) && !s.tids[u].cleanup
    ensures var c := CompleteStopped(QueueOf(t), OK, false, 0); var x := Step(s, c);
      && Allowed(true, s, c) && Allowed(true, x, DisableAggr(t, 0))
      && x.held == Last(s.hw[QueueOf(t)][0]).buf && x.tids == s.tids
  {
    hide QueueOf;
  }
}
