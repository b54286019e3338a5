/**
 The transmit data path as the firmware runs it: identifiers and hardware queues are objects, an
 identifier holds its own block-ack bitmap, and the list of a queue is a list of references. Each
 method is proved to do what the function of module Softc says of the values these stand for, so
 all that the other modules prove of those functions holds of it.
 */
module Driver {
  import opened Frames
  import opened Window
  import opened Softc
  import S = Softc
  import Aggregate
  import Conservation
  import Engine
  import Growth
  import Runs

  /** ath_atx_tid: one traffic identifier. */
  class TidState {
    const id: TidId
    const baw: BlockAckWindow
    var seqNext: nat
    var bufq: seq<Frame>
    var paused: bool
    var sched: bool
    var aggr: bool
    var cleanup: bool
    var incomp: int

    constructor (id: TidId)
      ensures this.id == id && fresh(baw) && fresh(baw.bitmap) && baw.Valid() && Abs() == FreshTid()
    {
      var w := new BlockAckWindow();
      this.id, baw := id, w;
      seqNext, bufq, paused, sched, aggr, cleanup, incomp := 0, [], false, false, false, false, 0;
    }

    ghost function Abs(): Tid
      requires baw.Valid()
      reads this, baw, baw.bitmap
    {
      Tid(baw.Abs(), seqNext, bufq, paused, sched, aggr, cleanup, incomp)
    }
  }

  /** ath_txq: one hardware queue, and the identifiers that wait for it. */
  class TxQueue {
    const ac: Ac
    var entries: seq<Chain>
    var tidq: seq<TidState>

    constructor (ac: Ac)
      ensures this.ac == ac && entries == [] && tidq == []
    {
      this.ac, entries, tidq := ac, [], [];
    }

    ghost function Ids(): seq<TidId>
      reads this
    {
      seq(|tidq|, i requires 0 <= i < |tidq| reads this => tidq[i].id)
    }
  }

  /** What one finished descriptor tells, and the limits of the scheduling decisions that follow. */
  datatype Finished = Finished(st: TxStat, linked: bool, limit: nat, nextLimit: nat)

  /** The same as events of a run. */
  function Completions(q: Ac, finished: seq<Finished>): seq<Event> {
    if finished == [] then []
    else
      [Complete(q, finished[0].st, finished[0].linked, finished[0].limit, finished[0].nextLimit)]
      + Completions(q, finished[1..])
  }

  lemma {:induction false} NothingLeft(s: Sc, q: Ac, finished: seq<Finished>)
    requires s.hw[q] == []
    ensures Run(s, Completions(q, finished)) == s
    decreases |finished|
  {
    if finished != [] { NothingLeft(s, q, finished[1..]); }
  }

  /** Identifiers just created, each with a number and a bitmap of its own. */
  ghost predicate NewTids(ts: seq<TidState>, objects: set<object>)
    reads objects
  {
    && |ts| <= NUM_TIDS
    && (forall t :: 0 <= t < |ts| ==>
          ts[t].id == t && ts[t] in objects && ts[t].baw in objects && ts[t].baw.bitmap in objects
          && ts[t].baw.Valid() && ts[t].Abs() == FreshTid())
    && (forall t, u :: 0 <= t < u < |ts| ==> ts[t].baw != ts[u].baw && ts[t].baw.bitmap != ts[u].baw.bitmap)
  }

  method MakeTids() returns (ts: seq<TidState>, ghost objects: set<object>)
    ensures |ts| == NUM_TIDS && NewTids(ts, objects) && fresh(objects)
  {
    ts, objects := [], {};
    while |ts| < NUM_TIDS
      invariant NewTids(ts, objects) && fresh(objects)
    {
      var tid := new TidState(|ts|);
      ts, objects := ts + [tid], objects + {tid, tid.baw, tid.baw.bitmap};
    }
  }

  method MakeQueues() returns (qs: seq<TxQueue>, ghost objects: set<object>)
    ensures |qs| == WME_NUM_AC && fresh(objects)
    ensures forall q :: 0 <= q < WME_NUM_AC ==>
      qs[q].ac == q && qs[q].entries == [] && qs[q].tidq == [] && qs[q] in objects
  {
    qs, objects := [], {};
    while |qs| < WME_NUM_AC
      invariant |qs| <= WME_NUM_AC && fresh(objects)
      invariant forall q :: 0 <= q < |qs| ==>
        qs[q].ac == q && qs[q].entries == [] && qs[q].tidq == [] && qs[q] in objects
    {
      var txq := new TxQueue(|qs|);
      qs, objects := qs + [txq], objects + {txq};
    }
  }

  lemma RetryNbad(a: Acc, t: TidId, f: Frame, last: bool)
    ensures S.RetrySubframe(a, t, f, last) == S.RetrySubframe(a.(nbad := 0), t, f, last).(nbad := a.nbad)
  {}

  /** What the loop of CleanQueue makes of identifier t. */
  ghost function Cleaned(s: Sc, t: TidId): Sc {
    var u := s.tids[t];
    FreeAll(S.SetTid(s, t, u.(bufq := [], win := FlushRetried(u.win, u.bufq))), u.bufq)
  }

  lemma CleanedNext(s: Sc, t: TidId)
    requires s.tids[t].bufq != []
    ensures var u := s.tids[t]; var f := u.bufq[0];
      var w := if f.isretried then Resolve(u.win, f.seqno) else u.win;
      Cleaned(s, t) == Cleaned(S.FreeBuf(S.SetTid(s, t, u.(win := w, bufq := u.bufq[1..])), f), t)
  {
    hide Resolve;
    var u := s.tids[t];
    var f := u.bufq[0];
    var v := u.(win := if f.isretried then Resolve(u.win, f.seqno) else u.win, bufq := u.bufq[1..]);
    TwiceTid(s, t, v, v.(bufq := [], win := FlushRetried(v.win, v.bufq)));
  }

  lemma CleanedNone(s: Sc, t: TidId)
    requires s.tids[t].bufq == []
    ensures Cleaned(s, t) == s
  {
    assert s.tids[t := s.tids[t]] == s.tids;
  }

  /** What the loop of TidDrain makes of identifier t. */
  ghost function Emptied(s: Sc, t: TidId): Sc {
    FreeAll(S.SetTid(s, t, s.tids[t].(bufq := [])), s.tids[t].bufq)
  }

  lemma EmptiedNext(s: Sc, t: TidId)
    requires s.tids[t].bufq != []
    ensures var u := s.tids[t];
      Emptied(s, t) == Emptied(S.FreeBuf(S.SetTid(s, t, u.(bufq := u.bufq[1..])), u.bufq[0]), t)
  {
    var u := s.tids[t];
    TwiceTid(s, t, u.(bufq := u.bufq[1..]), u.(bufq := []));
  }

  lemma EmptiedNone(s: Sc, t: TidId)
    requires s.tids[t].bufq == []
    ensures Emptied(s, t) == s
  {
    assert s.tids[t := s.tids[t]] == s.tids;
  }

  lemma EmptiedIs(s: Sc, t: TidId)
    ensures Emptied(s, t) == S.SetTid(FreeAll(s, s.tids[t].bufq), t, s.tids[t].(bufq := []))
  {
    FreeAllTid(s, t, s.tids[t].(bufq := []), s.tids[t].bufq);
  }

  class Transmitter {
    const k2: bool
    const tids: seq<TidState>
    const txqs: seq<TxQueue>
    ghost const repr: set<object>
    var free: seq<nat>
    var held: nat
    var done: seq<nat>

    /** Everything is its own object. */
    ghost predicate Layout() {
      && |tids| == NUM_TIDS && |txqs| == WME_NUM_AC && this in repr
      && (forall t :: 0 <= t < NUM_TIDS ==>
            tids[t].id == t && tids[t] in repr && tids[t].baw in repr && tids[t].baw.bitmap in repr)
      && (forall q :: 0 <= q < WME_NUM_AC ==> txqs[q].ac == q && txqs[q] in repr)
      && (forall t, u :: 0 <= t < u < NUM_TIDS ==>
            tids[t].baw != tids[u].baw && tids[t].baw.bitmap != tids[u].baw.bitmap)
    }

    ghost predicate Valid()
      reads this, repr
    {
      && Layout()
      && (forall t :: 0 <= t < NUM_TIDS ==> tids[t].baw.Valid())
      && (forall q, i :: 0 <= q < WME_NUM_AC && 0 <= i < |txqs[q].tidq| ==> Mine(txqs[q].tidq[i]))
    }

    predicate Mine(tid: TidState)
      requires Layout()
    {
      tids[tid.id] == tid
    }

    predicate Ours(txq: TxQueue)
      requires Layout()
    {
      txqs[txq.ac] == txq
    }

    ghost function Tids(): seq<Tid>
      requires Valid()
      reads this, repr
    {
      seq(NUM_TIDS, t requires 0 <= t < NUM_TIDS && Valid() reads this, repr => tids[t].Abs())
    }

    ghost function Abs(): Sc
      requires Valid()
      reads this, repr
    {
      State(k2, free, held, Tids(),
            seq(WME_NUM_AC, q requires 0 <= q < WME_NUM_AC && Valid() reads this, repr => txqs[q].entries),
            seq(WME_NUM_AC, q requires 0 <= q < WME_NUM_AC && Valid() reads this, repr => txqs[q].Ids()), done)
    }

    lemma Look(tid: TidState)
      requires Valid() && Mine(tid)
      ensures Abs().tids[tid.id] == tid.Abs()
    {}

    lemma Waiting(txq: TxQueue)
      requires Valid() && Ours(txq)
      ensures Abs().tidq[txq.ac] == txq.Ids() && |txq.Ids()| == |txq.tidq| && Abs().hw[txq.ac] == txq.entries
      ensures txq.tidq != [] ==> Mine(txq.tidq[0]) && txq.Ids()[0] == txq.tidq[0].id
    {}

    lemma SameTid(s: Sc, t: TidId)
      ensures S.SetTid(s, t, s.tids[t]) == s
    {
      assert s.tids[t := s.tids[t]] == s.tids;
    }

    /** Only identifier t may differ from state s. */
    lemma OneTid(s: Sc, t: TidId)
      requires Valid() && free == s.free && held == s.held && done == s.done && k2 == s.k2
      requires forall u :: 0 <= u < NUM_TIDS && u != t ==> tids[u].Abs() == s.tids[u]
      requires forall q :: 0 <= q < WME_NUM_AC ==> txqs[q].entries == s.hw[q] && txqs[q].Ids() == s.tidq[q]
      ensures Abs() == S.SetTid(s, t, tids[t].Abs())
    {
      var r := Abs();
      assert r.tids == s.tids[t := tids[t].Abs()];
      assert r.hw == s.hw && r.tidq == s.tidq;
    }

    /** Only the entries of hardware queue q may differ from state s. */
    lemma OneQueue(s: Sc, q: Ac)
      requires Valid() && free == s.free && held == s.held && done == s.done && k2 == s.k2
      requires forall u :: 0 <= u < NUM_TIDS ==> tids[u].Abs() == s.tids[u]
      requires forall p :: 0 <= p < WME_NUM_AC ==> txqs[p].Ids() == s.tidq[p]
      requires forall p :: 0 <= p < WME_NUM_AC && p != q ==> txqs[p].entries == s.hw[p]
      ensures Abs() == s.(hw := s.hw[q := txqs[q].entries])
    {
      var r := Abs();
      assert r.tids == s.tids && r.tidq == s.tidq;
      assert r.hw == s.hw[q := txqs[q].entries];
    }

    /** Only the list of hardware queue q may differ from state s. */
    lemma OneList(s: Sc, q: Ac)
      requires Valid() && free == s.free && held == s.held && done == s.done && k2 == s.k2
      requires forall u :: 0 <= u < NUM_TIDS ==> tids[u].Abs() == s.tids[u]
      requires forall p :: 0 <= p < WME_NUM_AC ==> txqs[p].entries == s.hw[p]
      requires forall p :: 0 <= p < WME_NUM_AC && p != q ==> txqs[p].Ids() == s.tidq[p]
      ensures Abs() == s.(tidq := s.tidq[q := txqs[q].Ids()])
    {
      var r := Abs();
      assert r.tids == s.tids && r.hw == s.hw;
      assert r.tidq == s.tidq[q := txqs[q].Ids()];
    }

    /** No identifier and no queue differs from state s. */
    lemma Buffers(s: Sc)
      requires Valid() && k2 == s.k2
      requires forall u :: 0 <= u < NUM_TIDS ==> tids[u].Abs() == s.tids[u]
      requires forall p :: 0 <= p < WME_NUM_AC ==> txqs[p].entries == s.hw[p] && txqs[p].Ids() == s.tidq[p]
      ensures Abs() == s.(free := free, held := held, done := done)
    {
      var r := Abs();
      assert r.tids == s.tids && r.hw == s.hw && r.tidq == s.tidq;
    }

    constructor (k2: bool, n: nat)
      ensures Valid() && Abs() == Attached(k2, n)
    {
      var ts, tidObjects := MakeTids();
      var qs, queueObjects := MakeQueues();
      this.k2, tids, txqs := k2, ts, qs;
      free, held, done := seq(n, i requires 0 <= i < n => i + 1), 0, [];
      repr := tidObjects + queueObjects + {this};
    }

    // -----------------------------------------------------------------------------
    // Buffers

    method FreeBuf(f: Frame)
      requires Valid()
      modifies repr
      ensures Valid() && Abs() == S.FreeBuf(old(Abs()), f)
    {
      done := done + [f.skb];
      var bf := held;
      held := f.buf;
      free := free + [bf];
      Buffers(old(Abs()));
    }

    method Toggle(f: Frame) returns (g: Frame)
      requires Valid()
      modifies repr
      ensures Valid() && (Abs(), g) == S.Toggle(old(Abs()), f)
    {
      g := f.(buf := held);
      held := f.buf;
      Buffers(old(Abs()));
    }

    method Submit(txq: TxQueue, c: Chain)
      requires Valid() && Ours(txq)
      modifies repr
      ensures Valid() && Abs() == S.Submit(old(Abs()), txq.ac, c)
    {
      txq.entries := txq.entries + [c];
      OneQueue(old(Abs()), txq.ac);
    }

    // -----------------------------------------------------------------------------
    // Scheduling

    method Append(txq: TxQueue, tid: TidState)
      requires Valid() && Ours(txq) && Mine(tid)
      modifies repr
      ensures Valid() && Abs() == old(Abs()).(tidq := old(Abs()).tidq[txq.ac := old(Abs()).tidq[txq.ac] + [tid.id]])
    {
      txq.tidq := txq.tidq + [tid];
      assert txq.Ids() == old(txq.Ids()) + [tid.id];
      OneList(old(Abs()), txq.ac);
    }

    method Enqueue(txq: TxQueue, tid: TidState)
      requires Valid() && Ours(txq) && Mine(tid)
      modifies repr
      ensures Valid() && Abs() == S.Enqueue(old(Abs()), txq.ac, tid.id)
    {
      if tid.paused {
        return;
      }
      if tid.sched {
        return;
      }
      tid.sched := true;
      OneTid(old(Abs()), tid.id);
      Append(txq, tid);
    }

    /** The first queued frame enters the window and leaves the queue. */
    method TakeFirst(tid: TidState) returns (bf: Frame)
      requires Valid() && Mine(tid) && tid.bufq != []
      modifies repr
      ensures Valid() && bf == old(tid.bufq[0])
      ensures var u := old(tid.Abs());
        Abs() == S.SetTid(old(Abs()), tid.id, u.(win := AddFrame(u.win, bf), bufq := u.bufq[1..]))
    {
      hide Add;
      bf := tid.bufq[0];
      tid.baw.AddTo(bf.seqno, bf.isretried);
      tid.bufq := tid.bufq[1..];
      OneTid(old(Abs()), tid.id);
    }

    method FormAggr(tid: TidState, limit: nat) returns (bfq: seq<Frame>, r: Aggregate.Form)
      requires Valid() && Mine(tid) && tid.bufq != []
      modifies repr
      ensures Valid()
      ensures var u := old(tid.Abs());
        && r == Aggregate.FormAggr(u.win.seqStart, u.bufq, U16(limit), k2)
        && r.count <= |u.bufq| && bfq == u.bufq[..r.count]
        && Abs() == S.SetTid(old(Abs()), tid.id, Taken(u, r.count))
    {
      hide Offset, U16, AddFrame, Taken;
      hide Aggregate.FormFrom, Aggregate.AlDelta, Aggregate.Bpad, Aggregate.MaxSubframes;
      ghost var s := Abs();
      ghost var u := tid.Abs();
      Look(tid);
      var seqStart := tid.baw.seqStart;
      var n, al, bpad := 0, 0, 0;
      bfq := [];
      TakenNone(u);
      while true
        invariant Valid() && n < |u.bufq| && bfq == u.bufq[..n]
        invariant Abs() == S.SetTid(s, tid.id, Taken(u, n))
        invariant Aggregate.FormFrom(seqStart, u.bufq[n..], U16(limit), k2, n, al, bpad)
               == Aggregate.FormAggr(seqStart, u.bufq, U16(limit), k2)
        decreases |u.bufq| - n
      {
        Look(tid);
        TakenNext(u, n);
        Aggregate.FormFromUnfold(seqStart, u.bufq[n..], U16(limit), k2, n, al, bpad);
        var bf := tid.bufq[0];
        if Offset(seqStart, bf.seqno) >= WME_MAX_BA {
          return bfq, Aggregate.Form(n, al, Aggregate.BawClosed);
        }
        var alDelta := Aggregate.AlDelta(bf);
        if n > 0 && U16(limit) < al + bpad + alDelta {
          return bfq, Aggregate.Form(n, al, Aggregate.Limited);
        }
        if n >= Aggregate.MaxSubframes(k2) {
          return bfq, Aggregate.Form(n, al, Aggregate.Limited);
        }
        bf := TakeFirst(tid);
        bfq := bfq + [bf];
        n := n + 1;
        al := U16(al + bpad + alDelta);
        bpad := Aggregate.Bpad(bf);
        assert Abs() == S.SetTid(s, tid.id, Taken(u, n));
        Look(tid);
        if tid.bufq == [] {
          return bfq, Aggregate.Form(n, al, Aggregate.Done);
        }
      }
    }

    /** The do loop of ath_tgt_tx_sched_aggr: it ends after one entry, the hardware queue no longer being short. */
    method SchedAggr(tid: TidState, limit: nat)
      requires Valid() && Mine(tid)
      modifies repr
      ensures Valid() && Abs() == S.SchedAggr(old(Abs()), tid.id, limit)
    {
      Look(tid);
      if tid.bufq == [] {
        return;
      }
      ghost var u := tid.Abs();
      var bfq, r := FormAggr(tid, limit);
      if bfq == [] {
        TakenNone(u);
        SameTid(old(Abs()), tid.id);
        return;
      }
      Submit(txqs[QueueOf(tid.id)], bfq);
    }

    method SchedNormal(tid: TidState)
      requires Valid() && Mine(tid)
      modifies repr
      ensures Valid() && Abs() == S.SchedNormal(old(Abs()), tid.id)
    {
      Look(tid);
      if tid.bufq == [] {
        return;
      }
      var bf := tid.bufq[0];
      assert tid.bufq[..1] == [bf];
      tid.bufq := tid.bufq[1..];
      OneTid(old(Abs()), tid.id);
      Submit(txqs[QueueOf(tid.id)], [bf]);
    }

    method RemoveHead(txq: TxQueue) returns (tid: TidState)
      requires Valid() && Ours(txq) && txq.tidq != []
      modifies repr
      ensures Valid() && Mine(tid) && tid == old(txq.tidq[0])
      ensures Abs() == old(Abs()).(tidq := old(Abs()).tidq[txq.ac := old(txq.Ids())[1..]])
      ensures |txq.tidq| == old(|txq.tidq|) - 1
    {
      Waiting(txq);
      tid := txq.tidq[0];
      txq.tidq := txq.tidq[1..];
      assert txq.Ids() == old(txq.Ids())[1..];
      OneList(old(Abs()), txq.ac);
    }

    /** The head of a list leaves it, no longer marked. */
    method Dequeue(txq: TxQueue) returns (tid: TidState)
      requires Valid() && Ours(txq) && txq.tidq != []
      modifies repr
      ensures Valid() && Mine(tid) && |txq.tidq| == old(|txq.tidq|) - 1
      ensures old(Abs()).tidq[txq.ac] != [] && tid.id == old(Abs()).tidq[txq.ac][0]
      ensures Abs() == S.Dequeue(old(Abs()), txq.ac) && tid.paused == old(Abs()).tids[tid.id].paused
    {
      Waiting(txq);
      tid := RemoveHead(txq);
      Look(tid);
      ghost var s := Abs();
      tid.sched := false;
      OneTid(s, tid.id);
    }

    method TxqSchedule(txq: TxQueue, limit: nat)
      requires Valid() && Ours(txq)
      modifies repr
      ensures Valid() && Abs() == Schedule(old(Abs()), txq.ac, limit)
    {
      hide S.SchedTid, S.Dequeue;
      while true
        invariant Valid() && Schedule(Abs(), txq.ac, limit) == Schedule(old(Abs()), txq.ac, limit)
        decreases |txq.tidq|
      {
        Waiting(txq);
        if txq.tidq == [] {
          return;
        }
        var tid := Dequeue(txq);
        if !tid.paused {
          SchedOne(tid, limit);
          Look(tid);
          if tid.bufq != [] {
            Enqueue(txq, tid);
          }
          return;
        }
      }
    }

    method SchedOne(tid: TidState, limit: nat)
      requires Valid() && Mine(tid)
      modifies repr
      ensures Valid() && Abs() == SchedTid(old(Abs()), tid.id, limit)
    {
      hide S.SchedAggr, S.SchedNormal;
      Look(tid);
      if tid.aggr {
        SchedAggr(tid, limit);
      } else {
        SchedNormal(tid);
      }
    }

    method Resume(tid: TidState, limit: nat)
      requires Valid() && Mine(tid)
      modifies repr
      ensures Valid() && Abs() == S.Resume(old(Abs()), tid.id, limit)
    {
      hide S.Enqueue, Schedule;
      Look(tid);
      var txq := txqs[QueueOf(tid.id)];
      tid.paused := false;
      OneTid(old(Abs()), tid.id);
      if tid.bufq == [] {
        return;
      }
      Enqueue(txq, tid);
      TxqSchedule(txq, limit);
    }

    // -----------------------------------------------------------------------------
    // Completion of data frames

    method UpdateBaw(tid: TidState, seqno: nat)
      requires Valid() && Mine(tid)
      modifies repr
      ensures Valid() && Abs() == S.UpdateBaw(old(Abs()), tid.id, seqno)
    {
      hide Resolve;
      tid.baw.Update(seqno);
      OneTid(old(Abs()), tid.id);
    }

    method BarTx(tid: TidState, f: Frame)
      requires Valid() && Mine(tid)
      modifies repr
      ensures Valid() && Abs() == S.BarTx(old(Abs()), tid.id, f)
    {
      tid.paused := true;
      OneTid(old(Abs()), tid.id);
      Submit(txqs[QueueOf(tid.id)], [f.(comp := Bar, seqno := tid.baw.seqStart, tid := tid.id)]);
    }

    method RetrySubframe(tid: TidState, f: Frame, last: bool, bfq: seq<Frame>, bar: seq<Frame>)
      returns (bfq': seq<Frame>, bar': seq<Frame>)
      requires Valid() && Mine(tid)
      modifies repr
      ensures Valid()
      ensures Acc(Abs(), bfq', bar', 0) == S.RetrySubframe(Acc(old(Abs()), bfq, bar, 0), tid.id, f, last)
    {
      hide S.UpdateBaw;
      bfq', bar' := bfq, bar;
      if f.retries >= OWLMAX_RETRIES {
        UpdateBaw(tid, f.seqno);
        if bar == [] {
          bar' := [f];
        } else {
          FreeBuf(f);
        }
        return;
      }
      var g := f;
      if last {
        g := Toggle(f);
      }
      bfq' := bfq + [SetRetry(g)];
    }

    /** The retried frames go back in front of the queue, and the identifier on its list. */
    method Prepend(tid: TidState, bfq: seq<Frame>)
      requires Valid() && Mine(tid)
      modifies repr
      ensures Valid()
      ensures var s, t := old(Abs()), tid.id;
        Abs() == S.Enqueue(S.SetTid(s, t, s.tids[t].(bufq := bfq + s.tids[t].bufq)), QueueOf(t), t)
    {
      Look(tid);
      tid.bufq := bfq + tid.bufq;
      OneTid(old(Abs()), tid.id);
      Enqueue(txqs[QueueOf(tid.id)], tid);
    }

    /** ath_tgt_tx_comp_aggr and ath_tx_comp_aggr_error walk the chain alike; nbad goes to rate control. */
    method CompAggr(tid: TidState, chain: Chain, st: TxStat) returns (nbad: nat)
      requires Valid() && Mine(tid)
      modifies repr
      ensures Valid() && Abs() == S.CompAggr(old(Abs()), tid.id, chain, st)
      ensures nbad == CompFrames(Acc(old(Abs()), [], [], 0), tid.id, chain, st, UseBa(st)).nbad
    {
      hide S.UpdateBaw, S.Enqueue, S.BarTx, S.RetrySubframe, Acked;
      var bfq: seq<Frame>, bar: seq<Frame> := [], [];
      var bf: seq<Frame> := chain;
      ghost var a := Acc(Abs(), [], [], 0);
      nbad := 0;
      while bf != []
        invariant Valid()
        invariant CompFrames(Acc(Abs(), bfq, bar, nbad), tid.id, bf, st, UseBa(st))
               == CompFrames(a, tid.id, chain, st, UseBa(st))
        decreases |bf|
      {
        ghost var b := Acc(Abs(), bfq, bar, nbad);
        var f := bf[0];
        if UseBa(st) && Acked(st, f.seqno) {
          UpdateBaw(tid, f.seqno);
          FreeBuf(f);
        } else {
          RetryNbad(b, tid.id, f, |bf| == 1);
          bfq, bar := RetrySubframe(tid, f, |bf| == 1, bfq, bar);
          nbad := nbad + 1;
        }
        assert Acc(Abs(), bfq, bar, nbad) == CompSubframe(b, tid.id, f, |bf| == 1, UseBa(st) && Acked(st, f.seqno));
        bf := bf[1..];
      }
      if bar != [] {
        BarTx(tid, bar[0]);
      }
      if bfq != [] {
        Prepend(tid, bfq);
      }
    }

    method CompUnaggr(tid: TidState, f: Frame, st: TxStat, linked: bool)
      requires Valid() && Mine(tid)
      modifies repr
      ensures Valid() && Abs() == S.CompUnaggr(old(Abs()), tid.id, f, st, linked)
    {
      hide S.UpdateBaw, S.BarTx, S.Enqueue;
      if st.xretry {
        RetryUnaggr(tid, f, linked);
        return;
      }
      UpdateBaw(tid, f.seqno);
      FreeBuf(f);
    }

    method RetryUnaggr(tid: TidState, f: Frame, linked: bool)
      requires Valid() && Mine(tid)
      modifies repr
      ensures Valid() && Abs() == S.CompUnaggr(old(Abs()), tid.id, f, TxStat(true, false, false, 0, []), linked)
    {
      hide S.UpdateBaw, S.BarTx, S.Enqueue;
      if f.retries >= OWLMAX_RETRIES {
        UpdateBaw(tid, f.seqno);
        BarTx(tid, f);
        return;
      }
      var g := f;
      if !linked {
        g := Toggle(f);
      }
      Prepend(tid, [SetRetry(g)]);
    }

    method TidCleanup(tid: TidState, limit: nat)
      requires Valid() && Mine(tid)
      modifies repr
      ensures Valid() && Abs() == S.TidCleanup(old(Abs()), tid.id, limit)
    {
      hide S.Resume;
      Look(tid);
      tid.incomp := tid.incomp - 1;
      OneTid(old(Abs()), tid.id);
      if tid.incomp != 0 {
        return;
      }
      ghost var s := Abs();
      tid.cleanup := false;
      OneTid(s, tid.id);
      Resume(tid, limit);
    }

    method CompCleanup(tid: TidState, chain: Chain, limit: nat)
      requires Valid() && Mine(tid)
      modifies repr
      ensures Valid() && Abs() == S.CompCleanup(old(Abs()), tid.id, chain, limit)
    {
      hide S.TidCleanup;
      var bf: seq<Frame> := chain;
      while bf != []
        invariant Valid() && S.CompCleanup(Abs(), tid.id, bf, limit) == S.CompCleanup(old(Abs()), tid.id, chain, limit)
        decreases |bf|
      {
        FreeBuf(bf[0]);
        Look(tid);
        var last := tid.incomp == 1;
        TidCleanup(tid, limit);
        if last {
          return;
        }
        bf := bf[1..];
      }
    }

    method CompNormal(tid: TidState, f: Frame, limit: nat)
      requires Valid() && Mine(tid)
      modifies repr
      ensures Valid() && Abs() == S.CompNormal(old(Abs()), tid.id, f, limit)
    {
      hide S.TidCleanup;
      Look(tid);
      if tid.cleanup {
        TidCleanup(tid, limit);
      }
      FreeBuf(f);
    }

    // -----------------------------------------------------------------------------
    // Teardown

    /** One frame leaves the queue and its buffer goes back to the pool. */
    method FreeFirst(tid: TidState)
      requires Valid() && Mine(tid) && tid.bufq != []
      modifies repr
      ensures Valid() && tid.bufq == old(tid.bufq[1..])
      ensures var s := old(Abs()); var u := s.tids[tid.id];
        Abs() == S.FreeBuf(S.SetTid(s, tid.id, u.(bufq := u.bufq[1..])), old(tid.bufq[0]))
    {
      Look(tid);
      var bf := tid.bufq[0];
      tid.bufq := tid.bufq[1..];
      OneTid(old(Abs()), tid.id);
      FreeBuf(bf);
      Look(tid);
    }

    /** One turn of the loop below: a frame that was retried is resolved first. */
    method CleanFirst(tid: TidState)
      requires Valid() && Mine(tid) && tid.bufq != []
      modifies repr
      ensures Valid() && tid.bufq == old(tid.bufq[1..])
      ensures var s := old(Abs()); var u := s.tids[tid.id]; var f := old(tid.bufq[0]);
        var w := if f.isretried then Resolve(u.win, f.seqno) else u.win;
        Abs() == S.FreeBuf(S.SetTid(s, tid.id, u.(win := w, bufq := u.bufq[1..])), f)
    {
      hide Resolve;
      Look(tid);
      ghost var s := Abs();
      ghost var u := tid.Abs();
      if tid.bufq[0].isretried {
        UpdateBaw(tid, tid.bufq[0].seqno);
        Look(tid);
        TwiceTid(s, tid.id, tid.Abs(), tid.Abs().(bufq := u.bufq[1..]));
      }
      FreeFirst(tid);
    }

    /** The first loop of ath_tgt_tx_cleanup: free what is queued, resolving what was retried. */
    method CleanQueue(tid: TidState)
      requires Valid() && Mine(tid)
      modifies repr
      ensures Valid() && Abs() == Cleaned(old(Abs()), tid.id)
    {
      hide Cleaned, Resolve, S.FreeBuf, S.SetTid;
      Look(tid);
      while tid.bufq != []
        invariant Valid() && Cleaned(Abs(), tid.id) == Cleaned(old(Abs()), tid.id)
        decreases |tid.bufq|
      {
        Look(tid);
        CleanedNext(Abs(), tid.id);
        CleanFirst(tid);
      }
      Look(tid);
      CleanedNone(Abs(), tid.id);
    }

    method Cleanup(tid: TidState, limit: nat)
      requires Valid() && Mine(tid)
      modifies repr
      ensures Valid() && Abs() == S.Cleanup(old(Abs()), tid.id, limit)
    {
      hide FlushRetried, Flush, S.Resume, FreeAll;
      ghost var s := Abs();
      ghost var u := tid.Abs();
      Look(tid);
      FreeAllTid(s, tid.id, u.(bufq := [], win := FlushRetried(u.win, u.bufq)), u.bufq);
      CleanQueue(tid);
      Look(tid);
      EmptyWindow(tid);
      TwiceTid(FreeAll(s, u.bufq), tid.id, u.(bufq := [], win := FlushRetried(u.win, u.bufq)), CleanupTid(u));
      Look(tid);
      if !tid.cleanup {
        Resume(tid, limit);
      }
    }

    /** Pause, and the second loop of ath_tgt_tx_cleanup: count the members of the window and clear them. */
    method EmptyWindow(tid: TidState)
      requires Valid() && Mine(tid)
      modifies repr
      ensures Valid()
      ensures var u := old(tid.Abs()); var (w, n) := Flush(u.win);
        Abs() == S.SetTid(old(Abs()), tid.id,
                          u.(paused := true, win := w, incomp := u.incomp + n, cleanup := u.cleanup || n > 0))
    {
      hide Flush;
      tid.paused := true;
      var incomp := tid.baw.Empty(tid.incomp);
      if incomp > tid.incomp {
        tid.cleanup := true;
      }
      tid.incomp := incomp;
      OneTid(old(Abs()), tid.id);
    }

    /** The loop of ath_tgt_tid_drain */
    method EmptyQueue(tid: TidState)
      requires Valid() && Mine(tid)
      modifies repr
      ensures Valid() && Abs() == Emptied(old(Abs()), tid.id)
    {
      hide Emptied;
      Look(tid);
      while tid.bufq != []
        invariant Valid() && Emptied(Abs(), tid.id) == Emptied(old(Abs()), tid.id)
        decreases |tid.bufq|
      {
        Look(tid);
        EmptiedNext(Abs(), tid.id);
        FreeFirst(tid);
      }
      Look(tid);
      EmptiedNone(Abs(), tid.id);
    }

    method TidDrain(tid: TidState)
      requires Valid() && Mine(tid)
      modifies repr
      ensures Valid() && Abs() == Drain(old(Abs()), tid.id)
    {
      hide FreeAll, Emptied;
      ghost var s := Abs();
      ghost var u := tid.Abs();
      Look(tid);
      EmptiedIs(s, tid.id);
      EmptyQueue(tid);
      Look(tid);
      ghost var s1 := Abs();
      tid.seqNext := tid.baw.seqStart;
      tid.baw.bawTail := tid.baw.bawHead;
      OneTid(s1, tid.id);
      TwiceTid(FreeAll(s, u.bufq), tid.id, u.(bufq := []), DrainTid(u));
    }

    /** The second half of ath_draintxq, for one queue. */
    method DrainScheduled(txq: TxQueue)
      requires Valid() && Ours(txq)
      modifies repr
      ensures Valid() && Abs() == S.DrainScheduled(old(Abs()), txq.ac)
      ensures txq.tidq == []
    {
      hide Drain, S.Dequeue;
      while txq.tidq != []
        invariant Valid() && S.DrainScheduled(Abs(), txq.ac) == S.DrainScheduled(old(Abs()), txq.ac)
        decreases |Abs().tidq[txq.ac]|
      {
        Waiting(txq);
        ghost var s := Abs();
        var tid := Dequeue(txq);
        TidDrain(tid);
        assert Abs() == DrainFirst(s, txq.ac);
        Waiting(txq);
      }
      Waiting(txq);
    }

    method Disable(tid: TidState, limit: nat)
      requires Valid() && Mine(tid)
      modifies repr
      ensures Valid() && Abs() == S.Disable(old(Abs()), tid.id, limit)
    {
      hide S.Cleanup;
      Look(tid);
      tid.aggr := false;
      OneTid(old(Abs()), tid.id);
      Cleanup(tid, limit);
    }

    method CompBar(tid: TidState, f: Frame, st: TxStat, linked: bool, limit: nat)
      requires Valid() && Mine(tid)
      modifies repr
      ensures Valid() && Abs() == S.CompBar(old(Abs()), tid.id, f, st, linked, limit)
    {
      hide S.Resume, S.Disable, Drain;
      if st.xretry {
        BarRetry(tid, f, linked, limit);
        return;
      }
      Resume(tid, limit);
      FreeBuf(f);
    }

    method BarRetry(tid: TidState, f: Frame, linked: bool, limit: nat)
      requires Valid() && Mine(tid)
      modifies repr
      ensures Valid()
      ensures Abs() == S.CompBar(old(Abs()), tid.id, f, TxStat(true, false, false, 0, []), linked, limit)
    {
      hide S.Resume, S.Disable, Drain;
      if f.retries >= OWLMAX_BAR_RETRIES {
        Disable(tid, limit);
        TidDrain(tid);
        FreeBuf(f);
        return;
      }
      var g := f;
      if !linked {
        g := Toggle(f);
      }
      Submit(txqs[QueueOf(tid.id)], [SetRetry(g)]);
    }

    // -----------------------------------------------------------------------------
    // Frames from the host, and the completion interrupt

    /** The first buffer leaves the free list. */
    method TakeFree() returns (buf: nat)
      requires Valid() && free != []
      modifies repr
      ensures Valid() && buf == old(free[0]) && Abs() == old(Abs()).(free := old(free[1..]))
    {
      buf := free[0];
      free := free[1..];
      Buffers(old(Abs()));
    }

    method Prepare(tid: TidState, skb: nat, pktlen: nat, key: KeyType) returns (f: Frame)
      requires Valid() && Mine(tid) && free != []
      modifies repr
      ensures Valid() && (Abs(), f) == Prepared(old(Abs()), tid.id, skb, pktlen, key)
    {
      hide NextSeq;
      Look(tid);
      var buf := TakeFree();
      Look(tid);
      ghost var s := Abs();
      f := Frame(buf, skb, tid.id, tid.seqNext, 0, false, if tid.aggr then Aggr else Normal, pktlen, key);
      tid.seqNext := NextSeq(tid.seqNext);
      OneTid(s, tid.id);
    }

    method Receive(tid: TidState, known: bool, skb: nat, pktlen: nat, key: KeyType)
      requires Valid() && Mine(tid)
      modifies repr
      ensures Valid() && Abs() == S.Receive(old(Abs()), tid.id, known, skb, pktlen, key)
    {
      hide HandleAggr, HandleNormal;
      Look(tid);
      if !known || free == [] {
        done := done + [skb];
        Buffers(old(Abs()));
        return;
      }
      var f := Prepare(tid, skb, pktlen, key);
      Look(tid);
      if tid.aggr {
        ReceiveAggr(tid, f);
      } else {
        ReceiveNormal(tid, f);
      }
    }

    method ReceiveAggr(tid: TidState, f: Frame)
      requires Valid() && Mine(tid) && !f.isretried
      modifies repr
      ensures Valid() && Abs() == HandleAggr(old(Abs()), tid.id, f)
    {
      hide Add, S.Enqueue;
      Look(tid);
      var txq := txqs[QueueOf(tid.id)];
      Waiting(txq);
      var withinBaw := Offset(tid.baw.seqStart, f.seqno) < WME_MAX_BA;
      if |txq.entries| >= ATH_AGGR_MIN_QDEPTH || tid.bufq != [] || tid.paused || !withinBaw {
        tid.bufq := tid.bufq + [f];
        OneTid(old(Abs()), tid.id);
        Enqueue(txq, tid);
      } else {
        tid.baw.AddTo(f.seqno, f.isretried);
        OneTid(old(Abs()), tid.id);
        Submit(txq, [f]);
      }
    }

    method ReceiveNormal(tid: TidState, f: Frame)
      requires Valid() && Mine(tid)
      modifies repr
      ensures Valid() && Abs() == HandleNormal(old(Abs()), tid.id, f)
    {
      Look(tid);
      tid.baw.seqStart := NextSeq(tid.baw.seqStart);
      OneTid(old(Abs()), tid.id);
      Submit(txqs[QueueOf(tid.id)], [f]);
    }

    method ProcessHead(txq: TxQueue, st: TxStat, linked: bool, limit: nat)
      requires Valid() && Ours(txq) && txq.entries != []
      modifies repr
      ensures Valid() && old(Abs()).hw[txq.ac] != [] && Abs() == Process(old(Abs()), txq.ac, st, linked, limit)
    {
      hide S.CompNormal, S.CompBar, S.CompCleanup, S.CompUnaggr, S.CompAggr;
      Waiting(txq);
      var c := txq.entries[0];
      var tid := tids[c[0].tid];
      txq.entries := txq.entries[1..];
      OneQueue(old(Abs()), txq.ac);
      Look(tid);
      match c[0].comp
      case Normal => CompNormal(tid, c[0], limit);
      case Bar => CompBar(tid, c[0], st, linked, limit);
      case Aggr =>
        if tid.cleanup {
          CompCleanup(tid, c, limit);
        } else if |c| == 1 {
          CompUnaggr(tid, c[0], st, linked);
        } else {
          var nbad := CompAggr(tid, c, st);
        }
    }

    /** owltgt_tx_processq on an active queue: each finished entry is completed, and the queue served again. */
    method ProcessActive(txq: TxQueue, finished: seq<Finished>)
      requires Valid() && Ours(txq)
      modifies repr
      ensures Valid() && Abs() == Run(old(Abs()), Completions(txq.ac, finished))
    {
      hide Process, Schedule;
      var i := 0;
      assert finished[0..] == finished;
      while i < |finished|
        invariant 0 <= i <= |finished| && Valid()
        invariant Run(Abs(), Completions(txq.ac, finished[i..])) == Run(old(Abs()), Completions(txq.ac, finished))
      {
        Waiting(txq);
        if txq.entries == [] {
          NothingLeft(Abs(), txq.ac, finished[i..]);
          return;
        }
        var a := finished[i];
        assert finished[i..][1..] == finished[i + 1..];
        ProcessHead(txq, a.st, a.linked, a.limit);
        TxqSchedule(txq, a.nextLimit);
        i := i + 1;
      }
    }

    /**
     owltgt_tx_processq on a stopped queue, `answers` being what each descriptor turns out to hold.
     It terminates, and leaves the queue empty.
     */
    method ProcessStopped(txq: TxQueue, answers: nat -> Runs.Answer) returns (ghost n: nat)
      requires Valid() && Ours(txq) && Engine.Shape(Abs())
      modifies repr
      ensures Valid() && txq.entries == [] && Engine.Shape(Abs())
      ensures Abs() == Runs.ProcessAll(old(Abs()), txq.ac, Runs.First(n, answers))
    {
      hide Engine.Shape, Conservation.Own, Process, Conservation.HeadShape, Growth.HwGrew;
      n := 0;
      var i := 0;
      ghost var s := Abs();
      while txq.entries != []
        invariant Valid() && Engine.Shape(Abs()) && n == i
        invariant Abs() == Runs.ProcessAll(s, txq.ac, Runs.First(n, answers))
        decreases Conservation.Own(Abs(), Conservation.Credit)
      {
        var a := answers(i);
        ghost var s1 := Abs();
        Waiting(txq);
        Runs.ShapeHead(s1, txq.ac);
        Conservation.ProcessSpends(s1, txq.ac, a.st, a.linked, a.limit, Conservation.Credit);
        Growth.ProcessGrew(s1, txq.ac, a.st, a.linked, a.limit);
        ProcessHead(txq, a.st, a.linked, a.limit);
        Runs.ProcessAllSnoc(s, txq.ac, Runs.First(n, answers), a);
        n := n + 1;
        i := i + 1;
      }
    }
  }

  /** An identifier after its first c frames have been taken into an aggregate. */
  ghost function Taken(tid: Tid, c: nat): Tid
    requires c <= |tid.bufq|
  {
    tid.(win := AddFrames(tid.win, tid.bufq[..c]), bufq := tid.bufq[c..])
  }

  lemma TakenNone(tid: Tid)
    ensures Taken(tid, 0) == tid
  {
    assert tid.bufq[0..] == tid.bufq;
  }

  lemma TakenNext(tid: Tid, n: nat)
    requires n < |tid.bufq|
    ensures var u := Taken(tid, n);
            u.bufq == tid.bufq[n..] && Taken(tid, n + 1).bufq == tid.bufq[n + 1..]
            && tid.bufq[n..][1..] == tid.bufq[n + 1..]
            && Taken(tid, n + 1) == u.(win := AddFrame(u.win, u.bufq[0]), bufq := u.bufq[1..])
  {
    hide AddFrame, AddFrames;
    AddLast(tid.win, tid.bufq, n);
    assert tid.bufq[n..][1..] == tid.bufq[n + 1..];
  }

  lemma {:induction false} AddLast(w: Window, q: seq<Frame>, n: nat)
    requires n < |q|
    ensures AddFrames(w, q[..n + 1]) == AddFrame(AddFrames(w, q[..n]), q[n])
    decreases n
  {
    hide AddFrame;
    if n == 0 {
      assert q[..1] == [q[0]] && q[..0] == [];
      assert q[..1][1..] == [];
    } else {
      assert q[..n + 1][1..] == q[1..][..n] && q[..n][1..] == q[1..][..n - 1];
      AddLast(AddFrame(w, q[0]), q[1..], n - 1);
    }
  }
}
