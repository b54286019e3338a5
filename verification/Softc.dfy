/**
 The transmit data path on values: what each firmware routine does to the buffers, the
 traffic identifiers and the hardware queues. Class Driver.Transmitter is the in-place form.
 A hardware queue entry is a chain: one frame sent alone, or the subframes of an aggregate.
 Whatever hardware and rate control decide is an argument: the status of a completed
 descriptor, whether its link was set, and the aggregate limit of each scheduling decision.
 */
module Softc {
  import opened Frames
  import opened Window
  import Aggregate

  datatype Tid = Tid(win: Window, seqNext: nat, bufq: seq<Frame>, paused: bool, sched: bool,
                     aggr: bool, cleanup: bool, incomp: int)

  type Chain = c: seq<Frame> | |c| > 0 witness [Frame(0, 0, 0, 0, 0, false, Normal, 0, Clear)]

  /** done lists the frames handed back to the host, oldest first. */
  datatype State = State(k2: bool, free: seq<nat>, held: nat, tids: seq<Tid>, hw: seq<seq<Chain>>,
                         tidq: seq<seq<TidId>>, done: seq<nat>)

  type Sc = s: State | |s.tids| == NUM_TIDS && |s.hw| == WME_NUM_AC && |s.tidq| == WME_NUM_AC
    witness State(false, [], 0, seq(NUM_TIDS, _ => FreshTid()), [[], [], [], []], [[], [], [], []], [])

  /** What the hardware wrote back: excessive retries, any other error, and the block ack if one came. */
  datatype TxStat = TxStat(xretry: bool, otherErr: bool, hasBa: bool, seqSt: nat, ba: seq<bool>)

  function FreshTid(): Tid {
    Tid(Fresh(), 0, [], false, false, false, false, 0)
  }

  predicate TxOk(st: TxStat) {
    !st.xretry && !st.otherErr
  }

  /** Is seqno acknowledged by the block ack (ATH_BA_INDEX, ATH_BA_ISSET)? */
  predicate Acked(st: TxStat, seqno: nat) {
    var i := Offset(st.seqSt, seqno);
    TxOk(st) && i < WME_MAX_BA && i < |st.ba| && st.ba[i]
  }

  // ---------------------------------------------------------------------------------
  // Buffers

  /** ath_tx_freebuf, ath_buf_comp: return the frame, park its buffer, free the one parked before. */
  function FreeBuf(s: Sc, f: Frame): Sc {
    s.(done := s.done + [f.skb], free := s.free + [s.held], held := f.buf)
  }

  /** ath_buf_toggle with retry: the frame continues in the parked buffer. */
  function Toggle(s: Sc, f: Frame): (Sc, Frame) {
    (s.(held := f.buf), f.(buf := s.held))
  }

  function ToggleIf(s: Sc, f: Frame, b: bool): (Sc, Frame) {
    if b then Toggle(s, f) else (s, f)
  }

  function SetRetry(f: Frame): Frame {
    f.(isretried := true, retries := f.retries + 1)
  }

  function FreeAll(s: Sc, q: seq<Frame>): Sc
    decreases |q|
  {
    if q == [] then s else FreeAll(FreeBuf(s, q[0]), q[1..])
  }

  function SetTid(s: Sc, t: TidId, tid: Tid): Sc
  {
    s.(tids := s.tids[t := tid])
  }

  /** ath_tgt_txq_add_ucast: the chain goes to the tail of its hardware queue. */
  function Submit(s: Sc, q: Ac, c: Chain): Sc
  {
    s.(hw := s.hw[q := s.hw[q] + [c]])
  }

  // ---------------------------------------------------------------------------------
  // Scheduling

  /** ath_tgt_tx_enqueue */
  function Enqueue(s: Sc, q: Ac, t: TidId): Sc
  {
    if s.tids[t].paused || s.tids[t].sched then s
    else SetTid(s, t, s.tids[t].(sched := true)).(tidq := s.tidq[q := s.tidq[q] + [t]])
  }

  /** ath_tx_addto_baw */
  function AddFrame(w: Window, f: Frame): Window
  {
    if f.isretried then w else Add(w, f.seqno)
  }

  function AddFrames(w: Window, q: seq<Frame>): Window
    decreases |q|
  {
    if q == [] then w else AddFrames(AddFrame(w, q[0]), q[1..])
  }

  /** How many frames ath_tgt_tx_form_aggr takes from a queue. */
  function Chosen(s: Sc, t: TidId, limit: nat): (c: nat)
    ensures c <= |s.tids[t].bufq|
  {
    var tid := s.tids[t];
    if tid.bufq == [] then 0
    else
      Aggregate.FormLaid(tid.win.seqStart, tid.bufq, U16(limit), s.k2);
      Aggregate.FormAggr(tid.win.seqStart, tid.bufq, U16(limit), s.k2).count
  }

  /** ath_tgt_tx_sched_aggr: the first c frames of the queue become one hardware entry. */
  function SendPrefix(s: Sc, t: TidId, c: nat): Sc
    requires 0 < c <= |s.tids[t].bufq|
  {
    var tid := s.tids[t];
    Submit(SetTid(s, t, tid.(win := AddFrames(tid.win, tid.bufq[..c]), bufq := tid.bufq[c..])),
           QueueOf(t), tid.bufq[..c])
  }

  function SchedAggr(s: Sc, t: TidId, limit: nat): Sc
  {
    var c := Chosen(s, t, limit);
    if c == 0 then s else SendPrefix(s, t, c)
  }

  /** ath_tgt_tx_sched_normal: one frame goes out alone. */
  function SchedNormal(s: Sc, t: TidId): Sc
  {
    var tid := s.tids[t];
    if tid.bufq == [] then s
    else Submit(SetTid(s, t, tid.(bufq := tid.bufq[1..])), QueueOf(t), tid.bufq[..1])
  }

  function SchedTid(s: Sc, t: TidId, limit: nat): Sc
  {
    if s.tids[t].aggr then SchedAggr(s, t, limit) else SchedNormal(s, t)
  }

  function Dequeue(s: Sc, q: Ac): Sc
    requires s.tidq[q] != []
  {
    var t := s.tidq[q][0];
    SetTid(s, t, s.tids[t].(sched := false)).(tidq := s.tidq[q := s.tidq[q][1..]])
  }

  function Requeue(s: Sc, q: Ac, t: TidId): Sc
  {
    if s.tids[t].bufq != [] then Enqueue(s, q, t) else s
  }

  /** ath_tgt_txq_schedule: skip paused identifiers, serve the first that is not. */
  function Schedule(s: Sc, q: Ac, limit: nat): Sc
    decreases |s.tidq[q]|
  {
    if s.tidq[q] == [] then s
    else
      var t := s.tidq[q][0];
      var s1 := Dequeue(s, q);
      if s.tids[t].paused then Schedule(s1, q, limit)
      else Requeue(SchedTid(s1, t, limit), q, t)
  }

  /** ath_aggr_resume_tid */
  function Resume(s: Sc, t: TidId, limit: nat): Sc
  {
    var s1 := SetTid(s, t, s.tids[t].(paused := false));
    if s.tids[t].bufq == [] then s1
    else Schedule(Enqueue(s1, QueueOf(t), t), QueueOf(t), limit)
  }

  function Pause(s: Sc, t: TidId): Sc
  {
    SetTid(s, t, s.tids[t].(paused := true))
  }

  // ---------------------------------------------------------------------------------
  // Completion of data frames

  /** ath_tx_update_baw */
  function UpdateBaw(s: Sc, t: TidId, seqno: nat): Sc
  {
    SetTid(s, t, s.tids[t].(win := Resolve(s.tids[t].win, seqno)))
  }

  /** ath_bar_tx: the frame's own buffer carries a block-ack request for the start of the window. */
  function BarTx(s: Sc, t: TidId, f: Frame): Sc
  {
    Submit(Pause(s, t), QueueOf(t), [f.(comp := Bar, seqno := s.tids[t].win.seqStart, tid := t)])
  }

  /** The loop variables of ath_tgt_tx_comp_aggr: frames to retry, the frame to become a BAR, and nbad. */
  datatype Acc = Acc(s: Sc, bfq: seq<Frame>, bar: seq<Frame>, nbad: nat)

  /** ath_tx_retry_subframe; last tells that the subframe ends the chain. */
  function RetrySubframe(a: Acc, t: TidId, f: Frame, last: bool): Acc
  {
    if f.retries >= OWLMAX_RETRIES then
      var s1 := UpdateBaw(a.s, t, f.seqno);
      if a.bar == [] then a.(s := s1, bar := [f]) else a.(s := FreeBuf(s1, f))
    else
      var (s1, g) := ToggleIf(a.s, f, last);
      a.(s := s1, bfq := a.bfq + [SetRetry(g)])
  }

  function CompSubframe(a: Acc, t: TidId, f: Frame, last: bool, acked: bool): (r: Acc)
  {
    if acked then a.(s := FreeBuf(UpdateBaw(a.s, t, f.seqno), f))
    else
      var r := RetrySubframe(a, t, f, last);
      r.(nbad := a.nbad + 1)
  }

  /** The completion loop over a chain; without a usable block ack no subframe counts as acknowledged. */
  function CompFrames(a: Acc, t: TidId, c: seq<Frame>, st: TxStat, useBa: bool): (r: Acc)
    decreases |c|
  {
    if c == [] then a
    else CompFrames(CompSubframe(a, t, c[0], |c| == 1, useBa && Acked(st, c[0].seqno)), t, c[1..], st, useBa)
  }

  /** What follows the loop: send the BAR, put the retried frames back in front, enqueue. */
  function CompFinish(a: Acc, t: TidId): Sc
  {
    var s1 := if a.bar == [] then a.s else BarTx(a.s, t, a.bar[0]);
    if a.bfq == [] then s1
    else Enqueue(SetTid(s1, t, s1.tids[t].(bufq := a.bfq + s1.tids[t].bufq)), QueueOf(t), t)
  }

  predicate UseBa(st: TxStat) {
    !st.xretry && (TxOk(st) ==> st.hasBa)
  }

  /** ath_tgt_tx_comp_aggr, ath_tx_comp_aggr_error, for an aggregate */
  function CompAggr(s: Sc, t: TidId, c: seq<Frame>, st: TxStat): Sc
  {
    CompFinish(CompFrames(Acc(s, [], [], 0), t, c, st, UseBa(st)), t)
  }

  /** ath_tx_comp_unaggr, ath_tx_retry_unaggr */
  function CompUnaggr(s: Sc, t: TidId, f: Frame, st: TxStat, linked: bool): Sc
  {
    if !st.xretry then FreeBuf(UpdateBaw(s, t, f.seqno), f)
    else if f.retries >= OWLMAX_RETRIES then BarTx(UpdateBaw(s, t, f.seqno), t, f)
    else
      var (s1, g) := ToggleIf(s, f, !linked);
      Enqueue(SetTid(s1, t, s1.tids[t].(bufq := [SetRetry(g)] + s1.tids[t].bufq)), QueueOf(t), t)
  }

  /** owl_tgt_tid_cleanup, and the same steps inside ath_tx_comp_cleanup */
  function TidCleanup(s: Sc, t: TidId, limit: nat): Sc
  {
    var s1 := SetTid(s, t, s.tids[t].(incomp := s.tids[t].incomp - 1));
    if s1.tids[t].incomp != 0 then s1
    else Resume(SetTid(s1, t, s1.tids[t].(cleanup := false)), t, limit)
  }

  /** ath_tx_comp_cleanup; the loop over an aggregate stops when the count reaches zero. */
  function CompCleanup(s: Sc, t: TidId, c: seq<Frame>, limit: nat): Sc
    decreases |c|
  {
    if c == [] then s
    else
      var s1 := FreeBuf(s, c[0]);
      if s1.tids[t].incomp == 1 then TidCleanup(s1, t, limit)
      else CompCleanup(TidCleanup(s1, t, limit), t, c[1..], limit)
  }

  /** ath_tgt_tx_comp_normal */
  function CompNormal(s: Sc, t: TidId, f: Frame, limit: nat): Sc
  {
    FreeBuf(if s.tids[t].cleanup then TidCleanup(s, t, limit) else s, f)
  }

  // ---------------------------------------------------------------------------------
  // Teardown

  function FlushRetried(w: Window, q: seq<Frame>): Window
    decreases |q|
  {
    if q == [] then w
    else FlushRetried(if q[0].isretried then Resolve(w, q[0].seqno) else w, q[1..])
  }

  /** ath_tgt_tx_cleanup with discard_all, as every caller passes it */
  function CleanupTid(tid: Tid): Tid
  {
    var (w, n) := Flush(FlushRetried(tid.win, tid.bufq));
    tid.(bufq := [], paused := true, win := w, incomp := tid.incomp + n, cleanup := tid.cleanup || n > 0)
  }

  function Cleanup(s: Sc, t: TidId, limit: nat): Sc
  {
    var s1 := SetTid(FreeAll(s, s.tids[t].bufq), t, CleanupTid(s.tids[t]));
    if s1.tids[t].cleanup then s1 else Resume(s1, t, limit)
  }

  /** ath_tgt_tid_drain: the bitmap is not touched */
  function DrainTid(tid: Tid): Tid {
    tid.(bufq := [], seqNext := tid.win.seqStart, win := tid.win.(tail := tid.win.head))
  }

  function Drain(s: Sc, t: TidId): Sc
  {
    SetTid(FreeAll(s, s.tids[t].bufq), t, DrainTid(s.tids[t]))
  }

  function Disable(s: Sc, t: TidId, limit: nat): Sc
  {
    Cleanup(SetTid(s, t, s.tids[t].(aggr := false)), t, limit)
  }

  /** ath_bar_tx_comp, ath_bar_retry */
  function CompBar(s: Sc, t: TidId, f: Frame, st: TxStat, linked: bool, limit: nat): Sc
  {
    if !st.xretry then FreeBuf(Resume(s, t, limit), f)
    else if f.retries >= OWLMAX_BAR_RETRIES then
      var s1 := Disable(s, t, limit);
      FreeBuf(Drain(s1, t), f)
    else
      var (s1, g) := ToggleIf(s, f, !linked);
      Submit(s1, QueueOf(t), [SetRetry(g)])
  }

  // ---------------------------------------------------------------------------------
  // Frames from the host, and completions in queue order

  function NextSeq(x: nat): nat {
    (x + 1) % SEQ_MAX
  }

  /** ath_tgt_tx_prepare takes the first free buffer and the next sequence number. */
  function Prepared(s: Sc, t: TidId, skb: nat, pktlen: nat, key: KeyType): (Sc, Frame)
    requires s.free != []
  {
    var tid := s.tids[t];
    (SetTid(s, t, tid.(seqNext := NextSeq(tid.seqNext))).(free := s.free[1..]),
     Frame(s.free[0], skb, t, tid.seqNext, 0, false, if tid.aggr then Aggr else Normal, pktlen, key))
  }

  /** ath_tgt_handle_aggr */
  function HandleAggr(s: Sc, t: TidId, f: Frame): Sc {
    var q := QueueOf(t);
    var tid := s.tids[t];
    if |s.hw[q]| >= ATH_AGGR_MIN_QDEPTH || tid.bufq != [] || tid.paused || !Within(tid.win, f.seqno) then
      Enqueue(SetTid(s, t, tid.(bufq := tid.bufq + [f])), q, t)
    else Submit(SetTid(s, t, tid.(win := AddFrame(tid.win, f))), q, [f])
  }

  /** ath_tgt_handle_normal moves the window start, but not the bitmap head. */
  function HandleNormal(s: Sc, t: TidId, f: Frame): Sc {
    var tid := s.tids[t];
    Submit(SetTid(s, t, tid.(win := tid.win.(seqStart := NextSeq(tid.win.seqStart)))), QueueOf(t), [f])
  }

  /** tgt_HTCRecvMessageHandler: a frame for an unknown node, or with no buffer left, goes straight back. */
  function Receive(s: Sc, t: TidId, known: bool, skb: nat, pktlen: nat, key: KeyType): Sc {
    if !known || s.free == [] then s.(done := s.done + [skb])
    else
      var (s1, f) := Prepared(s, t, skb, pktlen, key);
      if s.tids[t].aggr then HandleAggr(s1, t, f) else HandleNormal(s1, t, f)
  }

  /** One turn of owltgt_tx_processq: the oldest entry leaves its queue and its completion function runs. */
  function Process(s: Sc, q: Ac, st: TxStat, linked: bool, limit: nat): Sc
    requires s.hw[q] != []
  {
    var c := s.hw[q][0];
    var t := c[0].tid;
    var s1 := s.(hw := s.hw[q := s.hw[q][1..]]);
    match c[0].comp
    case Normal => CompNormal(s1, t, c[0], limit)
    case Bar => CompBar(s1, t, c[0], st, linked, limit)
    case Aggr =>
      if s.tids[t].cleanup then CompCleanup(s1, t, c, limit)
      else if |c| == 1 then CompUnaggr(s1, t, c[0], st, linked)
      else CompAggr(s1, t, c, st)
  }

  /** The second half of ath_draintxq: every scheduled identifier of a queue is emptied. */
  function DrainScheduled(s: Sc, q: Ac): Sc
    decreases |s.tidq[q]|
  {
    if s.tidq[q] == [] then s else DrainScheduled(DrainFirst(s, q), q)
  }

  function DrainFirst(s: Sc, q: Ac): Sc
    requires s.tidq[q] != []
    ensures DrainFirst(s, q).tidq == s.tidq[q := s.tidq[q][1..]]
  {
    FreeAllKeepsTidq(Dequeue(s, q), s.tids[s.tidq[q][0]].bufq);
    Drain(Dequeue(s, q), s.tidq[q][0])
  }

  lemma FreeAllKeepsTidq(s: Sc, q: seq<Frame>)
    ensures FreeAll(s, q).tidq == s.tidq && FreeAll(s, q).tids == s.tids && FreeAll(s, q).hw == s.hw
    decreases |q|
  {}

  lemma TwiceTid(s: Sc, t: TidId, a: Tid, b: Tid)
    ensures SetTid(SetTid(s, t, a), t, b) == SetTid(s, t, b)
  {
    assert s.tids[t := a][t := b] == s.tids[t := b];
  }

  /** Freeing buffers and changing an identifier do not meet. */
  lemma {:induction false} FreeAllTid(s: Sc, t: TidId, u: Tid, q: seq<Frame>)
    ensures FreeAll(SetTid(s, t, u), q) == SetTid(FreeAll(s, q), t, u)
    decreases |q|
  {
    if q != [] { FreeAllTid(FreeBuf(s, q[0]), t, u, q[1..]); }
  }

  // ---------------------------------------------------------------------------------
  // Runs

  datatype Event =
    | Recv(t: TidId, known: bool, skb: nat, pktlen: nat, key: KeyType)
    | Complete(q: Ac, st: TxStat, linked: bool, limit: nat, nextLimit: nat)
    | CompleteStopped(q: Ac, st: TxStat, linked: bool, limit: nat)
    | EnableAggr(t: TidId)
    | DisableAggr(t: TidId, limit: nat)
    | DrainTids(q: Ac)

  function Step(s: Sc, e: Event): Sc {
    match e
    case Recv(t, known, skb, pktlen, key) => Receive(s, t, known, skb, pktlen, key)
    case Complete(q, st, linked, limit, next) =>
      if s.hw[q] == [] then s else Schedule(Process(s, q, st, linked, limit), q, next)
    case CompleteStopped(q, st, linked, limit) =>
      if s.hw[q] == [] then s else Process(s, q, st, linked, limit)
    case EnableAggr(t) => SetTid(s, t, s.tids[t].(aggr := true))
    case DisableAggr(t, limit) => if s.tids[t].aggr then Disable(s, t, limit) else s
    case DrainTids(q) => DrainScheduled(s, q)
  }

  function Run(s: Sc, es: seq<Event>): Sc
    decreases |es|
  {
    if es == [] then s else Run(Step(s, es[0]), es[1..])
  }

  /** After ath_desc_alloc: buffer 0 is held, buffers 1 to n are free. */
  function Attached(k2: bool, n: nat): Sc {
    State(k2, seq(n, i requires 0 <= i < n => i + 1), 0, seq(NUM_TIDS, _ => FreshTid()),
          [[], [], [], []], [[], [], [], []], [])
  }
}
