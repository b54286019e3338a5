/** What each completion, each decision and each frame from the host does, said of the whole state; and BAR safety. */
module Outcomes {
  import opened Frames
  import opened Window
  import opened Softc
  import opened Session
  import opened Engine
  import opened Steps
  import opened Completions
  import opened Conservation
  import opened Runs
  import Aggregate
  import Growth
  import Slot = Held
  import Scheduling

  // ---------------------------------------------------------------------------------
  // Partition of an aggregate

  datatype Fate = Delivered | Retry | GivenUp

  /**
   Number x is acknowledged: the frame was sent with neither excessive retries nor another error, a block ack
   came back, and x is the i-th number from its start for one of the 64 bits i that are set.
   */
  predicate Acknowledged(st: TxStat, x: nat) {
    && !st.xretry && !st.otherErr && st.hasBa
    && exists i :: 0 <= i < 64 && i < |st.ba| && st.ba[i] && SeqAt(st.seqSt, i) == x % SEQ_MAX
  }

  /** Delivered if acknowledged; otherwise given up after ten retries. */
  function FateOf(f: Frame, st: TxStat): Fate {
    if Acknowledged(st, f.seqno) then Delivered
    else if f.retries >= 10 then GivenUp
    else Retry
  }

  /** The completion loop asks the bit at the number's distance from the start: the same question. */
  lemma AckedIff(st: TxStat, x: nat)
    ensures UseBa(st) && Acked(st, x) <==> Acknowledged(st, x)
  {
    var i := Offset(st.seqSt, x);
    AtDistance(st.seqSt, x, i);
    if Acknowledged(st, x) {
      var j :| 0 <= j < 64 && j < |st.ba| && st.ba[j] && SeqAt(st.seqSt, j) == x % SEQ_MAX;
      AtDistance(st.seqSt, x, j);
    }
  }

  lemma AtDistance(start: nat, x: nat, i: nat)
    requires i < SEQ_MAX
    ensures SeqAt(start, i) == x % SEQ_MAX <==> Offset(start, x) == i
  {}

  /** The frames of a chain with one fate, in chain order. */
  function Select(c: seq<Frame>, st: TxStat, fate: Fate): seq<Frame> {
    if c == [] then []
    else (if FateOf(c[0], st) == fate then [c[0]] else []) + Select(c[1..], st, fate)
  }

  /** The frames handed back: all delivered ones, and all given up after the first, which becomes the BAR. */
  function Released(c: seq<Frame>, st: TxStat, barTaken: bool): seq<nat> {
    if c == [] then []
    else
      match FateOf(c[0], st)
      case Delivered => [c[0].skb] + Released(c[1..], st, barTaken)
      case Retry => Released(c[1..], st, barTaken)
      case GivenUp => (if barTaken then [c[0].skb] else []) + Released(c[1..], st, true)
  }

  /** g is f with one more retry, perhaps in another buffer. */
  ghost predicate RetryOf(f: Frame, g: Frame) {
    g == f.(isretried := true, retries := f.retries + 1, buf := g.buf)
  }

  ghost predicate RetriesOf(p: seq<Frame>, r: seq<Frame>) {
    |p| == |r| && forall i :: 0 <= i < |p| ==> RetryOf(p[i], r[i])
  }

  lemma CompSubframeFate(a: Acc, t: TidId, f: Frame, last: bool, acked: bool)
    requires |a.bar| <= 1
    ensures var r := CompSubframe(a, t, f, last, acked);
      && r.nbad == a.nbad + (if acked then 0 else 1)
      && (if acked then r.bfq == a.bfq && r.bar == a.bar && r.s.done == a.s.done + [f.skb]
          else if f.retries >= OWLMAX_RETRIES then
            r.bfq == a.bfq && r.bar == (if a.bar == [] then [f] else a.bar)
            && r.s.done == a.s.done + if a.bar == [] then [] else [f.skb]
          else
            r.bar == a.bar && r.s.done == a.s.done
            && |r.bfq| == |a.bfq| + 1 && r.bfq[..|a.bfq|] == a.bfq && RetryOf(f, r.bfq[|a.bfq|])
            && (!last ==> r.bfq[|a.bfq|].buf == f.buf))
      && r.s.tids == a.s.tids[t := r.s.tids[t]]
      && r.s.tids[t].bufq == a.s.tids[t].bufq && r.s.hw == a.s.hw
  {
    hide Resolve;
  }

  /** How a chain is taken apart, from accumulator a to accumulator r. */
  ghost predicate TakenApart(a: Acc, c: seq<Frame>, st: TxStat, t: TidId, r: Acc) {
    && |a.bfq| <= |r.bfq| && r.bfq[..|a.bfq|] == a.bfq
    && RetriesOf(Select(c, st, Retry), r.bfq[|a.bfq|..])
    && r.bar == (if a.bar == [] && Select(c, st, GivenUp) != [] then [Select(c, st, GivenUp)[0]]
                 else a.bar)
    && r.s.done == a.s.done + Released(c, st, a.bar != [])
    && r.nbad == a.nbad + |c| - |Select(c, st, Delivered)|
    && r.s.tids[t].bufq == a.s.tids[t].bufq && r.s.hw == a.s.hw
  }

  /** The retried frames grow by one at the front of what the rest of the chain adds. */
  lemma RetryFirst(p: seq<Frame>, f: Frame, bfq: seq<Frame>, n: nat)
    requires n < |bfq| && RetryOf(f, bfq[n]) && RetriesOf(p, bfq[n + 1..])
    ensures RetriesOf([f] + p, bfq[n..])
  {
    hide RetryOf;
    var r := bfq[n..];
    forall i | 0 <= i < |[f] + p| ensures RetryOf(([f] + p)[i], r[i]) {
      if i > 0 { assert r[i] == bfq[n + 1..][i - 1]; }
    }
  }

  lemma PrefixOfPrefix<T>(a: seq<T>, b: seq<T>, n: nat, m: nat)
    requires n <= m <= |a| && a[..m] == b
    ensures a[..n] == b[..n] && (n < m ==> a[n] == b[n])
  {
    if n < m { assert a[n] == a[..m][n]; }
  }

  /** What one subframe does to the accumulator, by its fate. */
  ghost predicate OneTaken(a: Acc, b: Acc, f: Frame, fate: Fate, t: TidId) {
    && b.s.tids[t].bufq == a.s.tids[t].bufq && b.s.hw == a.s.hw
    && match fate
       case Delivered => b.nbad == a.nbad && b.bfq == a.bfq && b.bar == a.bar && b.s.done == a.s.done + [f.skb]
       case GivenUp =>
         b.nbad == a.nbad + 1 && b.bfq == a.bfq && b.bar == (if a.bar == [] then [f] else a.bar)
         && b.s.done == a.s.done + if a.bar == [] then [] else [f.skb]
       case Retry =>
         b.nbad == a.nbad + 1 && b.bar == a.bar && b.s.done == a.s.done
         && |b.bfq| == |a.bfq| + 1 && b.bfq[..|a.bfq|] == a.bfq && RetryOf(f, b.bfq[|a.bfq|])
  }

  lemma OneIsTaken(a: Acc, t: TidId, c: seq<Frame>, st: TxStat)
    requires c != [] && |a.bar| <= 1
    ensures var b := CompSubframe(a, t, c[0], |c| == 1, UseBa(st) && Acked(st, c[0].seqno));
      OneTaken(a, b, c[0], FateOf(c[0], st), t) && |b.bar| <= 1
  {
    hide CompSubframe, Acked, UseBa, Acknowledged, RetryOf;
    AckedIff(st, c[0].seqno);
    CompSubframeFate(a, t, c[0], |c| == 1, Acknowledged(st, c[0].seqno));
  }

  lemma SelectFirst(c: seq<Frame>, st: TxStat, fate: Fate)
    requires c != []
    ensures Select(c, st, fate)
         == if FateOf(c[0], st) == fate then [c[0]] + Select(c[1..], st, fate)
            else Select(c[1..], st, fate)
  {
    hide FateOf;
    assert [] + Select(c[1..], st, fate) == Select(c[1..], st, fate);
  }

  lemma ReleasedFirst(c: seq<Frame>, st: TxStat, barTaken: bool)
    requires c != []
    ensures Released(c, st, barTaken) == match FateOf(c[0], st)
            case Delivered => [c[0].skb] + Released(c[1..], st, barTaken)
            case Retry => Released(c[1..], st, barTaken)
            case GivenUp => (if barTaken then [c[0].skb] else []) + Released(c[1..], st, true)
  {
    hide FateOf;
  }

  lemma Assoc<T>(a: seq<T>, b: seq<T>, c: seq<T>)
    ensures a + b + c == a + (b + c)
  {}

  lemma DeliveredStep(a: Acc, b: Acc, c: seq<Frame>, st: TxStat, t: TidId, r: Acc)
    requires c != [] && FateOf(c[0], st) == Delivered && OneTaken(a, b, c[0], Delivered, t)
    requires TakenApart(b, c[1..], st, t, r)
    ensures TakenApart(a, c, st, t, r)
  {
    hide FateOf, RetryOf, RetriesOf, Select, Released;
    SelectFirst(c, st, Delivered);
    SelectFirst(c, st, Retry);
    SelectFirst(c, st, GivenUp);
    ReleasedFirst(c, st, a.bar != []);
    Assoc(a.s.done, [c[0].skb], Released(c[1..], st, a.bar != []));
  }

  lemma GivenUpStep(a: Acc, b: Acc, c: seq<Frame>, st: TxStat, t: TidId, r: Acc)
    requires c != [] && FateOf(c[0], st) == GivenUp && OneTaken(a, b, c[0], GivenUp, t)
    requires TakenApart(b, c[1..], st, t, r)
    ensures TakenApart(a, c, st, t, r)
  {
    hide FateOf, RetryOf, RetriesOf, Select, Released;
    SelectFirst(c, st, Delivered);
    SelectFirst(c, st, Retry);
    SelectFirst(c, st, GivenUp);
    ReleasedFirst(c, st, a.bar != []);
    Assoc(a.s.done, if a.bar == [] then [] else [c[0].skb], Released(c[1..], st, true));
  }

  lemma RetryStep(a: Acc, b: Acc, c: seq<Frame>, st: TxStat, t: TidId, r: Acc)
    requires c != [] && FateOf(c[0], st) == Retry && OneTaken(a, b, c[0], Retry, t)
    requires TakenApart(b, c[1..], st, t, r)
    ensures TakenApart(a, c, st, t, r)
  {
    hide FateOf, RetryOf, RetriesOf, Select, Released;
    SelectFirst(c, st, Delivered);
    SelectFirst(c, st, Retry);
    SelectFirst(c, st, GivenUp);
    ReleasedFirst(c, st, a.bar != []);
    PrefixOfPrefix(r.bfq, b.bfq, |a.bfq|, |b.bfq|);
    RetryFirst(Select(c[1..], st, Retry), c[0], r.bfq, |a.bfq|);
  }

  lemma TakenApartStep(a: Acc, b: Acc, c: seq<Frame>, st: TxStat, t: TidId, r: Acc)
    requires c != [] && OneTaken(a, b, c[0], FateOf(c[0], st), t)
    requires TakenApart(b, c[1..], st, t, r)
    ensures TakenApart(a, c, st, t, r)
  {
    hide FateOf, TakenApart, OneTaken;
    match FateOf(c[0], st)
    case Delivered => DeliveredStep(a, b, c, st, t, r);
    case GivenUp => GivenUpStep(a, b, c, st, t, r);
    case Retry => RetryStep(a, b, c, st, t, r);
  }

  lemma {:induction false} CompFramesPartition(a: Acc, t: TidId, c: seq<Frame>, st: TxStat)
    requires |a.bar| <= 1
    ensures TakenApart(a, c, st, t, CompFrames(a, t, c, st, UseBa(st)))
    decreases |c|
  {
    hide TakenApart, CompSubframe, Acked, UseBa;
    if c == [] {
      NothingTakenApart(a, c, st, t);
    } else {
      var b := CompSubframe(a, t, c[0], |c| == 1, UseBa(st) && Acked(st, c[0].seqno));
      OneIsTaken(a, t, c, st);
      CompFramesPartition(b, t, c[1..], st);
      TakenApartStep(a, b, c, st, t, CompFrames(a, t, c, st, UseBa(st)));
    }
  }

  lemma NothingTakenApart(a: Acc, c: seq<Frame>, st: TxStat, t: TidId)
    requires c == []
    ensures TakenApart(a, c, st, t, a)
  {}

  /**
   Completion partition. Of an aggregate, the delivered frames and all given up but the first are
   handed back in order; the first given up becomes the one BAR, at the tail of the hardware queue;
   the others, in their old order and with one more retry, are the head of the queue; and
   nbad counts everything not delivered.
   */
  lemma AggregatePartition(s: Sc, t: TidId, c: Chain, st: TxStat)
    ensures var r := CompAggr(s, t, c, st);
            var a := CompFrames(Acc(s, [], [], 0), t, c, st, UseBa(st));
            var gave := Select(c, st, GivenUp);
      && a.nbad == |c| - |Select(c, st, Delivered)|
      && r.done == s.done + Released(c, st, false)
      && (exists p :: RetriesOf(Select(c, st, Retry), p) && r.tids[t].bufq == p + s.tids[t].bufq)
      && (if gave == [] then r.hw == s.hw
          else r.hw == s.hw[QueueOf(t) := s.hw[QueueOf(t)] + [[BarOf(r, t, gave[0])]]] && r.tids[t].paused)
      && (gave == [] ==> r.tids[t].paused == s.tids[t].paused)
      && (r.tids[t].sched <==> s.tids[t].sched || (Select(c, st, Retry) != [] && !r.tids[t].paused))
  {
    hide CompFrames, TakenApart, QueueOf;
    var a := CompFrames(Acc(s, [], [], 0), t, c, st, UseBa(st));
    CompFramesPartition(Acc(s, [], [], 0), t, c, st);
    TakenApartAll(s, t, c, st, a);
    assert [] + s.tids[t].bufq == s.tids[t].bufq;
    Scheduling.CompFramesOnly(Acc(s, [], [], 0), t, c, st, UseBa(st));
    FinishEffect(a, t);
    assert RetriesOf(Select(c, st, Retry), a.bfq);
  }

  lemma TakenApartAll(s: Sc, t: TidId, c: Chain, st: TxStat, a: Acc)
    requires TakenApart(Acc(s, [], [], 0), c, st, t, a)
    ensures RetriesOf(Select(c, st, Retry), a.bfq)
    ensures var gave := Select(c, st, GivenUp); a.bar == if gave == [] then [] else [gave[0]]
    ensures a.s.done == s.done + Released(c, st, false)
    ensures a.nbad == |c| - |Select(c, st, Delivered)|
    ensures a.s.tids[t].bufq == s.tids[t].bufq && a.s.hw == s.hw
  {
    hide RetriesOf;
    assert a.bfq[0..] == a.bfq;
  }

  lemma FinishEffect(a: Acc, t: TidId)
    requires |a.bar| <= 1
    ensures var r := CompFinish(a, t);
      && r.done == a.s.done && r.tids[t].bufq == a.bfq + a.s.tids[t].bufq
      && r.tids[t].win == a.s.tids[t].win
      && (a.bar == [] ==> r.hw == a.s.hw && r.tids[t].paused == a.s.tids[t].paused)
      && (r.tids[t].sched <==> a.s.tids[t].sched || (a.bfq != [] && !r.tids[t].paused))
      && (a.bar != [] ==>
            (r.tids[t].paused
             && r.hw == a.s.hw[QueueOf(t) := a.s.hw[QueueOf(t)] + [[BarOf(r, t, a.bar[0])]]]))
  {
    hide QueueOf;
    assert [] + a.s.tids[t].bufq == a.s.tids[t].bufq;
  }

  // ---------------------------------------------------------------------------------
  // BAR safety

  /** Every number of u that is still outstanding: waiting for a retry, or in hardware. */
  function Outstanding(s: Sc, u: TidId): set<nat> {
    RetriedSeqs(s.tids[u].bufq) + Elems(Held(s, u))
  }

  lemma WindowIs(strict: bool, s: Sc, t: TidId)
    requires Good(strict, s) && s.tids[t].aggr
    ensures Represents(strict, s.tids[t].win, Outstanding(s, t))
    ensures RetriedSeqs(s.tids[t].bufq) !! Elems(Held(s, t)) && Single(Held(s, t)) && RetriedDistinct(s.tids[t].bufq)
  {
    hide Good, RetriedSeqs, InHardware, QueueOf, View, Represents, NormalsOk, QueuedOk;
    GoodLook(strict, s, t);
  }

  lemma WindowIdle(strict: bool, s: Sc, t: TidId)
    requires Good(strict, s) && !s.tids[t].aggr
    ensures s.tids[t].bufq == [] && Width(s.tids[t].win) == 0 && |Held(s, t)| <= s.tids[t].incomp
    ensures s.tids[t].cleanup ==> s.tids[t].incomp > 0
    ensures strict ==> s.tids[t].incomp == |Held(s, t)|
    ensures !s.tids[t].cleanup ==> s.tids[t].incomp == 0
  {
    hide Good, InHardware, QueueOf, NormalsOk, QueuedOk;
    GoodLook(strict, s, t);
  }

  /**
   Window refinement. After any allowed run from attachment, while an identifier is aggregating, the
   bitmap between head and tail has every number outstanding, retried frames in the queue and frames in
   hardware, no number twice, each less than 64 after the start; if strict, it has no other. Outside a
   session window and queue are empty; incomp covers the frames in hardware, if strict exactly.
   */
  lemma WindowRefinement(strict: bool, k2: bool, n: nat, es: seq<Event>, t: TidId)
    requires AllowedRun(strict, Attached(k2, n), es)
    ensures var s := Run(Attached(k2, n), es);
            var tid := s.tids[t];
      if tid.aggr then
        && Represents(strict, tid.win, Outstanding(s, t))
        && RetriedDistinct(tid.bufq) && Single(Held(s, t)) && RetriedSeqs(tid.bufq) !! Elems(Held(s, t))
        && forall x :: x in Outstanding(s, t) ==> x < SEQ_MAX && Offset(tid.win.seqStart, x) < WME_MAX_BA
      else
        && tid.bufq == [] && Width(tid.win) == 0 && |Held(s, t)| <= tid.incomp
        && (strict ==> tid.incomp == |Held(s, t)|) && (tid.cleanup <==> tid.incomp > 0)
  {
    hide Represents, Outstanding, Held, RetriedSeqs, RetriedDistinct, Good, AllowedRun, Run, Attached;
    AttachedGood(strict, k2, n);
    RunConserves(strict, Attached(k2, n), es, Credit);
    var s := Run(Attached(k2, n), es);
    if s.tids[t].aggr {
      WindowIs(strict, s, t);
      forall x | x in Outstanding(s, t) ensures x < SEQ_MAX && Offset(s.tids[t].win.seqStart, x) < WME_MAX_BA {
        OutstandingNear(strict, s, t, x);
      }
    } else {
      WindowIdle(strict, s, t);
    }
  }

  lemma OutstandingNear(strict: bool, s: Sc, t: TidId, x: nat)
    requires Good(strict, s) && x in Outstanding(s, t) && s.tids[t].aggr
    ensures x < SEQ_MAX && Offset(s.tids[t].win.seqStart, x) < WME_MAX_BA
  {
    hide Good, Outstanding, Single, RetriedDistinct, Elems, RetriedSeqs, View;
    WindowIs(strict, s, t);
  }

  /** A BAR leaves with the last entry of the queue, the identifier paused, its start the window's. */
  ghost predicate SendsBar(s: Sc, q: Ac, r: Sc, t: TidId) {
    && r.hw[q] != [] && r.tids[t].paused
    && var c := r.hw[q][|r.hw[q]| - 1];
       |c| == 1 && c[0].comp == Bar && c[0].tid == t && c[0].seqno == r.tids[t].win.seqStart
  }

  /**
   BAR safety. When a completion gives up a frame of a session, it sends one BAR; the identifier is
   paused; and every number still outstanding is at, or less than 64 after, the BAR's start: the receiver
   is never told to skip a frame that will be retried.
   */
  lemma BarSafety(strict: bool, s: Sc, q: Ac, st: TxStat, linked: bool, limit: nat)
    requires Good(strict, s) && s.hw[q] != [] && s.hw[q][0][0].comp == Aggr && s.tids[s.hw[q][0][0].tid].aggr
    requires var c := s.hw[q][0];
             if |c| == 1 then st.xretry && c[0].retries >= OWLMAX_RETRIES else Select(c, st, GivenUp) != []
    ensures var t := s.hw[q][0][0].tid;
            var r := Process(s, q, st, linked, limit);
      && SendsBar(s, q, r, t)
      && (forall x :: x in Outstanding(r, t) ==> Offset(r.tids[t].win.seqStart, x) < WME_MAX_BA)
  {
    hide Good, CompFrames, Outstanding, Select, CompFinish, Resolve, QueueOf;
    var c := s.hw[q][0];
    var t := c[0].tid;
    var r := Process(s, q, st, linked, limit);
    StepKeepsInv(strict, s, CompleteStopped(q, st, linked, limit));
    HeadTid(strict, s, q);
    if |c| == 1 {
    } else {
      hide CompAggr;
      AggregatePartition(Pop(s, q), t, c, st);
    }
    StillInSession(s, q, st, linked, limit);
    forall x | x in Outstanding(r, t) ensures Offset(r.tids[t].win.seqStart, x) < WME_MAX_BA {
      OutstandingNear(strict, r, t, x);
    }
  }

  lemma HeadTid(strict: bool, s: Sc, q: Ac)
    requires Good(strict, s) && s.hw[q] != [] && s.tids[s.hw[q][0][0].tid].aggr
    ensures QueueOf(s.hw[q][0][0].tid) == q && !s.tids[s.hw[q][0][0].tid].cleanup
  {
    hide QueueOf, InSession, NormalsOk, QueuedOk, Scheduling.AllServed;
    assert ChainOk(s.hw[q][0], q);
    GoodLook(strict, s, s.hw[q][0][0].tid);
  }

  lemma StillInSession(s: Sc, q: Ac, st: TxStat, linked: bool, limit: nat)
    requires s.hw[q] != [] && s.hw[q][0][0].comp == Aggr && !s.tids[s.hw[q][0][0].tid].cleanup
    ensures var t := s.hw[q][0][0].tid; Process(s, q, st, linked, limit).tids[t].aggr == s.tids[t].aggr
  {
    hide QueueOf, CompUnaggr, CompAggr;
    var c := s.hw[q][0];
    var t := c[0].tid;
    UnaggrAggr(Pop(s, q), t, c[0], st, linked);
    AggrAggr(Pop(s, q), t, c, st);
  }

  lemma UnaggrAggr(s: Sc, t: TidId, f: Frame, st: TxStat, linked: bool)
    ensures CompUnaggr(s, t, f, st, linked).tids[t].aggr == s.tids[t].aggr
  {
    hide QueueOf, Resolve, Enqueue, BarTx;
    BarTxAggr(UpdateBaw(s, t, f.seqno), t, f);
    var (s1, g) := ToggleIf(s, f, !linked);
    EnqueueAggr(SetTid(s1, t, s1.tids[t].(bufq := [SetRetry(g)] + s1.tids[t].bufq)), QueueOf(t), t);
  }

  lemma BarTxAggr(s: Sc, t: TidId, f: Frame)
    ensures BarTx(s, t, f).tids == s.tids[t := s.tids[t].(paused := true)]
  {
    hide QueueOf;
  }

  lemma EnqueueAggr(s: Sc, q: Ac, t: TidId)
    ensures Enqueue(s, q, t).tids[t].aggr == s.tids[t].aggr
  {}

  lemma AggrAggr(s: Sc, t: TidId, c: Chain, st: TxStat)
    ensures CompAggr(s, t, c, st).tids[t].aggr == s.tids[t].aggr
  {
    hide CompFrames, QueueOf, Enqueue, BarTx;
    var a := CompFrames(Acc(s, [], [], 0), t, c, st, UseBa(st));
    Scheduling.CompFramesOnly(Acc(s, [], [], 0), t, c, st, UseBa(st));
    if a.bar != [] { BarTxAggr(a.s, t, a.bar[0]); }
    var s1 := if a.bar == [] then a.s else BarTx(a.s, t, a.bar[0]);
    EnqueueAggr(SetTid(s1, t, s1.tids[t].(bufq := a.bfq + s1.tids[t].bufq)), QueueOf(t), t);
  }

  // ---------------------------------------------------------------------------------
  // A frame sent alone

  /**
   What becomes of an aggregated frame sent alone. Delivered, it is handed back, its buffer held and the one
   held before free. Lost after ten retries, it becomes the BAR in its own buffer. Lost before that, it is the
   head of the queue with one more retry: in its own buffer if its descriptor had a link, and otherwise in the
   held one, its own being held instead.
   */
  lemma LoneOutcome(s: Sc, q: Ac, st: TxStat, linked: bool, limit: nat)
    requires Shape(s) && s.hw[q] != [] && |s.hw[q][0]| == 1
    requires s.hw[q][0][0].comp == Aggr && !s.tids[s.hw[q][0][0].tid].cleanup
    ensures var f := s.hw[q][0][0];
            var t := f.tid;
            var r := Process(s, q, st, linked, limit);
            var rest := s.hw[q][1..];
      if !st.xretry then
        && r.done == s.done + [f.skb] && r.free == s.free + [s.held] && r.held == f.buf
        && r.hw[q] == rest && r.tids[t] == s.tids[t].(win := Resolve(s.tids[t].win, f.seqno))
      else if f.retries >= 10 then
        && r.done == s.done && r.free == s.free && r.held == s.held
        && r.hw[q] == rest + [[BarOf(r, t, f)]]
        && r.tids[t] == s.tids[t].(win := Resolve(s.tids[t].win, f.seqno), paused := true)
      else
        && r.done == s.done && r.free == s.free && r.held == (if linked then s.held else f.buf)
        && r.hw[q] == rest
        && r.tids[t].bufq == [f.(isretried := true, retries := f.retries + 1,
                                 buf := if linked then f.buf else s.held)] + s.tids[t].bufq
        && r.tids[t].win == s.tids[t].win && r.tids[t].paused == s.tids[t].paused
        && (r.tids[t].sched <==> s.tids[t].sched || !s.tids[t].paused)
  {
    hide QueueOf, Resolve, Shape;
    HeadHome(s, q);
  }

  lemma HeadHome(s: Sc, q: Ac)
    requires Shape(s) && s.hw[q] != []
    ensures QueueOf(s.hw[q][0][0].tid) == q
  {
    assert ChainOk(s.hw[q][0], q);
  }

  // ---------------------------------------------------------------------------------
  // A block-ack request

  function FramesOf(l: seq<Frame>): seq<nat> {
    seq(|l|, i requires 0 <= i < |l| => l[i].skb)
  }

  lemma {:induction false} FreeAllHands(s: Sc, l: seq<Frame>)
    ensures FreeAll(s, l).done == s.done + FramesOf(l)
    decreases |l|
  {
    if l == [] {
      assert s.done + FramesOf(l) == s.done;
    } else {
      FreeAllHands(FreeBuf(s, l[0]), l[1..]);
      assert FramesOf(l) == [l[0].skb] + FramesOf(l[1..]);
      assert s.done + FramesOf(l) == s.done + [l[0].skb] + FramesOf(l[1..]);
    }
  }

  /**
   An unanswered BAR ends the session for good. Nothing is queued and nothing in the window, the next number
   is the one the window starts at, so that no number is lost, and all frames that were queued go back to the
   host, oldest first, and the BAR's own after them.
   */
  lemma BarUnanswered(s: Sc, q: Ac, st: TxStat, linked: bool, limit: nat)
    requires s.hw[q] != [] && s.hw[q][0][0].comp == Bar && s.hw[q][0][0].retries >= 10 && st.xretry
    ensures var f := s.hw[q][0][0];
            var tid := s.tids[f.tid];
            var r := Process(s, q, st, linked, limit);
            var end := r.tids[f.tid];
      && !end.aggr && end.bufq == [] && Width(end.win) == 0 && end.seqNext == end.win.seqStart
      && r.done == s.done + FramesOf(tid.bufq) + [f.skb] && r.held == f.buf
      && r.hw[q] == s.hw[q][1..]
      && (end.paused <==> end.cleanup)
  {
    hide FlushRetried, Flush, FreeAll;
    var c := s.hw[q][0];
    var t := c[0].tid;
    var s1 := Pop(s, q);
    var s0 := SetTid(s1, t, s1.tids[t].(aggr := false));
    FreeAllHands(s0, s0.tids[t].bufq);
    FreeAllKeepsTidq(s0, s0.tids[t].bufq);
    var s2 := Disable(s1, t, limit);
    FreeAllHands(s2, s2.tids[t].bufq);
    FreeAllKeepsTidq(s2, s2.tids[t].bufq);
    assert FramesOf([]) == [] && s2.done + [] == s2.done;
  }

  /** From tid to r: the session goes on, its first n queued frames taken as one entry at the end of h. */
  ghost predicate Continues(tid: Tid, r: Tid, h: seq<Chain>, n: nat) {
    && n <= |tid.bufq| && r.bufq == tid.bufq[n..] && r.win == AddFrames(tid.win, tid.bufq[..n])
    && (n > 0 ==> h != [] && h[|h| - 1] == tid.bufq[..n])
    && r.aggr == tid.aggr && r.cleanup == tid.cleanup && r.incomp == tid.incomp
    && r.seqNext == tid.seqNext && r.win.seqStart == tid.win.seqStart && r.paused == tid.paused
  }

  lemma ContinuesNone(tid: Tid, r: Tid, h: seq<Chain>)
    requires r == tid.(sched := r.sched)
    ensures Continues(tid, r, h, 0)
  {
    assert tid.bufq[0..] == tid.bufq && tid.bufq[..0] == [];
  }

  lemma {:induction false} AddFramesStart(w: Window, l: seq<Frame>)
    ensures AddFrames(w, l).seqStart == w.seqStart
    decreases |l|
  {
    if l != [] { AddFramesStart(AddFrame(w, l[0]), l[1..]); }
  }

  lemma SchedTidContinues(s: Sc, v: TidId, limit: nat, t: TidId) returns (n: nat)
    requires s.tids[t].aggr
    ensures Continues(s.tids[t], SchedTid(s, v, limit).tids[t], SchedTid(s, v, limit).hw[QueueOf(t)], n)
  {
    hide QueueOf, Chosen, AddFrames;
    n := if v == t then Chosen(s, t, limit) else 0;
    if n == 0 {
      ContinuesNone(s.tids[t], SchedTid(s, v, limit).tids[t], SchedTid(s, v, limit).hw[QueueOf(t)]);
    } else {
      AddFramesStart(s.tids[t].win, s.tids[t].bufq[..n]);
    }
  }

  lemma ContinuesMarks(a: Tid, b: Tid, c: Tid, d: Tid, h: seq<Chain>, n: nat)
    requires Continues(b, c, h, n) && b == a.(sched := b.sched) && d == c.(sched := d.sched)
    ensures Continues(a, d, h, n)
  {
    hide AddFrames;
  }

  lemma {:induction false} ScheduleContinues(s: Sc, q: Ac, limit: nat, t: TidId) returns (n: nat)
    requires s.tids[t].aggr
    ensures Continues(s.tids[t], Schedule(s, q, limit).tids[t], Schedule(s, q, limit).hw[QueueOf(t)], n)
    decreases |s.tidq[q]|
  {
    hide SchedTid, QueueOf, Continues;
    var r := Schedule(s, q, limit);
    if s.tidq[q] == [] {
      n := 0;
      ContinuesNone(s.tids[t], r.tids[t], r.hw[QueueOf(t)]);
    } else {
      var v := s.tidq[q][0];
      var s1 := Dequeue(s, q);
      if s.tids[v].paused {
        n := ScheduleContinues(s1, q, limit, t);
        ContinuesMarks(s.tids[t], s1.tids[t], r.tids[t], r.tids[t], r.hw[QueueOf(t)], n);
      } else {
        n := SchedTidContinues(s1, v, limit, t);
        var s2 := SchedTid(s1, v, limit);
        ContinuesMarks(s.tids[t], s1.tids[t], s2.tids[t], r.tids[t], r.hw[QueueOf(t)], n);
      }
    }
  }

  /**
   An answered BAR is handed back, and the session goes on: the identifier is no longer paused, its numbers and the
   start of its window are as they were, and what of its queue is sent at once is a first part of it.
   */
  lemma BarAnswered(s: Sc, q: Ac, st: TxStat, linked: bool, limit: nat) returns (n: nat)
    requires Shape(s) && s.hw[q] != [] && s.hw[q][0][0].comp == Bar && !st.xretry
    requires s.tids[s.hw[q][0][0].tid].aggr
    ensures var f := s.hw[q][0][0];
            var tid := s.tids[f.tid];
            var r := Process(s, q, st, linked, limit);
      && Continues(tid.(paused := false), r.tids[f.tid], r.hw[q], n) && !r.tids[f.tid].paused
      && r.done == s.done + [f.skb] && r.held == f.buf && r.free == s.free + [s.held]
      && s.hw[q][1..] <= r.hw[q]
  {
    hide QueueOf, Schedule, Continues, Shape;
    HeadHome(s, q);
    var t := s.hw[q][0][0].tid;
    var s1 := Pop(s, q);
    var s2 := SetTid(s1, t, s1.tids[t].(paused := false));
    var s3 := Enqueue(s2, q, t);
    n := 0;
    var r := Process(s, q, st, linked, limit);
    Growth.PopShape(s, q);
    Slot.ResumeKeeps(s1, t, limit);
    Growth.ResumeGrew(s1, t, limit);
    if s1.tids[t].bufq == [] {
      ContinuesNone(s.tids[t].(paused := false), r.tids[t], r.hw[q]);
    } else {
      n := ScheduleContinues(s3, q, limit, t);
      ContinuesMarks(s2.tids[t], s3.tids[t], r.tids[t], r.tids[t], r.hw[q], n);
    }
    ContinuesPaused(s2.tids[t], r.tids[t], r.hw[q], n);
  }

  lemma ContinuesPaused(tid: Tid, r: Tid, h: seq<Chain>, n: nat)
    requires Continues(tid, r, h, n)
    ensures r.paused == tid.paused
  {
    hide AddFrames;
  }

  // ---------------------------------------------------------------------------------
  // A scheduling decision

  /**
   What a decision for an aggregating identifier sends: one entry, of exactly the first frames of its queue that can
   form an aggregate within the limit, or nothing if the first is outside the window. The numbers of the new ones
   among them join the window; the rest of the queue stays.
   */
  lemma DecisionSends(s: Sc, t: TidId, limit: nat) returns (f: Aggregate.Form)
    requires s.tids[t].aggr && s.tids[t].bufq != [] && Aggregate.Sized(s.tids[t].bufq)
    ensures var tid := s.tids[t];
            var r := SchedTid(s, t, limit);
            var q := QueueOf(t);
      && Aggregate.LaidOut(tid.win.seqStart, tid.bufq, limit % 0x1_0000, s.k2, f)
      && (f.count == 0 <==> Offset(tid.win.seqStart, tid.bufq[0].seqno) >= 64)
      && r.hw == (if f.count == 0 then s.hw else s.hw[q := s.hw[q] + [tid.bufq[..f.count]]])
      && r.tids[t] == tid.(bufq := tid.bufq[f.count..], win := AddFrames(tid.win, tid.bufq[..f.count]))
      && (forall u: TidId :: u != t ==> r.tids[u] == s.tids[u])
  {
    hide QueueOf, AddFrame, Offset, Aggregate.FormAggr, Aggregate.LaidOut, Aggregate.Sized;
    var tid := s.tids[t];
    f := Aggregate.FormAggr(tid.win.seqStart, tid.bufq, limit % 0x1_0000, s.k2);
    Aggregate.AggregateLayout(tid.win.seqStart, tid.bufq, limit % 0x1_0000, s.k2);
    assert f.count <= |tid.bufq| by { LaidFits(tid.win.seqStart, tid.bufq, limit % 0x1_0000, s.k2, f); }
    assert tid.bufq[0..] == tid.bufq && tid.bufq[..0] == [];
  }

  lemma LaidFits(seqStart: nat, l: seq<Frame>, limit: nat, k2: bool, f: Aggregate.Form)
    requires Aggregate.LaidOut(seqStart, l, limit, k2, f)
    ensures f.count <= |l|
  {}

  // ---------------------------------------------------------------------------------
  // A frame from the host

  /** The frame made of one from the host: in the first free buffer, with the next number, never sent. */
  function FrameMade(s: Sc, t: TidId, skb: nat, pktlen: nat, key: KeyType): Frame
    requires s.free != []
  {
    Frame(s.free[0], skb, t, s.tids[t].seqNext, 0, false, if s.tids[t].aggr then Comp.Aggr else Normal, pktlen, key)
  }

  /**
   What becomes of a frame from the host. For an unknown node, or with no buffer free, it goes straight back.
   Otherwise it is the last of the identifier's queue if that aggregates and hardware has something to send, frames
   wait, the identifier is paused or the number lies outside the window, and the identifier joins the end of its
   list if it is neither paused nor on it; or else the frame is the last entry in hardware. The next number goes
   up by one, modulo 4096.
   */
  lemma FrameTaken(s: Sc, t: TidId, known: bool, skb: nat, pktlen: nat, key: KeyType)
    ensures var r := Receive(s, t, known, skb, pktlen, key);
            var q := QueueOf(t);
            var tid := s.tids[t];
      if !known || s.free == [] then r == s.(done := s.done + [skb])
      else
        var f := FrameMade(s, t, skb, pktlen, key);
        && r.free == s.free[1..] && r.held == s.held && r.done == s.done
        && r.tids[t].seqNext == (tid.seqNext + 1) % 4096
        && (if tid.aggr
               && (s.hw[q] != [] || tid.bufq != [] || tid.paused || Offset(tid.win.seqStart, tid.seqNext) >= 64)
            then r.tids[t].bufq == tid.bufq + [f] && r.hw == s.hw && r.tids[t].win == tid.win
                 && r.tidq[q] == s.tidq[q] + if tid.paused || tid.sched then [] else [t]
            else r.tids[t].bufq == tid.bufq && r.hw == s.hw[q := s.hw[q] + [[f]]] && r.tidq == s.tidq
                 && (!tid.aggr ==> r.tids[t].win == tid.win.(seqStart := (tid.win.seqStart + 1) % 4096)))
  {
    hide QueueOf, Add, Offset;
  }
}
