/** Whole runs of the data path, from attachment on, whatever hardware and rate control answer. */
module Runs {
  import opened Frames
  import opened Window
  import opened Softc
  import opened Session
  import opened Engine
  import opened Steps
  import opened Completions
  import opened Conservation
  import opened Growth
  import Scheduling

  /**
   What a run asks of its environment. Aggregation is not enabled during a teardown. A teardown, whether
   the host asks for it or a BAR goes unanswered, starts with no frame sent outside aggregation ahead of
   an aggregated one. Identifiers are drained, as ath_draintxq does, only when their hardware queue is
   empty. If strict, aggregation is enabled only when no bit is left behind in the bitmap before the next
   number. Every other event is always allowed.
   */
  ghost predicate Allowed(strict: bool, s: Sc, e: Event) {
    match e
    case EnableAggr(t) => !s.tids[t].cleanup && (strict && !s.tids[t].aggr ==> Clean(s.tids[t].win, s.tids[t].seqNext))
    case DisableAggr(t, _) => TeardownOk(s, t)
    case Complete(q, st, _, _, _) => s.hw[q] != [] ==> CompletionOk(s, q, st)
    case CompleteStopped(q, st, _, _) => s.hw[q] != [] ==> CompletionOk(s, q, st)
    case DrainTids(q) => s.hw[q] == []
    case Recv(_, _, _, _, _) => true
  }

  ghost predicate AllowedRun(strict: bool, s: Sc, es: seq<Event>)
    decreases |es|
  {
    es == [] || (Allowed(strict, s, es[0]) && AllowedRun(strict, Step(s, es[0]), es[1..]))
  }

  /** The invariant between events. */
  ghost predicate Good(strict: bool, s: Sc) {
    Inv(strict, s, 0, multiset{}) && Scheduling.AllServed(s)
  }

  lemma GoodLook(strict: bool, s: Sc, t: TidId)
    requires Good(strict, s)
    ensures TidInv(strict, s.tids[t], Held(s, t)) && QueuedOk(s.tids[t].bufq, t)
    ensures NormalsOk(s.tids[t], s.hw[QueueOf(t)], t)
  {
    hide TidInv, NormalsOk, QueuedOk, Inv, Scheduling.AllServed, Held, QueueOf;
    NobodysHand(strict, s, 0, t);
    Look(strict, s, t, multiset{});
    assert Held(s, t) + multiset{} == Held(s, t);
  }

  lemma EnableInv(strict: bool, s: Sc, t: TidId)
    requires Inv(strict, s, 0, multiset{}) && Allowed(strict, s, EnableAggr(t))
    ensures Inv(strict, SetTid(s, t, s.tids[t].(aggr := true)), 0, multiset{})
  {
    hide Inv, TidInv, QueuedOk, NormalsOk, Held, QueueOf;
    NobodysHand(strict, s, 0, t);
    Look(strict, s, t, multiset{});
    EnableOne(strict, s.tids[t], Held(s, t) + multiset{});
    SetTidInv(strict, s, t, multiset{}, s.tids[t].(aggr := true), multiset{});
    NobodysHand(strict, SetTid(s, t, s.tids[t].(aggr := true)), t, 0);
  }

  lemma EnableOne(strict: bool, tid: Tid, m: Numbers)
    requires TidInv(strict, tid, m) && !tid.cleanup
    requires strict && !tid.aggr ==> Clean(tid.win, tid.seqNext)
    ensures TidInv(strict, tid.(aggr := true), m)
  {
    hide InSession;
    if !tid.aggr {
      EmptySession(strict, tid.win, tid.seqNext);
      assert Elems(m) == {};
    }
  }

  /** Every identifier on the list belongs to the queue. */
  ghost predicate Homed(s: Sc, q: Ac) {
    forall i :: 0 <= i < |s.tidq[q]| ==> QueueOf(s.tidq[q][i]) == q
  }

  lemma {:induction false} DrainScheduledInv(strict: bool, s: Sc, q: Ac)
    requires Inv(strict, s, 0, multiset{}) && s.hw[q] == [] && Homed(s, q)
    ensures Inv(strict, DrainScheduled(s, q), 0, multiset{})
    decreases |s.tidq[q]|
  {
    hide Inv, Drain, DrainTid, QueueOf;
    if s.tidq[q] != [] {
      var u := s.tidq[q][0];
      var s1 := Dequeue(s, q);
      DequeueInv(strict, s, q, 0, multiset{});
      DrainInv(strict, s1, 0, u);
      DrainScheduledInv(strict, DrainFirst(s, q), q);
    }
  }

  /** Every allowed event keeps the invariant of every identifier. */
  lemma StepKeepsInv(strict: bool, s: Sc, e: Event)
    requires Good(strict, s) && Allowed(strict, s, e)
    ensures Good(strict, Step(s, e))
  {
    hide Inv, Receive, Schedule, Process, DrainScheduled, Disable, TeardownOk, CompletionOk, QueueOf;
    hide Scheduling.Served, Clean;
    Scheduling.StepServes(s, e);
    match e
    case Recv(t, known, skb, pktlen, key) =>
      NobodysHand(strict, s, 0, t);
      ReceiveInv(strict, s, t, known, skb, pktlen, key);
      NobodysHand(strict, Step(s, e), t, 0);
    case Complete(q, st, linked, limit, next) =>
      if s.hw[q] != [] {
        ProcessInv(strict, s, q, st, linked, limit, 0);
        ScheduleInv(strict, Process(s, q, st, linked, limit), q, next, 0);
      }
    case CompleteStopped(q, st, linked, limit) =>
      if s.hw[q] != [] { ProcessInv(strict, s, q, st, linked, limit, 0); }
    case EnableAggr(t) => EnableInv(strict, s, t);
    case DisableAggr(t, limit) =>
      if s.tids[t].aggr {
        NobodysHand(strict, s, 0, t);
        DisableInv(strict, s, t, limit);
        NobodysHand(strict, Disable(s, t, limit), t, 0);
      }
    case DrainTids(q) => DrainScheduledInv(strict, s, q);
  }

  lemma CardSeqNumbers(q: seq<Frame>)
    ensures |SeqNumbers(q)| == |q|
  {}

  /** The invariant makes every completion safe: no subframe can be lost, and a BAR is never sent twice. */
  lemma GoodHeadSafe(strict: bool, s: Sc, q: Ac)
    requires Good(strict, s) && s.hw[q] != []
    ensures HeadSafe(s, q)
  {
    hide InSession, Represents, QueuedOk, QueueOf, NormalsOk, Scheduling.AllServed;
    var c := s.hw[q][0];
    var v := c[0].tid;
    assert ChainOk(c, q);
    GoodLook(strict, s, v);
    CardSeqNumbers(c);
    if c[0].comp == Aggr && s.tids[v].cleanup {
      assert QueueOf(v) == q;
      HeadCounted(s.hw[q], v);
    }
  }

  lemma HeadCounted(h: seq<Chain>, v: TidId)
    requires h != [] && Mine(h[0], v)
    ensures |InHardware(h, v)| >= |h[0]|
  {
    CardSeqNumbers(h[0]);
    assert InHardware(h, v) == SeqNumbers(h[0]) + InHardware(h[1..], v);
  }

  /** How much of token x the events of a run bring in. */
  function Gains(es: seq<Event>, x: Token): nat {
    if es == [] then 0 else (if es[0].Recv? then Gain(x, es[0].skb) else 0) + Gains(es[1..], x)
  }

  lemma StepConserves(strict: bool, s: Sc, e: Event, x: Token)
    requires Good(strict, s)
    ensures Kept(x, Own(s, x) + (if e.Recv? then Gain(x, e.skb) else 0), Own(Step(s, e), x), 0)
  {
    hide Own, Receive, Schedule, Process, DrainScheduled, Disable, HeadSafe, Good;
    match e
    case Recv(t, known, skb, pktlen, key) => ReceiveConserves(s, t, known, skb, pktlen, key, x);
    case Complete(q, st, linked, limit, next) =>
      if s.hw[q] != [] {
        GoodHeadSafe(strict, s, q);
        ProcessConserves(s, q, st, linked, limit, x);
        OwnSchedule(Process(s, q, st, linked, limit), q, next, x);
      }
    case CompleteStopped(q, st, linked, limit) =>
      if s.hw[q] != [] {
        GoodHeadSafe(strict, s, q);
        ProcessConserves(s, q, st, linked, limit, x);
      }
    case EnableAggr(t) => OwnSetTid(s, t, s.tids[t].(aggr := true), x);
    case DisableAggr(t, limit) => OwnDisable(s, t, limit, x);
    case DrainTids(q) => OwnDrainScheduled(s, q, x);
  }

  /** Over every allowed run: the invariant holds at the end, every buffer and every frame is accounted for. */
  lemma {:induction false} RunConserves(strict: bool, s: Sc, es: seq<Event>, x: Token)
    requires Good(strict, s) && AllowedRun(strict, s, es)
    ensures Good(strict, Run(s, es))
    ensures Kept(x, Own(s, x) + Gains(es, x), Own(Run(s, es), x), 0)
    decreases |es|
  {
    hide Good, Own, Allowed, Step, Gain;
    if es != [] {
      StepKeepsInv(strict, s, es[0]);
      StepConserves(strict, s, es[0], x);
      RunConserves(strict, Step(s, es[0]), es[1..], x);
    }
  }

  // ---------------------------------------------------------------------------------
  // From attachment

  lemma AttachedGood(strict: bool, k2: bool, n: nat)
    ensures Good(strict, Attached(k2, n))
  {
    hide TidInv, QueueOf, Scheduling.AllServed;
    var s := Attached(k2, n);
    Scheduling.AttachedServed(k2, n);
    forall u: TidId ensures UInv(strict, s, u, HandOf(0, multiset{}, u)) {
      FreshInv(strict);
      assert s.tids[u] == FreshTid() && s.hw[QueueOf(u)] == [];
      assert Held(s, u) + HandOf(0, multiset{}, u) == multiset{};
    }
  }

  lemma FreshInv(strict: bool)
    ensures TidInv(strict, FreshTid(), multiset{})
  {}

  lemma {:induction false} BufsRange(lo: nat, ids: seq<nat>, x: Token)
    requires forall i :: 0 <= i < |ids| ==> ids[i] == lo + i
    ensures Bufs(ids, x) == if x.Buffer? && lo <= x.id < lo + |ids| then 1 else 0
    decreases |ids|
  {
    if ids != [] { BufsRange(lo + 1, ids[1..], x); }
  }

  lemma {:induction false} FreshTidToks(tids: seq<Tid>, x: Token)
    requires forall i :: 0 <= i < |tids| ==> tids[i].bufq == []
    ensures TidToks(tids, x) == 0
  {
    if tids != [] { FreshTidToks(tids[1..], x); }
  }

  lemma AttachedOwns(k2: bool, n: nat, x: Token)
    ensures Own(Attached(k2, n), x) == if x.Buffer? && x.id <= n then 1 else 0
  {
    var s := Attached(k2, n);
    BufsRange(1, s.free, x);
    FreshTidToks(s.tids, x);
    assert Bufs([0], x) == if x == Buffer(0) then 1 else 0 by { BufsRange(0, [0], x); }
    NoChains(s.hw, x);
  }

  lemma {:induction false} NoChains(hw: seq<seq<Chain>>, x: Token)
    requires forall i :: 0 <= i < |hw| ==> hw[i] == []
    ensures HwToks(hw, x) == 0
  {
    if hw != [] { NoChains(hw[1..], x); }
  }

  /**
   Buffer conservation. After any allowed run from attachment with n + 1 buffers, every buffer is
   in exactly one place, and a frame is in a queue or handed back as often as it was received.
   */
  lemma BuffersConserved(strict: bool, k2: bool, n: nat, es: seq<Event>, b: nat, k: nat)
    requires AllowedRun(strict, Attached(k2, n), es)
    ensures Own(Run(Attached(k2, n), es), Buffer(b)) == if b <= n then 1 else 0
    ensures Own(Run(Attached(k2, n), es), Skb(k)) == Gains(es, Skb(k))
  {
    hide Own, Good, AllowedRun, Run, Attached;
    var s := Attached(k2, n);
    AttachedGood(strict, k2, n);
    AttachedOwns(k2, n, Buffer(b));
    AttachedOwns(k2, n, Skb(k));
    RunConserves(strict, s, es, Buffer(b));
    RunConserves(strict, s, es, Skb(k));
    NoBufferGains(es, b);
  }

  lemma {:induction false} NoBufferGains(es: seq<Event>, b: nat)
    ensures Gains(es, Buffer(b)) == 0
  {
    if es != [] { NoBufferGains(es[1..], b); }
  }

  // ---------------------------------------------------------------------------------
  // Who is paused, and what will resume it

  /** An aggregated entry or a BAR of u is in the hardware queue. */
  ghost predicate HasEntry(h: seq<Chain>, u: TidId) {
    Scheduling.HasBar(h, u) || exists i :: 0 <= i < |h| && Mine(h[i], u)
  }

  lemma {:induction false} HeldHasEntry(h: seq<Chain>, u: TidId)
    requires InHardware(h, u) != multiset{}
    ensures exists i :: 0 <= i < |h| && Mine(h[i], u)
    decreases |h|
  {
    hide Mine, SeqNumbers;
    if !Mine(h[0], u) {
      HeldHasEntry(h[1..], u);
      var i :| 0 <= i < |h[1..]| && Mine(h[1..][i], u);
      assert h[i + 1] == h[1..][i];
    }
  }

  lemma GoodWaits(s: Sc, u: TidId)
    requires Good(true, s)
    ensures s.tids[u].paused ==> HasEntry(s.hw[QueueOf(u)], u)
    ensures s.tids[u].bufq != [] ==> s.tids[u].sched || HasEntry(s.hw[QueueOf(u)], u)
  {
    hide Inv, InSession, NormalsOk, QueuedOk, QueueOf, Mine, Scheduling.HasBar;
    GoodLook(true, s, u);
    assert Scheduling.Served(s, u);
    if s.tids[u].cleanup { HeldHasEntry(s.hw[QueueOf(u)], u); }
  }

  /**
   Who is waited for. After any strict run from attachment, a paused identifier has an aggregated frame or a
   BAR of its own in hardware, whose completion is what resumes it; so one with frames queued is on its list, or
   has such an entry. One on the list may still wait, its hardware queue idle: module Idle says when.
   */
  lemma PausedHasEntry(k2: bool, n: nat, es: seq<Event>, u: TidId)
    requires AllowedRun(true, Attached(k2, n), es)
    ensures var s := Run(Attached(k2, n), es); var h := s.hw[QueueOf(u)];
      && (s.tids[u].paused ==> HasEntry(h, u))
      && (s.tids[u].bufq != [] ==> s.tids[u].sched || HasEntry(h, u))
  {
    hide Good, AllowedRun, Run, Attached, HasEntry, QueueOf, Own;
    AttachedGood(true, k2, n);
    RunConserves(true, Attached(k2, n), es, Credit);
    GoodWaits(Run(Attached(k2, n), es), u);
  }

  // ---------------------------------------------------------------------------------
  // Draining a stopped queue

  /** The answers of a stopped queue, one for each completion. */
  datatype Answer = Answer(st: TxStat, linked: bool, limit: nat)

  function ProcessAll(s: Sc, q: Ac, answers: seq<Answer>): Sc
    decreases |answers|
  {
    if answers == [] || s.hw[q] == [] then s
    else ProcessAll(Process(s, q, answers[0].st, answers[0].linked, answers[0].limit), q, answers[1..])
  }

  function First(n: nat, answers: nat -> Answer): seq<Answer> {
    if n == 0 then [] else First(n - 1, answers) + [answers(n - 1)]
  }

  /** One more answer does nothing to an empty queue, and completes the head of one that is not. */
  lemma {:induction false} ProcessAllSnoc(s: Sc, q: Ac, answers: seq<Answer>, a: Answer)
    ensures var r := ProcessAll(s, q, answers);
            ProcessAll(s, q, answers + [a]) == if r.hw[q] == [] then r else Process(r, q, a.st, a.linked, a.limit)
    decreases |answers|
  {
    hide Process;
    if answers == [] {
      assert answers + [a] == [a] && [a][1..] == [];
    } else if s.hw[q] != [] {
      assert (answers + [a])[1..] == answers[1..] + [a];
      ProcessAllSnoc(Process(s, q, answers[0].st, answers[0].linked, answers[0].limit), q, answers[1..], a);
    }
  }

  lemma ShapeHead(s: Sc, q: Ac)
    requires Shape(s) && s.hw[q] != []
    ensures HeadShape(s, q)
  {
    assert ChainOk(s.hw[q][0], q);
  }

  /**
   owltgt_tx_processq empties a stopped queue, in every state with well-formed entries, so after every
   run: although completions put frames back, send BARs and serve other identifiers, there cannot be
   more of them than credits.
   */
  lemma {:induction false} DrainTerminates(s: Sc, q: Ac, answers: seq<Answer>)
    requires Shape(s) && Own(s, Credit) <= |answers|
    ensures ProcessAll(s, q, answers).hw[q] == [] && Shape(ProcessAll(s, q, answers))
    decreases |answers|
  {
    hide Shape, Own, Process, HeadShape, HwGrew;
    if s.hw[q] != [] {
      var a := if answers == [] then Answer(TxStat(false, false, false, 0, []), false, 0) else answers[0];
      ShapeHead(s, q);
      ProcessSpends(s, q, a.st, a.linked, a.limit, Credit);
      ProcessGrew(s, q, a.st, a.linked, a.limit);
      DrainTerminates(Process(s, q, a.st, a.linked, a.limit), q, answers[1..]);
    }
  }

  /** The same completions as the events of a run. */
  function Stops(q: Ac, answers: seq<Answer>): seq<Event> {
    if answers == [] then []
    else [CompleteStopped(q, answers[0].st, answers[0].linked, answers[0].limit)] + Stops(q, answers[1..])
  }

  lemma {:induction false} ProcessAllIsRun(s: Sc, q: Ac, answers: seq<Answer>)
    ensures ProcessAll(s, q, answers) == Run(s, Stops(q, answers))
    decreases |answers|
  {
    hide Process;
    if answers != [] {
      if s.hw[q] == [] {
        ProcessAllIsRun(s, q, answers[1..]);
      } else {
        ProcessAllIsRun(Process(s, q, answers[0].st, answers[0].linked, answers[0].limit), q, answers[1..]);
      }
    }
  }

  /**
   ath_draintxq on one queue: complete what is in hardware, whatever each descriptor holds, then drain
   the scheduled identifiers. Where no teardown starts wrongly, nothing is lost, the queue and its list
   end empty, and so does the software queue of every identifier of it.
   */
  lemma DrainConserves(strict: bool, s: Sc, q: Ac, answers: seq<Answer>, x: Token)
    requires Good(strict, s) && AllowedRun(strict, s, Stops(q, answers)) && Own(s, Credit) <= |answers|
    ensures var r := Step(ProcessAll(s, q, answers), DrainTids(q));
      && Good(strict, r) && r.hw[q] == [] && r.tidq[q] == []
      && (forall u: TidId :: QueueOf(u) == q ==> r.tids[u].bufq == [])
      && (!x.Credit? ==> Own(r, x) == Own(s, x))
  {
    hide Inv, Shape, Own, AllowedRun, ProcessAll, Scheduling.AllServed, DrainScheduled, QueueOf;
    var s1 := ProcessAll(s, q, answers);
    ProcessAllIsRun(s, q, answers);
    GoodShape(strict, s);
    DrainTerminates(s, q, answers);
    RunConserves(strict, s, Stops(q, answers), x);
    NoGains(q, answers, x);
    StepConserves(strict, s1, DrainTids(q), x);
    DrainEmpties(strict, s1, q);
  }

  /** The second half alone, the hardware queue being empty. */
  lemma DrainEmpties(strict: bool, s: Sc, q: Ac)
    requires Good(strict, s) && s.hw[q] == []
    ensures var r := DrainScheduled(s, q);
      && Good(strict, r) && r.hw[q] == [] && r.tidq[q] == []
      && (forall u: TidId :: QueueOf(u) == q ==> r.tids[u].bufq == [])
  {
    hide Good, Scheduling.AllServed, DrainScheduled, QueueOf;
    StepKeepsInv(strict, s, DrainTids(q));
    GoodServed(strict, s);
    Scheduling.DrainScheduledServes(s, q);
    DrainKeepsHw(s, q);
    var r := DrainScheduled(s, q);
    forall u: TidId | QueueOf(u) == q ensures r.tids[u].bufq == [] { NobodyWaits(strict, r, u); }
  }

  /** With its hardware queue and its list empty, an identifier has nothing queued. */
  lemma NobodyWaits(strict: bool, s: Sc, u: TidId)
    requires Good(strict, s) && s.hw[QueueOf(u)] == [] && s.tidq[QueueOf(u)] == []
    ensures s.tids[u].bufq == []
  {
    hide Inv, QueueOf, Held, NormalsOk, InSession;
    GoodLook(strict, s, u);
    assert Scheduling.Served(s, u);
  }

  lemma GoodServed(strict: bool, s: Sc)
    requires Good(strict, s)
    ensures Scheduling.AllServed(s)
  {
    hide Inv, Scheduling.AllServed;
  }

  lemma GoodShape(strict: bool, s: Sc)
    requires Good(strict, s)
    ensures Shape(s)
  {
    hide Shape;
  }

  lemma {:induction false} NoGains(q: Ac, answers: seq<Answer>, x: Token)
    ensures Gains(Stops(q, answers), x) == 0
  {
    if answers != [] { NoGains(q, answers[1..], x); }
  }

  lemma {:induction false} DrainKeepsHw(s: Sc, q: Ac)
    ensures DrainScheduled(s, q).hw == s.hw
    decreases |s.tidq[q]|
  {
    hide FreeAll, DrainTid;
    if s.tidq[q] != [] {
      FreeAllKeepsTidq(Dequeue(s, q), Dequeue(s, q).tids[s.tidq[q][0]].bufq);
      DrainKeepsHw(DrainFirst(s, q), q);
    }
  }
}
