/**
 Turns. Over every run, the identifiers of a hardware queue get their turns first in, first out: the list
 they wait on loses its head, by a scheduling call or a drain, and grows at its end. A turn is a dequeue;
 the last one of a call, if it is not paused, is served.
 */
module Turns {
  import opened Frames
  import opened Window
  import opened Softc
  import opened Engine
  import opened Steps
  import opened Growth
  import opened Scheduling

  ghost function Paused(s: Sc): set<TidId> {
    set u: TidId | s.tids[u].paused
  }

  /** The turns of one scheduling call: paused identifiers are passed over, up to the first that is not. */
  function Turns(l: seq<TidId>, paused: set<TidId>): (r: seq<TidId>)
    ensures l != [] ==> r != []
  {
    if l == [] then [] else [l[0]] + if l[0] in paused then Turns(l[1..], paused) else []
  }

  ghost function TurnsOf(s: Sc, q: Ac): seq<TidId> {
    Turns(s.tidq[q], Paused(s))
  }

  /** From list l to list r: taken came off the front, and at most so many went to the end. */
  ghost predicate Moved(l: seq<TidId>, taken: seq<TidId>, r: seq<TidId>, most: nat) {
    l <= taken + r && |taken| + |r| <= |l| + most
  }

  lemma MovedTrans(a: seq<TidId>, x: seq<TidId>, b: seq<TidId>, y: seq<TidId>, c: seq<TidId>, m: nat, n: nat)
    requires Moved(a, x, b, m) && Moved(b, y, c, n)
    ensures Moved(a, x + y, c, m + n)
  {
    assert (x + y) + c == x + (y + c);
    assert x + b <= x + (y + c);
  }

  lemma Stayed(l: seq<TidId>, r: seq<TidId>, most: nat)
    requires l <= r && |r| <= |l| + most
    ensures Moved(l, [], r, most)
  {
    assert [] + r == r;
  }

  // ---------------------------------------------------------------------------------
  // One scheduling call

  /** The first n identifiers of the list leave it, no longer marked. */
  function DequeueMany(s: Sc, q: Ac, n: nat): Sc
    requires n <= |s.tidq[q]|
    decreases n
  {
    if n == 0 then s else DequeueMany(Dequeue(s, q), q, n - 1)
  }

  /** What a scheduling call does with the last identifier it took. */
  function ServeLast(s: Sc, q: Ac, t: TidId, limit: nat): Sc {
    if s.tids[t].paused then s else Requeue(SchedTid(s, t, limit), q, t)
  }

  lemma {:induction false} TurnsPrefix(l: seq<TidId>, paused: set<TidId>)
    ensures Turns(l, paused) <= l
    ensures forall i :: 0 <= i < |Turns(l, paused)| - 1 ==> l[i] in paused
    ensures |Turns(l, paused)| < |l| ==> Turns(l, paused) != [] && Turns(l, paused)[|Turns(l, paused)| - 1] !in paused
  {
    if l != [] {
      assert l == [l[0]] + l[1..];
      if l[0] in paused {
        TurnsPrefix(l[1..], paused);
        assert forall i :: 0 < i < |l| ==> l[i] == l[1..][i - 1];
      }
    }
  }

  /**
   What a scheduling call is. It dequeues its turns, heads of the list one after the other, every one but the
   last paused, and serves the last unless that is paused too and the list has come to its end.
   */
  lemma {:induction false} ScheduleIs(s: Sc, q: Ac, limit: nat)
    ensures var tu := TurnsOf(s, q);
      && tu <= s.tidq[q] && (tu == [] <==> s.tidq[q] == [])
      && (forall i :: 0 <= i < |tu| - 1 ==> s.tids[tu[i]].paused)
      && Schedule(s, q, limit)
         == if tu == [] then s else ServeLast(DequeueMany(s, q, |tu|), q, tu[|tu| - 1], limit)
    decreases |s.tidq[q]|
  {
    hide SchedTid, Requeue;
    var l := s.tidq[q];
    TurnsPrefix(l, Paused(s));
    if l != [] {
      var s1 := Dequeue(s, q);
      var tu := TurnsOf(s, q);
      assert DequeueMany(s, q, 1) == DequeueMany(s1, q, 0);
      if s.tids[l[0]].paused {
        assert Paused(s1) == Paused(s);
        ScheduleIs(s1, q, limit);
        var rest := TurnsOf(s1, q);
        assert tu == [l[0]] + rest;
        if rest == [] {
          assert Schedule(s1, q, limit) == s1;
        } else {
          assert tu[|tu| - 1] == rest[|rest| - 1];
        }
      }
    }
  }

  lemma {:induction false} DequeueManyAt(s: Sc, q: Ac, n: nat)
    requires n <= |s.tidq[q]|
    ensures DequeueMany(s, q, n).tidq[q] == s.tidq[q][n..]
    ensures forall u: TidId :: DequeueMany(s, q, n).tids[u].paused == s.tids[u].paused
    ensures n > 0 ==> !DequeueMany(s, q, n).tids[s.tidq[q][n - 1]].sched
    decreases n
  {
    if n > 0 {
      DequeueManyAt(Dequeue(s, q), q, n - 1);
      assert s.tidq[q][1..][n - 1..] == s.tidq[q][n..];
      if n > 1 { assert s.tidq[q][1..][n - 2] == s.tidq[q][n - 1]; }
    }
  }

  /** What the list is then: its rest, and at the end the one served, if that is not paused and has frames left. */
  lemma ScheduleList(s: Sc, q: Ac, limit: nat)
    requires s.tidq[q] != []
    ensures var tu := TurnsOf(s, q);
            var r := Schedule(s, q, limit);
            var t := tu[|tu| - 1];
      && |tu| <= |s.tidq[q]|
      && r.tidq[q] == s.tidq[q][|tu|..] + if !s.tids[t].paused && r.tids[t].bufq != [] then [t] else []
  {
    ScheduleIs(s, q, limit);
    var tu := TurnsOf(s, q);
    var t := tu[|tu| - 1];
    DequeueManyAt(s, q, |tu|);
    var y := DequeueMany(s, q, |tu|);
    assert t == s.tidq[q][|tu| - 1];
    SchedTidOnly(y, t, limit);
    hide SchedTid, Schedule, DequeueMany;
  }

  /** The list goes on from there, the one served perhaps at its end, and no other list moves. */
  lemma {:induction false} ScheduleMoves(s: Sc, q: Ac, limit: nat)
    ensures Moved(s.tidq[q], TurnsOf(s, q), Schedule(s, q, limit).tidq[q], 1)
    ensures Schedule(s, q, limit).tidq == s.tidq[q := Schedule(s, q, limit).tidq[q]]
    decreases |s.tidq[q]|
  {
    hide SchedTid;
    var l := s.tidq[q];
    if l != [] {
      var s1 := Dequeue(s, q);
      assert l == [l[0]] + l[1..];
      if s.tids[l[0]].paused {
        assert Paused(s1) == Paused(s);
        ScheduleMoves(s1, q, limit);
        Cons(l, TurnsOf(s1, q), Schedule(s, q, limit).tidq[q], 1);
      } else {
        SchedTidOnly(s1, l[0], limit);
        assert TurnsOf(s, q) == [l[0]];
      }
    }
  }

  lemma Cons(l: seq<TidId>, x: seq<TidId>, r: seq<TidId>, most: nat)
    requires l != [] && Moved(l[1..], x, r, most)
    ensures Moved(l, [l[0]] + x, r, most)
  {
    assert ([l[0]] + x) + r == [l[0]] + (x + r);
    assert l == [l[0]] + l[1..];
  }

  // ---------------------------------------------------------------------------------
  // A completion makes a scheduling call of its own when it resumes an identifier

  /** The list with t put back on it. */
  function Rejoined(s: Sc, t: TidId): seq<TidId> {
    s.tidq[QueueOf(t)] + if s.tids[t].sched then [] else [t]
  }

  /** Completing the head of queue q resumes its identifier, and there are frames to send. */
  ghost predicate Resumes(s: Sc, q: Ac, st: TxStat)
    requires s.hw[q] != []
  {
    var c := s.hw[q][0];
    var tid := s.tids[c[0].tid];
    tid.bufq != []
    && match c[0].comp
       case Normal => tid.cleanup && tid.incomp == 1
       case Bar => !st.xretry
       case Aggr => tid.cleanup && 1 <= tid.incomp <= |c|
  }

  /** The state in which it then makes its scheduling call: frames freed so far, the identifier back on its list. */
  function ResumeState(s: Sc, q: Ac): Sc
    requires s.hw[q] != []
  {
    var c := s.hw[q][0];
    var t := c[0].tid;
    var tid := s.tids[t];
    var s1 := if c[0].comp == Aggr && 0 <= tid.incomp <= |c| then FreeAll(Pop(s, q), c[..tid.incomp]) else Pop(s, q);
    var u := if c[0].comp == Bar then tid.(paused := false) else tid.(paused := false, incomp := 0, cleanup := false);
    Enqueue(SetTid(s1, t, u), QueueOf(t), t)
  }

  /** The turns taken while the head of queue q completes. */
  ghost function CompletionTurns(s: Sc, q: Ac, st: TxStat): seq<TidId>
    requires s.hw[q] != []
  {
    if Resumes(s, q, st) then TurnsOf(ResumeState(s, q), q) else []
  }

  /** A routine resumed t with its frames, or only left t on the list. */
  ghost predicate ListsMoved(s: Sc, t: TidId, resumed: bool, r: Sc) {
    && r.tidq == s.tidq[QueueOf(t) := r.tidq[QueueOf(t)]]
    && Moved(s.tidq[QueueOf(t)], if resumed then Turns(Rejoined(s, t), Paused(s) - {t}) else [],
             r.tidq[QueueOf(t)], 2)
  }

  lemma ResumeMoves(s: Sc, t: TidId, limit: nat)
    ensures ListsMoved(s, t, s.tids[t].bufq != [], Resume(s, t, limit))
  {
    hide QueueOf, Turns, Schedule;
    var q := QueueOf(t);
    if s.tids[t].bufq == [] {
      Stayed(s.tidq[q], s.tidq[q], 2);
    } else {
      var s1 := Enqueue(SetTid(s, t, s.tids[t].(paused := false)), q, t);
      assert s1.tidq[q] == Rejoined(s, t);
      assert Paused(s1) == Paused(s) - {t};
      ScheduleMoves(s1, q, limit);
    }
  }

  /** Identifier t aside from its window, its count and its flags is the same, and so are the lists. */
  ghost predicate SameTurns(s: Sc, r: Sc, t: TidId) {
    && r.tidq == s.tidq && r.tids == s.tids[t := r.tids[t]] && r.tids[t].sched == s.tids[t].sched
    && (r.tids[t].bufq == [] <==> s.tids[t].bufq == [])
  }

  lemma AfterSame(s: Sc, s1: Sc, t: TidId, resumed: bool, r: Sc)
    requires SameTurns(s, s1, t) && ListsMoved(s1, t, resumed, r)
    ensures ListsMoved(s, t, resumed, r)
  {
    hide QueueOf, Turns, Moved;
    assert Paused(s1) - {t} == Paused(s) - {t};
  }

  lemma TidCleanupMoves(s: Sc, t: TidId, limit: nat)
    ensures ListsMoved(s, t, s.tids[t].incomp == 1 && s.tids[t].bufq != [], TidCleanup(s, t, limit))
    ensures s.tids[t].incomp != 1 ==> var r := TidCleanup(s, t, limit);
      SameTurns(s, r, t) && r.tids[t].incomp == s.tids[t].incomp - 1
  {
    hide QueueOf, Turns, Moved, Resume;
    var s1 := SetTid(s, t, s.tids[t].(incomp := s.tids[t].incomp - 1));
    if s1.tids[t].incomp != 0 {
      Stayed(s.tidq[QueueOf(t)], s.tidq[QueueOf(t)], 2);
    } else {
      var s2 := SetTid(s1, t, s1.tids[t].(cleanup := false));
      ResumeMoves(s2, t, limit);
      AfterSame(s, s2, t, s.tids[t].bufq != [], Resume(s2, t, limit));
    }
  }

  lemma {:induction false} CompCleanupMoves(s: Sc, t: TidId, c: seq<Frame>, limit: nat)
    ensures ListsMoved(s, t, 1 <= s.tids[t].incomp <= |c| && s.tids[t].bufq != [], CompCleanup(s, t, c, limit))
    decreases |c|
  {
    hide QueueOf, Turns, Moved, TidCleanup, Paused, Rejoined;
    if c == [] {
      Stayed(s.tidq[QueueOf(t)], s.tidq[QueueOf(t)], 2);
    } else {
      var s1 := FreeBuf(s, c[0]);
      var s2 := TidCleanup(s1, t, limit);
      TidCleanupMoves(s1, t, limit);
      if s1.tids[t].incomp == 1 {
        AfterSame(s, s1, t, s.tids[t].bufq != [], s2);
      } else {
        CompCleanupMoves(s2, t, c[1..], limit);
        AfterSame(s, s2, t, 1 <= s.tids[t].incomp <= |c| && s.tids[t].bufq != [], CompCleanup(s2, t, c[1..], limit));
      }
    }
  }

  // ---------------------------------------------------------------------------------
  // The other completions only put their identifier on its list

  lemma PutMoves(s: Sc, s1: Sc, t: TidId)
    requires s1.tidq == s.tidq
    ensures ListsMoved(s, t, false, s1) && ListsMoved(s, t, false, Enqueue(s1, QueueOf(t), t))
  {
    hide QueueOf, Turns;
    Stayed(s.tidq[QueueOf(t)], s.tidq[QueueOf(t)], 2);
    Stayed(s.tidq[QueueOf(t)], s.tidq[QueueOf(t)] + [t], 2);
  }

  lemma CompAggrMoves(s: Sc, t: TidId, c: Chain, st: TxStat)
    ensures ListsMoved(s, t, false, CompAggr(s, t, c, st))
  {
    hide QueueOf, ListsMoved, CompFrames, Enqueue;
    var a := CompFrames(Acc(s, [], [], 0), t, c, st, UseBa(st));
    CompFramesOnly(Acc(s, [], [], 0), t, c, st, UseBa(st));
    var s1 := if a.bar == [] then a.s else BarTx(a.s, t, a.bar[0]);
    PutMoves(s, s1, t);
    PutMoves(s, SetTid(s1, t, s1.tids[t].(bufq := a.bfq + s1.tids[t].bufq)), t);
  }

  lemma CompUnaggrMoves(s: Sc, t: TidId, f: Frame, st: TxStat, linked: bool)
    ensures ListsMoved(s, t, false, CompUnaggr(s, t, f, st, linked))
  {
    hide QueueOf, ListsMoved, Resolve, Enqueue;
    var (s1, g) := ToggleIf(s, f, !linked);
    if !st.xretry || f.retries >= OWLMAX_RETRIES { PutMoves(s, CompUnaggr(s, t, f, st, linked), t); }
    PutMoves(s, SetTid(s1, t, s1.tids[t].(bufq := [SetRetry(g)] + s1.tids[t].bufq)), t);
  }

  lemma DisableMoves(s: Sc, t: TidId, limit: nat)
    ensures Disable(s, t, limit).tidq == s.tidq
  {
    hide Flush, FlushRetried;
    var s0 := SetTid(s, t, s.tids[t].(aggr := false));
    FreeAllKeepsTidq(s0, s0.tids[t].bufq);
  }

  lemma CompBarMoves(s: Sc, t: TidId, f: Frame, st: TxStat, linked: bool, limit: nat)
    ensures ListsMoved(s, t, !st.xretry && s.tids[t].bufq != [], CompBar(s, t, f, st, linked, limit))
  {
    hide QueueOf, Turns, Moved, Resume, Disable, DrainTid;
    if !st.xretry {
      ResumeMoves(s, t, limit);
    } else {
      DisableMoves(s, t, limit);
      var s1 := Disable(s, t, limit);
      FreeAllKeepsTidq(s1, s1.tids[t].bufq);
      PutMoves(s, CompBar(s, t, f, st, linked, limit), t);
    }
  }

  /** Turns in the resuming call, seen from before the completion. */
  lemma ResumeTurns(s: Sc, q: Ac, st: TxStat)
    requires Shape(s) && s.hw[q] != [] && Resumes(s, q, st)
    ensures var t := s.hw[q][0][0].tid; TurnsOf(ResumeState(s, q), q) == Turns(Rejoined(s, t), Paused(s) - {t})
  {
    hide QueueOf, Turns, Shape;
    HeadQueue(s, q);
    var c := s.hw[q][0];
    var t := c[0].tid;
    if c[0].comp == Aggr { FreeAllKeepsTidq(Pop(s, q), c[..s.tids[t].incomp]); }
    hide FreeAll;
    var x := ResumeState(s, q);
    assert x.tidq[q] == Rejoined(s, t);
    assert Paused(x) == Paused(s) - {t};
  }

  lemma {:induction false} CompCleanupResumes(s: Sc, t: TidId, c: seq<Frame>, limit: nat)
    requires 1 <= s.tids[t].incomp <= |c| && s.tids[t].bufq != []
    ensures var u := s.tids[t].(paused := false, incomp := 0, cleanup := false);
      CompCleanup(s, t, c, limit)
      == Schedule(Enqueue(SetTid(FreeAll(s, c[..s.tids[t].incomp]), t, u), QueueOf(t), t), QueueOf(t), limit)
    decreases |c|
  {
    hide QueueOf, Schedule, Enqueue;
    var n := s.tids[t].incomp;
    var u := s.tids[t].(paused := false, incomp := 0, cleanup := false);
    var s1 := FreeBuf(s, c[0]);
    var d := s.tids[t].(incomp := n - 1);
    assert c[..n][1..] == c[1..][..n - 1];
    if n == 1 {
      assert c[1..][..0] == [] && FreeAll(s, c[..1]) == s1;
      TwiceTid(s1, t, d, d.(cleanup := false));
      TwiceTid(s1, t, d.(cleanup := false), u);
    } else {
      var s2 := SetTid(s1, t, d);
      assert TidCleanup(s1, t, limit) == s2;
      CompCleanupResumes(s2, t, c[1..], limit);
      FreeAllTid(s1, t, d, c[1..][..n - 1]);
      TwiceTid(FreeAll(s1, c[1..][..n - 1]), t, d, u);
    }
  }

  /** A completion that resumes is that scheduling call, after which the frame of a lone entry is freed. */
  lemma ProcessResumes(s: Sc, q: Ac, st: TxStat, linked: bool, limit: nat)
    requires Shape(s) && s.hw[q] != [] && Resumes(s, q, st)
    ensures var x := Schedule(ResumeState(s, q), q, limit); var c := s.hw[q][0];
      Process(s, q, st, linked, limit) == if c[0].comp == Aggr then x else FreeBuf(x, c[0])
  {
    hide QueueOf, Schedule, Enqueue, Shape, FreeAll;
    HeadQueue(s, q);
    var c := s.hw[q][0];
    var t := c[0].tid;
    var tid := s.tids[t];
    var s1 := Pop(s, q);
    match c[0].comp
    case Normal =>
      TwiceTid(s1, t, tid.(incomp := 0), tid.(incomp := 0, cleanup := false));
      TwiceTid(s1, t, tid.(incomp := 0, cleanup := false), tid.(incomp := 0, cleanup := false, paused := false));
    case Bar =>
    case Aggr => CompCleanupResumes(s1, t, c, limit);
  }

  /** The lists after one completion: only the list of the queue moves, by the turns its completion gives. */
  lemma ProcessMoves(s: Sc, q: Ac, st: TxStat, linked: bool, limit: nat)
    requires Shape(s) && s.hw[q] != []
    ensures var r := Process(s, q, st, linked, limit);
      r.tidq == s.tidq[q := r.tidq[q]] && Moved(s.tidq[q], CompletionTurns(s, q, st), r.tidq[q], 2)
  {
    hide Turns, Moved, CompBar, CompCleanup, CompUnaggr, CompAggr, TidCleanup, Shape, QueueOf, Paused, Rejoined;
    var c := s.hw[q][0];
    var t := c[0].tid;
    var s1 := Pop(s, q);
    HeadQueue(s, q);
    assert SameTurns(s, s1, t);
    var r := Process(s, q, st, linked, limit);
    match c[0].comp {
      case Normal =>
        TidCleanupMoves(s1, t, limit);
        PutMoves(s1, FreeBuf(s1, c[0]), t);
      case Bar => CompBarMoves(s1, t, c[0], st, linked, limit);
      case Aggr =>
        CompCleanupMoves(s1, t, c, limit);
        CompUnaggrMoves(s1, t, c[0], st, linked);
        CompAggrMoves(s1, t, c, st);
    }
    AfterSame(s, s1, t, Resumes(s, q, st), r);
    if Resumes(s, q, st) { ResumeTurns(s, q, st); }
  }

  lemma HeadQueue(s: Sc, q: Ac)
    requires Shape(s) && s.hw[q] != []
    ensures QueueOf(s.hw[q][0][0].tid) == q
  {}

  lemma ReceiveMoves(s: Sc, t: TidId, known: bool, skb: nat, pktlen: nat, key: KeyType)
    ensures ListsMoved(s, t, false, Receive(s, t, known, skb, pktlen, key))
  {
    hide QueueOf, ListsMoved, Enqueue, AddFrame, Within, NextSeq;
    PutMoves(s, s, t);
    if !known || s.free == [] {
      PutMoves(s, Receive(s, t, known, skb, pktlen, key), t);
    } else {
      var (s1, f) := Prepared(s, t, skb, pktlen, key);
      PutMoves(s, SetTid(s1, t, s1.tids[t].(bufq := s1.tids[t].bufq + [f])), t);
      PutMoves(s, SetTid(s1, t, s1.tids[t].(win := AddFrame(s1.tids[t].win, f))), t);
      if !s.tids[t].aggr { PutMoves(s, HandleNormal(s1, t, f), t); }
      else if HandleAggr(s1, t, f).tidq == s.tidq { PutMoves(s, HandleAggr(s1, t, f), t); }
    }
  }

  lemma {:induction false} DrainMoves(s: Sc, q: Ac)
    ensures DrainScheduled(s, q).tidq == s.tidq[q := []]
    decreases |s.tidq[q]|
  {
    hide DrainFirst;
    if s.tidq[q] != [] {
      DrainMoves(DrainFirst(s, q), q);
      assert DrainFirst(s, q).tidq == s.tidq[q := s.tidq[q][1..]];
    }
  }

  // ---------------------------------------------------------------------------------
  // Runs

  /** The states in which event e makes its scheduling calls on queue q. */
  ghost function CallStates(s: Sc, e: Event, q: Ac): seq<Sc> {
    match e
    case Complete(p, st, linked, limit, next) =>
      if p != q || s.hw[q] == [] then []
      else (if Resumes(s, q, st) then [ResumeState(s, q)] else []) + [Process(s, q, st, linked, limit)]
    case CompleteStopped(p, st, _, _) =>
      if p == q && s.hw[q] != [] && Resumes(s, q, st) then [ResumeState(s, q)] else []
    case _ => []
  }

  ghost function TurnsOfAll(calls: seq<Sc>, q: Ac): seq<TidId> {
    if calls == [] then [] else TurnsOf(calls[0], q) + TurnsOfAll(calls[1..], q)
  }

  /** The turns event e gives on queue q; a drain takes the whole list off. */
  ghost function TurnsBy(s: Sc, e: Event, q: Ac): seq<TidId> {
    if e.DrainTids? && e.q == q then s.tidq[q] else TurnsOfAll(CallStates(s, e, q), q)
  }

  ghost function TurnsIn(s: Sc, es: seq<Event>, q: Ac): seq<TidId>
    decreases |es|
  {
    if es == [] then [] else TurnsBy(s, es[0], q) + TurnsIn(Step(s, es[0]), es[1..], q)
  }

  /** Event e makes a scheduling call on queue q after a completion. */
  predicate Calls(s: Sc, e: Event, q: Ac) {
    e.Complete? && e.q == q && s.hw[q] != []
  }

  /** The scheduling calls a run makes on queue q after completions. */
  function CallsIn(s: Sc, es: seq<Event>, q: Ac): nat
    decreases |es|
  {
    if es == [] then 0 else (if Calls(s, es[0], q) then 1 else 0) + CallsIn(Step(s, es[0]), es[1..], q)
  }

  lemma TurnsOfTwo(s: Sc, q: Ac, st: TxStat, s1: Sc)
    requires s.hw[q] != []
    ensures TurnsOfAll((if Resumes(s, q, st) then [ResumeState(s, q)] else []) + [s1], q)
         == CompletionTurns(s, q, st) + TurnsOf(s1, q)
    ensures TurnsOfAll(if Resumes(s, q, st) then [ResumeState(s, q)] else [], q) == CompletionTurns(s, q, st)
  {
    hide Resumes, ResumeState, TurnsOf;
    var x := ResumeState(s, q);
    assert [] + TurnsOf(s1, q) == TurnsOf(s1, q);
    assert [s1][1..] == [] && [x][1..] == [] && [x, s1][1..] == [s1] && [x] + [s1] == [x, s1] && [] + [s1] == [s1];
    assert TurnsOf(s1, q) + [] == TurnsOf(s1, q) && TurnsOf(x, q) + [] == TurnsOf(x, q);
    assert TurnsOfAll([s1], q) == TurnsOf(s1, q);
    assert TurnsOfAll([x, s1], q) == TurnsOf(x, q) + TurnsOfAll([s1], q);
  }

  lemma StepMoves(s: Sc, e: Event, q: Ac)
    requires Shape(s)
    ensures Moved(s.tidq[q], TurnsBy(s, e, q), Step(s, e).tidq[q], 3)
  {
    hide Shape, Process, Schedule, Receive, Disable, DrainScheduled, Turns, TurnsOf, CompletionTurns, Paused, QueueOf;
    hide Moved, Resumes, ResumeState, TurnsOfAll;
    Stayed(s.tidq[q], s.tidq[q], 3);
    assert TurnsOfAll([], q) == [] by { NoTurns(q); }
    match e
    case Recv(t, known, skb, pktlen, key) =>
      ReceiveMoves(s, t, known, skb, pktlen, key);
      Fewer(s.tidq[q], [], Step(s, e).tidq[q], 2);
    case Complete(p, st, linked, limit, next) =>
      if s.hw[p] != [] {
        var s1 := Process(s, p, st, linked, limit);
        ProcessMoves(s, p, st, linked, limit);
        ScheduleMoves(s1, p, next);
        TurnsOfTwo(s, p, st, s1);
        if p == q {
          MovedTrans(s.tidq[q], CompletionTurns(s, q, st), s1.tidq[q], TurnsOf(s1, q), Step(s, e).tidq[q], 2, 1);
        }
      }
    case CompleteStopped(p, st, linked, limit) =>
      if s.hw[p] != [] {
        ProcessMoves(s, p, st, linked, limit);
        TurnsOfTwo(s, p, st, s);
        if p == q { Fewer(s.tidq[q], CompletionTurns(s, q, st), Step(s, e).tidq[q], 2); }
      }
    case EnableAggr(t) =>
    case DisableAggr(t, limit) => DisableMoves(s, t, limit);
    case DrainTids(p) =>
      DrainMoves(s, p);
      Drained(s.tidq[q]);
  }

  lemma NoTurns(q: Ac)
    ensures TurnsOfAll([], q) == []
  {}

  lemma Fewer(l: seq<TidId>, x: seq<TidId>, r: seq<TidId>, most: nat)
    requires Moved(l, x, r, most) && most <= 3
    ensures Moved(l, x, r, 3)
  {}

  lemma Drained(l: seq<TidId>)
    ensures Moved(l, l, [], 3)
  {
    assert l + [] == l;
  }

  /**
   First in, first out. The turns of a whole run, whatever its events, are given in the order of the list at its
   start; whoever has had none stands where the list now begins, nobody having come in between; and no more
   turns are given than the list accounts for, three identifiers at most going back on it at an event.
   */
  lemma {:induction false} TurnsInOrder(s: Sc, es: seq<Event>, q: Ac)
    requires Shape(s)
    ensures Moved(s.tidq[q], TurnsIn(s, es, q), Run(s, es).tidq[q], 3 * |es|)
    decreases |es|
  {
    hide Shape, Step, TurnsBy, Moved;
    if es == [] {
      Stayed(s.tidq[q], s.tidq[q], 0);
    } else {
      var s1 := Step(s, es[0]);
      StepMoves(s, es[0], q);
      StepGrew(s, es[0]);
      TurnsInOrder(s1, es[1..], q);
      MovedTrans(s.tidq[q], TurnsBy(s, es[0], q), s1.tidq[q], TurnsIn(s1, es[1..], q), Run(s, es).tidq[q],
                 3, 3 * |es[1..]|);
    }
  }

  /** A scheduling call on a list that is not empty gives a turn. */
  lemma CallTurns(s: Sc, e: Event, q: Ac)
    requires Shape(s) && Calls(s, e, q) && |TurnsBy(s, e, q)| < |s.tidq[q]|
    ensures TurnsBy(s, e, q) != []
  {
    hide Shape, Process, CompletionTurns, Paused, Turns, Resumes, ResumeState, TurnsOfAll;
    ProcessMoves(s, q, e.st, e.linked, e.limit);
    TurnsOfTwo(s, q, e.st, Process(s, q, e.st, e.linked, e.limit));
  }

  /** While somebody of the list at the start waits, every scheduling call gives a turn. */
  lemma {:induction false} CallsGiveTurns(s: Sc, es: seq<Event>, q: Ac)
    requires Shape(s) && |TurnsIn(s, es, q)| < |s.tidq[q]|
    ensures CallsIn(s, es, q) <= |TurnsIn(s, es, q)|
    decreases |es|
  {
    hide Shape, Step, TurnsBy, Calls;
    if es != [] {
      var s1 := Step(s, es[0]);
      StepMoves(s, es[0], q);
      StepGrew(s, es[0]);
      CallsGiveTurns(s1, es[1..], q);
      if Calls(s, es[0], q) { CallTurns(s, es[0], q); }
    }
  }

  /** In state x a scheduling call comes to u: after some dequeues u is at the head, and is dequeued next. */
  ghost predicate ComesTo(x: Sc, q: Ac, u: TidId) {
    exists j :: 0 <= j < |TurnsOf(x, q)| && j < |x.tidq[q]|
      && DequeueMany(x, q, j).tidq[q] != [] && DequeueMany(x, q, j).tidq[q][0] == u
  }

  /** In some state of the run u is dequeued: by a scheduling call, or by a drain. */
  ghost predicate Dequeued(s: Sc, es: seq<Event>, q: Ac, u: TidId)
    decreases |es|
  {
    es != []
    && ((es[0].DrainTids? && es[0].q == q && u in s.tidq[q])
        || (exists x :: x in CallStates(s, es[0], q) && ComesTo(x, q, u))
        || Dequeued(Step(s, es[0]), es[1..], q, u))
  }

  lemma {:induction false} DequeueManyIs(s: Sc, q: Ac, n: nat)
    requires n <= |s.tidq[q]|
    ensures DequeueMany(s, q, n).tidq[q] == s.tidq[q][n..]
    decreases n
  {
    if n > 0 {
      DequeueManyIs(Dequeue(s, q), q, n - 1);
      assert s.tidq[q][1..][n - 1..] == s.tidq[q][n..];
    }
  }

  lemma TurnComesTo(x: Sc, q: Ac, u: TidId)
    requires u in TurnsOf(x, q)
    ensures ComesTo(x, q, u)
  {
    TurnsPrefix(x.tidq[q], Paused(x));
    var j :| 0 <= j < |TurnsOf(x, q)| && TurnsOf(x, q)[j] == u;
    DequeueManyIs(x, q, j);
    hide Turns;
  }

  lemma {:induction false} TurnsComeFrom(calls: seq<Sc>, q: Ac, u: TidId)
    requires u in TurnsOfAll(calls, q)
    ensures exists x :: x in calls && ComesTo(x, q, u)
    decreases |calls|
  {
    hide TurnsOf, ComesTo;
    if u in TurnsOf(calls[0], q) {
      TurnComesTo(calls[0], q, u);
      assert calls[0] in calls;
    } else {
      TurnsComeFrom(calls[1..], q, u);
      var x :| x in calls[1..] && ComesTo(x, q, u);
      assert x in calls;
    }
  }

  /** A turn of a run is a dequeue in some state of it. */
  lemma {:induction false} TurnIsDequeue(s: Sc, es: seq<Event>, q: Ac, u: TidId)
    requires u in TurnsIn(s, es, q)
    ensures Dequeued(s, es, q, u)
    decreases |es|
  {
    hide Step, CallStates, ComesTo, TurnsOfAll;
    if u in TurnsBy(s, es[0], q) {
      if !(es[0].DrainTids? && es[0].q == q) { TurnsComeFrom(CallStates(s, es[0], q), q, u); }
    } else {
      TurnIsDequeue(Step(s, es[0]), es[1..], q, u);
    }
  }

  /**
   Turns along a run. Whatever happens between the calls, the identifier at position k of its list has the
   (k + 1)-st turn of the run: by the time of the (k + 1)-st scheduling call on its queue it has been
   dequeued in some state of the run.
   */
  lemma TurnComes(s: Sc, es: seq<Event>, q: Ac, k: nat)
    requires Shape(s) && k < |s.tidq[q]| && CallsIn(s, es, q) > k
    ensures k < |TurnsIn(s, es, q)| && TurnsIn(s, es, q)[k] == s.tidq[q][k]
    ensures Dequeued(s, es, q, s.tidq[q][k])
  {
    hide Shape, CallsIn, TurnsIn, Run, Dequeued;
    TurnsInOrder(s, es, q);
    if |TurnsIn(s, es, q)| <= k { CallsGiveTurns(s, es, q); }
    assert s.tidq[q][k] == (TurnsIn(s, es, q) + Run(s, es).tidq[q])[k];
    TurnIsDequeue(s, es, q, s.tidq[q][k]);
  }
}
