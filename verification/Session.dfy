/**
 One aggregation session of one traffic identifier, hardware abstracted to the set of sequence
 numbers it still holds. Session is kept by every way a frame can move.
 */
module Session {
  import opened Frames
  import opened Window
  import opened Softc
  import Aggregate

  function RetriedSeqs(q: seq<Frame>): set<nat> {
    set f | f in q && f.isretried :: f.seqno
  }

  /** No two retried frames carry the same number. */
  ghost predicate RetriedDistinct(q: seq<Frame>) {
    forall i, j :: 0 <= i < j < |q| && q[i].isretried && q[j].isretried ==> q[i].seqno != q[j].seqno
  }

  /** Frames to be retried come before frames never sent. */
  ghost predicate RetriedFirst(q: seq<Frame>) {
    forall i, j :: 0 <= i < j < |q| && q[j].isretried ==> q[i].isretried
  }

  /** The number k before x. */
  function Before(x: nat, k: nat): nat {
    (x - k) % SEQ_MAX
  }

  /** Frames never sent carry consecutive numbers, up to the one before next. */
  ghost predicate FreshInOrder(q: seq<Frame>, next: nat) {
    forall i :: 0 <= i < |q| && !q[i].isretried ==> q[i].seqno == Before(next, |q| - i)
  }

  /** The number of the first frame never sent. */
  function NextFresh(q: seq<Frame>, next: nat): nat {
    if q == [] then next else if !q[0].isretried then q[0].seqno else NextFresh(q[1..], next)
  }

  ghost predicate QueueOk(q: seq<Frame>, next: nat) {
    RetriedDistinct(q) && RetriedFirst(q) && FreshInOrder(q, next) && next < SEQ_MAX
  }

  /**
   The window covers the numbers hardware holds and the numbers waiting for a retry, these two are
   disjoint, and the first number never sent is the one just after the window. If strict, the
   window holds nothing else, is closed up when nothing is unresolved, and no bit is left behind ahead of
   the first number never sent.
   */
  ghost predicate InSession(strict: bool, w: Window, q: seq<Frame>, next: nat, held: set<nat>) {
    && QueueOk(q, next)
    && RetriedSeqs(q) !! held
    && Represents(strict, w, RetriedSeqs(q) + held)
    && (Width(w) > 0 ==> Offset(w.seqStart, NextFresh(q, next)) == Width(w))
    && (strict ==> Clean(w, NextFresh(q, next)))
    && (strict && Width(w) > 0 ==> RetriedSeqs(q) + held != {})
  }

  // ---------------------------------------------------------------------------------
  // Queue facts

  lemma BeforeFacts(next: nat, k: nat)
    requires next < SEQ_MAX && 0 < k
    ensures Before(next, k) < SEQ_MAX
    ensures Before(NextSeq(next), k + 1) == Before(next, k)
    ensures NextSeq(Before(next, k)) == Before(next, k - 1)
    ensures Before(next, 0) == next && Before(NextSeq(next), 1) == next
  {
    BeforeNext(next, k);
    NextBefore(next, k);
    BeforeNext(next, 0);
  }

  lemma BeforeNext(next: nat, k: nat)
    requires next < SEQ_MAX
    ensures Before(NextSeq(next), k + 1) == Before(next, k)
  {
    if next == SEQ_MAX - 1 { assert NextSeq(next) == 0; }
  }

  lemma NextBefore(next: nat, k: nat)
    requires next < SEQ_MAX && 0 < k
    ensures NextSeq(Before(next, k)) == Before(next, k - 1)
  {
    var b := Before(next, k);
    if b == SEQ_MAX - 1 { assert NextSeq(b) == 0; }
  }

  lemma RetriedSeqsFirst(q: seq<Frame>)
    requires q != []
    ensures RetriedSeqs(q) == RetriedSeqs(q[1..]) + if q[0].isretried then {q[0].seqno} else {}
  {
    assert q == [q[0]] + q[1..];
  }

  lemma QueueDrop(q: seq<Frame>, next: nat)
    requires q != [] && QueueOk(q, next)
    ensures QueueOk(q[1..], next)
    ensures q[0].isretried ==> q[0].seqno !in RetriedSeqs(q[1..])
    ensures !q[0].isretried ==> RetriedSeqs(q) == {}
  {
    var p := q[1..];
    forall i | 0 <= i < |p| ensures p[i] == q[i + 1] {}
    if !q[0].isretried {
      forall f | f in q ensures !f.isretried { var i :| 0 <= i < |q| && q[i] == f; }
    }
  }

  lemma NextFreshDrop(q: seq<Frame>, next: nat)
    requires q != [] && QueueOk(q, next)
    ensures q[0].isretried ==> NextFresh(q[1..], next) == NextFresh(q, next)
    ensures !q[0].isretried ==> NextFresh(q, next) == q[0].seqno && NextFresh(q[1..], next) == NextSeq(q[0].seqno)
    ensures !q[0].isretried ==> q[0].seqno < SEQ_MAX
  {
    hide Before, NextSeq;
    if !q[0].isretried {
      BeforeFacts(next, |q|);
      if |q| > 1 {
        assert !q[1].isretried;
        assert q[1].seqno == Before(next, |q| - 1);
      }
    }
  }

  lemma {:induction false} NextFreshAppend(q: seq<Frame>, next: nat, f: Frame)
    requires !f.isretried && f.seqno == next
    ensures NextFresh(q + [f], NextSeq(next)) == NextFresh(q, next)
  {
    if q == [] {
      assert (q + [f])[0] == f;
    } else {
      assert (q + [f])[0] == q[0] && (q + [f])[1..] == q[1..] + [f];
      NextFreshAppend(q[1..], next, f);
    }
  }

  lemma QueueAppend(q: seq<Frame>, next: nat, f: Frame)
    requires QueueOk(q, next) && !f.isretried && f.seqno == next
    ensures QueueOk(q + [f], NextSeq(next))
    ensures RetriedSeqs(q + [f]) == RetriedSeqs(q)
  {
    hide Before, NextSeq;
    var p := q + [f];
    BeforeFacts(next, 1);
    NextSmall(next);
    forall i | 0 <= i < |p| && !p[i].isretried ensures p[i].seqno == Before(NextSeq(next), |p| - i) {
      if i < |q| { BeforeFacts(next, |q| - i); }
    }
  }

  lemma NextSmall(x: nat)
    ensures NextSeq(x) < SEQ_MAX
  {}

  lemma QueuePrepend(q: seq<Frame>, next: nat, f: Frame)
    requires QueueOk(q, next) && f.isretried && f.seqno !in RetriedSeqs(q)
    ensures QueueOk([f] + q, next)
    ensures RetriedSeqs([f] + q) == RetriedSeqs(q) + {f.seqno}
    ensures NextFresh([f] + q, next) == NextFresh(q, next)
  {
    hide Before;
    var p := [f] + q;
    assert p[1..] == q;
    RetriedSeqsFirst(p);
    forall i | 0 < i < |p| ensures p[i] == q[i - 1] {}
    forall i, j | 0 <= i < j < |p| && p[i].isretried && p[j].isretried ensures p[i].seqno != p[j].seqno {
      if i == 0 { assert q[j - 1] in q; }
    }
  }

  // ---------------------------------------------------------------------------------
  // The moves of a session

  /** The head of the queue is sent: it joins what hardware holds, and the window if it is new. */
  lemma SendFirst(strict: bool, w: Window, q: seq<Frame>, next: nat, held: set<nat>)
    requires InSession(strict, w, q, next, held) && q != [] && Aggregate.Inside(w.seqStart, q[0])
    ensures InSession(strict, AddFrame(w, q[0]), q[1..], next, held + {q[0].seqno})
    ensures q[0].seqno !in held && AddFrame(w, q[0]).seqStart == w.seqStart
  {
    hide Holds, View, Add, Before, NextSeq, RetriedSeqs, NextFresh, RetriedDistinct, RetriedFirst, FreshInOrder;
    var f := q[0];
    RetriedSeqsFirst(q);
    QueueDrop(q, next);
    NextFreshDrop(q, next);
    if f.isretried {
      assert RetriedSeqs(q[1..]) + (held + {f.seqno}) == RetriedSeqs(q) + held;
    } else {
      assert RetriedSeqs(q) + held == held;
      SendNew(strict, w, q[1..], next, held, f.seqno);
    }
  }

  lemma OffsetNext(w: Window, x: nat)
    requires x < SEQ_MAX && Offset(w.seqStart, x) < WME_MAX_BA
    ensures Offset(w.seqStart, NextSeq(x)) == Offset(w.seqStart, x) + 1
  {}

  /** x follows the window, or the window is empty: adding it extends the window by exactly x. */
  lemma SendNew(strict: bool, w: Window, q: seq<Frame>, next: nat, held: set<nat>, x: nat)
    requires QueueOk(q, next) && RetriedSeqs(q) == {} && x < SEQ_MAX && Within(w, x)
    requires Represents(strict, w, held) && (strict ==> Clean(w, x))
    requires Width(w) > 0 ==> Offset(w.seqStart, x) == Width(w)
    requires NextFresh(q, next) == NextSeq(x)
    ensures x !in held
    ensures Add(w, x).seqStart == w.seqStart
    ensures InSession(strict, Add(w, x), q, next, held + {x})
  {
    hide View, Before, NextSeq, RetriedSeqs, NextFresh, RetriedDistinct, RetriedFirst, FreshInOrder;
    AddRepresents(strict, w, held, x);
    OffsetNext(w, x);
    assert Width(Add(w, x)) == Offset(w.seqStart, x) + 1;
    assert RetriedSeqs(q) + (held + {x}) == held + {x};
  }

  /** A new frame is queued. */
  lemma QueueNew(strict: bool, w: Window, q: seq<Frame>, next: nat, held: set<nat>, f: Frame)
    requires InSession(strict, w, q, next, held) && !f.isretried && f.seqno == next
    ensures InSession(strict, w, q + [f], NextSeq(next), held)
  {
    hide Represents, NextSeq, NextFresh, Before;
    QueueAppend(q, next, f);
    NextFreshAppend(q, next, f);
  }

  /** A new frame is sent at once, the queue being empty. */
  lemma SendAtOnce(strict: bool, w: Window, next: nat, held: set<nat>)
    requires InSession(strict, w, [], next, held) && Within(w, next)
    ensures InSession(strict, Add(w, next), [], NextSeq(next), held + {next}) && next !in held
  {
    hide Represents;
    assert RetriedSeqs([]) == {};
    assert {} + held == held;
    SendNew(strict, w, [], NextSeq(next), held, next);
  }

  lemma RepresentsWidth(strict: bool, w: Window, u: set<nat>)
    requires Represents(strict, w, u)
    ensures Width(w) <= WME_MAX_BA && (u != {} ==> Width(w) > 0)
  {
    if u != {} { var x :| x in u; }
  }

  lemma SlidKeepsOffset(strict: bool, w: Window, v: Window, unresolved: set<nat>, k: nat, x: nat)
    requires SlidTo(strict, w, v, unresolved, k) && Width(w) <= WME_MAX_BA && x < SEQ_MAX
    requires Width(w) > 0 ==> Offset(w.seqStart, x) == Width(w)
    ensures Width(w) > 0 ==> Offset(v.seqStart, x) == Width(v) && Clean(v, x)
  {
    hide View;
    if Width(w) > 0 {
      assert SeqAt(w.seqStart, Width(w)) == x by { SeqAtOffset(w.seqStart, x); }
      SeqAtAdd(w.seqStart, k, Width(v));
      OffsetSeqAt(v.seqStart, Width(v));
    }
  }

  lemma {:induction false} NextFreshSmall(q: seq<Frame>, next: nat)
    requires QueueOk(q, next)
    ensures NextFresh(q, next) < SEQ_MAX
  {
    if q != [] && q[0].isretried {
      QueueDrop(q, next);
      NextFreshSmall(q[1..], next);
    } else if q != [] {
      NextFreshDrop(q, next);
    }
  }

  /** A number hardware held is resolved. */
  lemma ResolveHeld(strict: bool, w: Window, q: seq<Frame>, next: nat, held: set<nat>, x: nat)
    requires InSession(strict, w, q, next, held) && x in held
    ensures InSession(strict, Resolve(w, x), q, next, held - {x})
  {
    hide Holds, View, RetriedSeqs, NextFresh, QueueOk, SlidTo, Resolve;
    NextFreshSmall(q, next);
    RepresentsWidth(strict, w, RetriedSeqs(q) + held);
    var k := ResolveRepresents(strict, w, RetriedSeqs(q) + held, x);
    assert RetriedSeqs(q) + held - {x} == RetriedSeqs(q) + (held - {x});
    SlidKeepsOffset(strict, w, Resolve(w, x), RetriedSeqs(q) + held - {x}, k, NextFresh(q, next));
  }

  /** A number hardware held goes back to the head of the queue. */
  lemma RetryHeld(strict: bool, w: Window, q: seq<Frame>, next: nat, held: set<nat>, f: Frame)
    requires InSession(strict, w, q, next, held) && f.seqno in held && f.isretried
    ensures InSession(strict, w, [f] + q, next, held - {f.seqno})
  {
    hide Represents, RetriedSeqs, NextFresh, QueueOk;
    QueuePrepend(q, next, f);
    assert RetriedSeqs([f] + q) + (held - {f.seqno}) == RetriedSeqs(q) + held;
  }

  /** Teardown first resolves every retried frame: what remains is what hardware holds. */
  lemma {:induction false} FlushRetriedLeaves(strict: bool, w: Window, q: seq<Frame>, next: nat, held: set<nat>)
    requires QueueOk(q, next) && RetriedSeqs(q) !! held && Represents(strict, w, RetriedSeqs(q) + held)
    ensures Represents(strict, FlushRetried(w, q), held)
    decreases |q|
  {
    hide Represents, RetriedSeqs, Resolve, QueueOk;
    if q == [] {
      assert RetriedSeqs(q) == {} by { RetriedNone(q); }
      assert {} + held == held;
    } else {
      RetriedSeqsFirst(q);
      QueueDrop(q, next);
      if q[0].isretried {
        var x := q[0].seqno;
        var k := ResolveRepresents(strict, w, RetriedSeqs(q) + held, x);
        assert RetriedSeqs(q) + held - {x} == RetriedSeqs(q[1..]) + held;
        FlushRetriedLeaves(strict, Resolve(w, x), q[1..], next, held);
      } else {
        assert RetriedSeqs(q) == RetriedSeqs(q[1..]);
        FlushRetriedLeaves(strict, w, q[1..], next, held);
      }
    }
  }

  lemma RetriedNone(q: seq<Frame>)
    requires q == []
    ensures RetriedSeqs(q) == {}
  {}

  /** Teardown counts what hardware holds, if strict exactly, and leaves an empty window and queue. */
  lemma CleanupCounts(strict: bool, tid: Tid, held: set<nat>)
    requires InSession(strict, tid.win, tid.bufq, tid.seqNext, held)
    ensures var r := CleanupTid(tid);
      && r.bufq == [] && r.paused && Width(r.win) == 0
      && r.incomp >= tid.incomp + |held| && (strict ==> r.incomp == tid.incomp + |held|)
      && (r.cleanup <==> tid.cleanup || r.incomp > tid.incomp)
  {
    hide Represents, RetriedSeqs, Flush, FlushRetried, QueueOk;
    FlushRetriedLeaves(strict, tid.win, tid.bufq, tid.seqNext, held);
    FlushCounts(strict, FlushRetried(tid.win, tid.bufq), held);
  }

  /**
   ath_tgt_tid_drain moves the tail but leaves the bitmap. The empty window it leaves is right, and the
   bits left behind, within the width the window had, are exactly those of the unresolved numbers.
   */
  lemma DrainLeavesBits(tid: Tid, held: set<nat>, o: nat)
    requires InSession(true, tid.win, tid.bufq, tid.seqNext, held) && o < Width(tid.win)
    ensures var v := DrainTid(tid).win;
      && Represents(true, v, {}) && Width(v) == 0
      && (View(v)[o] <==> SeqAt(tid.win.seqStart, o) in RetriedSeqs(tid.bufq) + held)
  {
    hide RetriedSeqs, NextFresh, QueueOk;
    var v := DrainTid(tid).win;
    assert View(v) == View(tid.win) && Width(v) == 0;
    OffsetSeqAt(tid.win.seqStart, o);
  }

  /** After a drain the identifier is ready for a new session: its next number is the window's start. */
  lemma DrainRestarts(strict: bool, tid: Tid)
    ensures InSession(strict, DrainTid(tid).win, [], DrainTid(tid).seqNext, {}) && DrainTid(tid).bufq == []
  {
    var v := DrainTid(tid).win;
    EmptyRepresents(strict, v);
    assert RetriedSeqs([]) + {} == {};
    assert Offset(v.seqStart, v.seqStart) == 0;
  }

  /** A drained session in which the new frames q were queued and then thrown away by a teardown. */
  function Discarded(tid: Tid, q: seq<Frame>): Tid {
    CleanupTid(DrainTid(tid).(bufq := q, seqNext := SeqAt(tid.win.seqStart, |q|)))
  }

  lemma DiscardedIs(tid: Tid, q: seq<Frame>)
    requires forall f :: f in q ==> !f.isretried
    ensures Discarded(tid, q).win == DrainTid(tid).win && Discarded(tid, q).seqNext == SeqAt(tid.win.seqStart, |q|)
    ensures Width(Discarded(tid, q).win) == 0 && View(Discarded(tid, q).win) == View(tid.win)
  {
    var v := DrainTid(tid).win;
    FlushRetriedFresh(v, q);
    assert v.head == v.tail && View(v) == View(tid.win);
  }

  /**
   When a bit left behind comes back to life: new frames q were queued after a drain and thrown away. The
   next number sent leaves the window exact if and only if no bit was left behind before it.
   */
  lemma LeftBitReturnsIff(tid: Tid, q: seq<Frame>)
    requires |q| < WME_MAX_BA && forall f :: f in q ==> !f.isretried
    ensures var c := Discarded(tid, q);
      Within(c.win, c.seqNext) && (Represents(true, Add(c.win, c.seqNext), {c.seqNext}) <==> Clean(c.win, c.seqNext))
  {
    hide Discarded, Represents, Clean, View;
    var c := Discarded(tid, q);
    DiscardedIs(tid, q);
    OffsetSeqAt(tid.win.seqStart, |q|);
    EmptyRepresents(true, c.win);
    AddExactIff(c.win, {}, c.seqNext);
    assert {} + {c.seqNext} == {c.seqNext};
  }

  /** And one was left behind if a number less than |q| ahead was unresolved at the drain. */
  lemma LeftBit(tid: Tid, held: set<nat>, q: seq<Frame>, y: nat)
    requires InSession(true, tid.win, tid.bufq, tid.seqNext, held) && y in RetriedSeqs(tid.bufq) + held
    requires |q| < WME_MAX_BA && forall f :: f in q ==> !f.isretried
    requires Offset(tid.win.seqStart, y) < |q|
    ensures !Clean(Discarded(tid, q).win, Discarded(tid, q).seqNext)
  {
    hide Discarded, RetriedSeqs, QueueOk, View;
    DiscardedIs(tid, q);
    OffsetSeqAt(tid.win.seqStart, |q|);
    assert View(tid.win)[Offset(tid.win.seqStart, y)];
  }

  lemma {:induction false} FlushRetriedFresh(w: Window, q: seq<Frame>)
    requires forall f :: f in q ==> !f.isretried
    ensures FlushRetried(w, q) == w
    decreases |q|
  {
    if q != [] {
      assert q[0] in q;
      FlushRetriedFresh(w, q[1..]);
    }
  }
}
