/**
 What every step of the data path keeps, for all traffic identifiers at once. `hand` lists
 the numbers of the frames of identifier t that a completion function is working on.
 */
module Engine {
  import opened Frames
  import opened Window
  import opened Softc
  import opened Session
  import Aggregate

  type Numbers = multiset<nat>

  function SeqNumbers(q: seq<Frame>): Numbers {
    if q == [] then multiset{} else multiset{q[0].seqno} + SeqNumbers(q[1..])
  }

  predicate Mine(c: Chain, u: TidId) {
    c[0].tid == u && c[0].comp == Aggr
  }

  /** The numbers of identifier u that a hardware queue holds. */
  function InHardware(h: seq<Chain>, u: TidId): Numbers {
    if h == [] then multiset{} else (if Mine(h[0], u) then SeqNumbers(h[0]) else multiset{}) + InHardware(h[1..], u)
  }

  function Elems(m: Numbers): set<nat> {
    set n | n in m
  }

  ghost predicate Single(m: Numbers) {
    forall n :: m[n] <= 1
  }

  /**
   One identifier whose frames in hardware carry the numbers m. In a session: the window covers m and
   the retried frames. During teardown: everything is empty, and incomp covers m. If strict, the window
   holds nothing else and incomp is the size of m.
   */
  ghost predicate TidInv(strict: bool, tid: Tid, m: Numbers) {
    && tid.seqNext < SEQ_MAX
    && if tid.cleanup then
         !tid.aggr && tid.bufq == [] && Width(tid.win) == 0
         && |m| <= tid.incomp && 0 < tid.incomp && (strict ==> tid.incomp == |m|)
       else if tid.aggr then
         tid.incomp == 0 && Single(m) && InSession(strict, tid.win, tid.bufq, tid.seqNext, Elems(m))
       else
         tid.incomp == 0 && tid.bufq == [] && m == multiset{} && Width(tid.win) == 0
  }

  ghost predicate IsNormal(c: Chain, u: TidId) {
    c[0].tid == u && c[0].comp == Normal
  }

  /** No frame of u sent outside aggregation stands before an aggregated one. */
  ghost predicate NormalsBehind(h: seq<Chain>, u: TidId) {
    forall i, j :: 0 <= i < j < |h| && IsNormal(h[i], u) ==> !Mine(h[j], u)
  }

  /** Outside a session, no frame sent outside aggregation stands before one still counted by teardown. */
  ghost predicate NormalsOk(tid: Tid, h: seq<Chain>, u: TidId) {
    !tid.aggr ==> NormalsBehind(h, u)
  }

  ghost predicate ChainOk(c: Chain, q: Ac) {
    && QueueOf(c[0].tid) == q
    && (c[0].comp != Aggr ==> |c| == 1)
    && (c[0].comp == Aggr ==> forall f :: f in c ==> f.comp == Aggr && f.tid == c[0].tid)
    && (c[0].comp == Bar ==> c[0].retries >= OWLMAX_BAR_RETRIES)
  }

  ghost predicate QueuedOk(q: seq<Frame>, u: TidId) {
    forall f :: f in q ==> f.tid == u && f.comp == Aggr
  }

  ghost predicate Shape(s: Sc) {
    && (forall q, i :: 0 <= q < WME_NUM_AC && 0 <= i < |s.hw[q]| ==> ChainOk(s.hw[q][i], q))
    && (forall u: TidId :: QueuedOk(s.tids[u].bufq, u))
  }

  function Held(s: Sc, u: TidId): Numbers {
    InHardware(s.hw[QueueOf(u)], u)
  }

  function HandOf(t: TidId, hand: Numbers, u: TidId): Numbers {
    if u == t then hand else multiset{}
  }

  ghost predicate UInv(strict: bool, s: Sc, u: TidId, hand: Numbers) {
    TidInv(strict, s.tids[u], Held(s, u) + hand) && NormalsOk(s.tids[u], s.hw[QueueOf(u)], u)
  }

  ghost predicate Inv(strict: bool, s: Sc, t: TidId, hand: Numbers) {
    Shape(s) && forall u: TidId :: UInv(strict, s, u, HandOf(t, hand, u))
  }

  // ---------------------------------------------------------------------------------
  // Multisets of numbers

  lemma {:induction false} SeqNumbersConcat(a: seq<Frame>, b: seq<Frame>)
    ensures SeqNumbers(a + b) == SeqNumbers(a) + SeqNumbers(b)
  {
    if a == [] {
      assert a + b == b;
    } else {
      assert (a + b)[1..] == a[1..] + b;
      SeqNumbersConcat(a[1..], b);
    }
  }

  lemma SeqNumbersOne(f: Frame)
    ensures SeqNumbers([f]) == multiset{f.seqno}
  {
    assert SeqNumbers([f][1..]) == multiset{};
  }

  lemma {:induction false} InHardwareAppend(h: seq<Chain>, c: Chain, u: TidId)
    ensures InHardware(h + [c], u) == InHardware(h, u) + if Mine(c, u) then SeqNumbers(c) else multiset{}
  {
    hide SeqNumbers, Mine;
    if h == [] {
      assert h + [c] == [c] && [c][1..] == [];
    } else {
      assert (h + [c])[1..] == h[1..] + [c];
      InHardwareAppend(h[1..], c, u);
    }
  }

  lemma {:induction false} SingleCard(m: Numbers)
    requires Single(m)
    ensures |Elems(m)| == |m|
    decreases |m|
  {
    if m == multiset{} {
      assert Elems(m) == {};
    } else {
      var x :| x in m;
      var p := m - multiset{x};
      SingleCard(p);
      assert m[x] == 1;
      assert Elems(p) == Elems(m) - {x};
      assert m == p + multiset{x};
    }
  }

  lemma ElemsAdd(m: Numbers, x: nat)
    requires Single(m) && x !in m
    ensures Single(m + multiset{x}) && Elems(m + multiset{x}) == Elems(m) + {x}
  {}

  lemma ElemsRemove(m: Numbers, x: nat)
    requires Single(m) && x in m
    ensures Single(m - multiset{x}) && Elems(m - multiset{x}) == Elems(m) - {x}
  {}

  // ---------------------------------------------------------------------------------
  // One identifier

  /** The first frame of the queue moves into hand. */
  lemma TakeFirst(strict: bool, tid: Tid, m: Numbers)
    requires TidInv(strict, tid, m) && tid.bufq != [] && Aggregate.Inside(tid.win.seqStart, tid.bufq[0])
    ensures TidInv(strict, tid.(win := AddFrame(tid.win, tid.bufq[0]), bufq := tid.bufq[1..]),
                   m + multiset{tid.bufq[0].seqno})
    ensures AddFrame(tid.win, tid.bufq[0]).seqStart == tid.win.seqStart
  {
    hide InSession, Represents, AddFrame;
    SendFirst(strict, tid.win, tid.bufq, tid.seqNext, Elems(m));
    ElemsAdd(m, tid.bufq[0].seqno);
  }

  lemma {:induction false} TakeMany(strict: bool, tid: Tid, m: Numbers, c: nat)
    requires TidInv(strict, tid, m) && c <= |tid.bufq|
    requires forall i :: 0 <= i < c ==> Aggregate.Inside(tid.win.seqStart, tid.bufq[i])
    ensures TidInv(strict, tid.(win := AddFrames(tid.win, tid.bufq[..c]), bufq := tid.bufq[c..]),
                   m + SeqNumbers(tid.bufq[..c]))
    decreases c
  {
    hide TidInv, AddFrame;
    if c == 0 {
      assert tid.bufq[..0] == [] && tid.bufq[0..] == tid.bufq;
      assert m + SeqNumbers([]) == m;
    } else {
      var f := tid.bufq[0];
      TakeFirst(strict, tid, m);
      var tid1 := tid.(win := AddFrame(tid.win, f), bufq := tid.bufq[1..]);
      TakeMany(strict, tid1, m + multiset{f.seqno}, c - 1);
      assert tid.bufq[..c][1..] == tid1.bufq[..c - 1];
      assert tid1.bufq[c - 1..] == tid.bufq[c..];
      assert m + multiset{f.seqno} + SeqNumbers(tid1.bufq[..c - 1]) == m + SeqNumbers(tid.bufq[..c]);
    }
  }

  lemma ResolveOne(strict: bool, tid: Tid, m: Numbers, x: nat)
    requires TidInv(strict, tid, m) && !tid.cleanup && x in m
    ensures TidInv(strict, tid.(win := Resolve(tid.win, x)), m - multiset{x})
  {
    hide InSession, Represents, Resolve;
    ResolveHeld(strict, tid.win, tid.bufq, tid.seqNext, Elems(m), x);
    ElemsRemove(m, x);
  }

  lemma PutBack(strict: bool, tid: Tid, m: Numbers, f: Frame)
    requires TidInv(strict, tid, m) && !tid.cleanup && f.isretried && f.seqno in m
    ensures TidInv(strict, tid.(bufq := [f] + tid.bufq), m - multiset{f.seqno})
  {
    hide InSession, Represents;
    RetryHeld(strict, tid.win, tid.bufq, tid.seqNext, Elems(m), f);
    ElemsRemove(m, f.seqno);
  }

  lemma LastNumber(m: Numbers, p: seq<Frame>)
    requires p != []
    ensures p[|p| - 1].seqno in m + SeqNumbers(p)
    ensures m + SeqNumbers(p) - multiset{p[|p| - 1].seqno} == m + SeqNumbers(p[..|p| - 1])
  {
    hide SeqNumbers;
    var k := |p| - 1;
    assert p == p[..k] + [p[k]];
    SeqNumbersConcat(p[..k], [p[k]]);
    SeqNumbersOne(p[k]);
  }

  lemma {:induction false} PutBackMany(strict: bool, tid: Tid, m: Numbers, p: seq<Frame>)
    requires TidInv(strict, tid, m + SeqNumbers(p)) && (p != [] ==> !tid.cleanup)
    requires forall f :: f in p ==> f.isretried
    ensures TidInv(strict, tid.(bufq := p + tid.bufq), m)
    decreases |p|
  {
    hide TidInv;
    if p == [] {
      assert p + tid.bufq == tid.bufq && m + SeqNumbers(p) == m;
    } else {
      hide SeqNumbers;
      var k := |p| - 1;
      LastNumber(m, p);
      PutBack(strict, tid, m + SeqNumbers(p), p[k]);
      PutBackMany(strict, tid.(bufq := [p[k]] + tid.bufq), m, p[..k]);
      assert p[..k] + ([p[k]] + tid.bufq) == p + tid.bufq;
    }
  }

  lemma QueueOne(strict: bool, tid: Tid, m: Numbers, f: Frame)
    requires TidInv(strict, tid, m) && tid.aggr && !f.isretried && f.seqno == tid.seqNext
    ensures TidInv(strict, tid.(bufq := tid.bufq + [f], seqNext := NextSeq(tid.seqNext)), m)
  {
    hide InSession, Represents, NextSeq;
    NextSmall(tid.seqNext);
    QueueNew(strict, tid.win, tid.bufq, tid.seqNext, Elems(m), f);
  }

  lemma SendOne(strict: bool, tid: Tid, m: Numbers)
    requires TidInv(strict, tid, m) && tid.aggr && tid.bufq == [] && Within(tid.win, tid.seqNext)
    ensures TidInv(strict, tid.(win := Add(tid.win, tid.seqNext), seqNext := NextSeq(tid.seqNext)),
                   m + multiset{tid.seqNext})
  {
    hide InSession, Represents, NextSeq, Add, Within;
    NextSmall(tid.seqNext);
    SendAtOnce(strict, tid.win, tid.seqNext, Elems(m));
    ElemsAdd(m, tid.seqNext);
  }

  /** Teardown of a session: incomp covers the frames in hardware, if strict exactly. */
  lemma CleanupOne(strict: bool, tid: Tid, m: Numbers)
    requires TidInv(strict, tid, m)
    ensures var r := CleanupTid(tid.(aggr := false));
      r.bufq == [] && r.paused && !r.aggr && TidInv(strict, r, m)
  {
    hide Flush, FlushRetried;
    var r := CleanupTid(tid.(aggr := false));
    if tid.aggr {
      hide Represents;
      CleanupCounts(strict, tid.(aggr := false), Elems(m));
      SingleCard(m);
    } else {
      CleanupAgain(tid.(aggr := false));
    }
  }

  lemma CleanupAgain(tid: Tid)
    requires tid.bufq == [] && Width(tid.win) == 0
    ensures CleanupTid(tid) == tid.(paused := true)
  {
    assert tid.win.head == tid.win.tail;
  }

  /** A new session on an empty window, its next number reached over no bit left behind if strict. */
  lemma EmptySession(strict: bool, w: Window, next: nat)
    requires Width(w) == 0 && next < SEQ_MAX && (strict ==> Clean(w, next))
    ensures InSession(strict, w, [], next, {})
  {
    hide Clean;
    EmptyRepresents(strict, w);
    assert RetriedSeqs([]) + {} == {};
  }

  /** Outside a session the window's start and the next number do not matter. */
  lemma IdleOne(strict: bool, tid: Tid, m: Numbers, w: Window, next: nat)
    requires TidInv(strict, tid, m) && !tid.aggr && next < SEQ_MAX
    requires w.head == tid.win.head && w.tail == tid.win.tail
    ensures TidInv(strict, tid.(win := w, seqNext := next), m)
  {}
}
