/** Every routine of the data path keeps the invariant of module Engine. */
module Steps {
  import opened Frames
  import opened Window
  import opened Softc
  import opened Session
  import opened Engine
  import Aggregate

  // ---------------------------------------------------------------------------------
  // The three ways a state changes

  lemma SameInv(strict: bool, s: Sc, s1: Sc, t: TidId, hand: Numbers)
    requires Inv(strict, s, t, hand) && s1.tids == s.tids && s1.hw == s.hw
    ensures Inv(strict, s1, t, hand)
  {
    hide TidInv, NormalsOk, ChainOk, QueuedOk, InHardware, QueueOf;
    forall u: TidId ensures UInv(strict, s1, u, HandOf(t, hand, u)) {
      assert UInv(strict, s, u, HandOf(t, hand, u));
    }
  }

  /** An empty hand belongs to nobody. */
  lemma NobodysHand(strict: bool, s: Sc, t: TidId, u: TidId)
    requires Inv(strict, s, t, multiset{})
    ensures Inv(strict, s, u, multiset{})
  {
    hide UInv, Shape;
    forall v: TidId ensures UInv(strict, s, v, HandOf(u, multiset{}, v)) {
      assert UInv(strict, s, v, HandOf(t, multiset{}, v));
    }
  }

  lemma SetTidInv(strict: bool, s: Sc, t: TidId, hand: Numbers, tid: Tid, hand': Numbers)
    requires Inv(strict, s, t, hand)
    requires TidInv(strict, tid, Held(s, t) + hand') && QueuedOk(tid.bufq, t)
    requires tid.aggr || !s.tids[t].aggr || NormalsBehind(s.hw[QueueOf(t)], t)
    ensures Inv(strict, SetTid(s, t, tid), t, hand')
  {
    hide TidInv, ChainOk, QueuedOk, InHardware, QueueOf, NormalsBehind;
    var s1 := SetTid(s, t, tid);
    forall u: TidId ensures UInv(strict, s1, u, HandOf(t, hand', u)) {
      assert UInv(strict, s, u, HandOf(t, hand, u));
    }
    forall u: TidId ensures QueuedOk(s1.tids[u].bufq, u) {}
  }

  /** Scheduling flags play no part. */
  lemma FlagsInv(strict: bool, s: Sc, t: TidId, hand: Numbers, u: TidId, tid: Tid)
    requires Inv(strict, s, t, hand) && tid == s.tids[u].(paused := tid.paused, sched := tid.sched)
    ensures Inv(strict, SetTid(s, u, tid), t, hand)
  {
    hide InSession, ChainOk, InHardware, QueueOf, Represents;
    var s1 := SetTid(s, u, tid);
    forall v: TidId ensures UInv(strict, s1, v, HandOf(t, hand, v)) {
      assert UInv(strict, s, v, HandOf(t, hand, v));
    }
    forall v: TidId ensures QueuedOk(s1.tids[v].bufq, v) {
      assert QueuedOk(s.tids[v].bufq, v);
    }
  }

  lemma SubmitOne(tid: Tid, h: seq<Chain>, c: Chain, u: TidId)
    requires NormalsOk(tid, h, u) && (Mine(c, u) ==> tid.aggr)
    ensures NormalsOk(tid, h + [c], u)
  {
    var h1 := h + [c];
    forall i | 0 <= i < |h| ensures h1[i] == h[i] {}
    if !tid.aggr {
      forall i, j | 0 <= i < j < |h1| && IsNormal(h1[i], u) ensures !Mine(h1[j], u) {
        assert IsNormal(h[i], u);
      }
    }
  }

  /** A chain leaves the hand of t and goes to the tail of its hardware queue. */
  lemma SubmitInv(strict: bool, s: Sc, t: TidId, hand: Numbers, c: Chain, hand': Numbers)
    requires Inv(strict, s, t, hand) && ChainOk(c, QueueOf(t)) && c[0].tid == t
    requires Mine(c, t) ==> s.tids[t].aggr
    requires hand == hand' + if Mine(c, t) then SeqNumbers(c) else multiset{}
    ensures Inv(strict, Submit(s, QueueOf(t), c), t, hand')
  {
    hide TidInv, ChainOk, QueuedOk, InHardware, QueueOf, NormalsOk, SeqNumbers;
    var q := QueueOf(t);
    var s1 := Submit(s, q, c);
    forall u: TidId ensures UInv(strict, s1, u, HandOf(t, hand', u)) {
      assert UInv(strict, s, u, HandOf(t, hand, u));
      if QueueOf(u) == q {
        InHardwareAppend(s.hw[q], c, u);
        SubmitOne(s.tids[u], s.hw[q], c, u);
        assert Held(s1, u) + HandOf(t, hand', u) == Held(s, u) + HandOf(t, hand, u);
      }
    }
    SubmitShape(s, q, c);
  }

  lemma SubmitShape(s: Sc, q: Ac, c: Chain)
    requires Shape(s) && ChainOk(c, q)
    ensures Shape(Submit(s, q, c))
  {
    hide ChainOk, QueuedOk;
    var s1 := Submit(s, q, c);
    forall r, i | 0 <= r < WME_NUM_AC && 0 <= i < |s1.hw[r]| ensures ChainOk(s1.hw[r][i], r) {
      if r == q && i == |s.hw[q]| {} else { assert s1.hw[r][i] == s.hw[r][i]; }
    }
  }

  lemma PopOne(tid: Tid, h: seq<Chain>, u: TidId)
    requires h != [] && NormalsOk(tid, h, u)
    ensures NormalsOk(tid, h[1..], u)
    ensures IsNormal(h[0], u) && !tid.aggr ==> InHardware(h[1..], u) == multiset{}
  {
    var h1 := h[1..];
    forall i | 0 <= i < |h1| ensures h1[i] == h[i + 1] {}
    if IsNormal(h[0], u) && !tid.aggr {
      forall j | 0 <= j < |h1| ensures !Mine(h1[j], u) {}
      NothingInHardware(h1, u);
    }
  }

  lemma {:induction false} NothingInHardware(h: seq<Chain>, u: TidId)
    requires forall j :: 0 <= j < |h| ==> !Mine(h[j], u)
    ensures InHardware(h, u) == multiset{}
  {
    hide Mine, SeqNumbers;
    if h != [] {
      forall j | 0 <= j < |h[1..]| ensures !Mine(h[1..][j], u) { assert h[1..][j] == h[j + 1]; }
      NothingInHardware(h[1..], u);
    }
  }

  function Pop(s: Sc, q: Ac): Sc
    requires s.hw[q] != []
  {
    s.(hw := s.hw[q := s.hw[q][1..]])
  }

  /** What the completion of chain c has in hand. */
  function ChainHand(c: Chain): Numbers {
    if c[0].comp == Aggr then SeqNumbers(c) else multiset{}
  }

  lemma PopInv(strict: bool, s: Sc, t: TidId, q: Ac)
    requires Inv(strict, s, t, multiset{}) && s.hw[q] != []
    ensures var c := s.hw[q][0]; ChainOk(c, q) && Inv(strict, Pop(s, q), c[0].tid, ChainHand(c))
  {
    hide TidInv, ChainOk, QueuedOk, QueueOf, NormalsOk, SeqNumbers;
    var c := s.hw[q][0];
    var v := c[0].tid;
    var s1 := Pop(s, q);
    forall u: TidId ensures UInv(strict, s1, u, HandOf(v, ChainHand(c), u)) {
      assert UInv(strict, s, u, HandOf(t, multiset{}, u));
      if QueueOf(u) == q {
        PopOne(s.tids[u], s.hw[q], u);
      }
      PopHand(s, q, u);
      assert Held(s1, u) + HandOf(v, ChainHand(c), u) == Held(s, u) + HandOf(t, multiset{}, u);
    }
    forall r, i | 0 <= r < WME_NUM_AC && 0 <= i < |s1.hw[r]| ensures ChainOk(s1.hw[r][i], r) {
      if r == q { assert s1.hw[r][i] == s.hw[r][i + 1]; }
    }
  }

  lemma PopHand(s: Sc, q: Ac, u: TidId)
    requires s.hw[q] != [] && ChainOk(s.hw[q][0], q)
    ensures Held(Pop(s, q), u) + HandOf(s.hw[q][0][0].tid, ChainHand(s.hw[q][0]), u) == Held(s, u)
  {
    hide SeqNumbers, QueueOf;
  }

  lemma Look(strict: bool, s: Sc, t: TidId, hand: Numbers)
    requires Inv(strict, s, t, hand)
    ensures TidInv(strict, s.tids[t], Held(s, t) + hand) && QueuedOk(s.tids[t].bufq, t)
    ensures NormalsOk(s.tids[t], s.hw[QueueOf(t)], t)
  {
    hide TidInv, NormalsOk, QueuedOk, InHardware, QueueOf, ChainOk;
    assert UInv(strict, s, t, HandOf(t, hand, t));
  }

  // ---------------------------------------------------------------------------------
  // Scheduling

  lemma EnqueueInv(strict: bool, s: Sc, q: Ac, u: TidId, t: TidId, hand: Numbers)
    requires Inv(strict, s, t, hand)
    ensures Inv(strict, Enqueue(s, q, u), t, hand)
  {
    hide Inv;
    var s1 := SetTid(s, u, s.tids[u].(sched := true));
    FlagsInv(strict, s, t, hand, u, s.tids[u].(sched := true));
    if !s.tids[u].paused && !s.tids[u].sched {
      SameInv(strict, s1, Enqueue(s, q, u), t, hand);
    }
  }

  lemma ChosenInside(s: Sc, t: TidId, limit: nat)
    ensures forall i :: 0 <= i < Chosen(s, t, limit) ==> Aggregate.Inside(s.tids[t].win.seqStart, s.tids[t].bufq[i])
  {
    var tid := s.tids[t];
    hide Aggregate.FormAggr, Aggregate.Inside, Aggregate.Closed, U16;
    if tid.bufq != [] {
      U16Small(limit);
      Aggregate.FormLaid(tid.win.seqStart, tid.bufq, U16(limit), s.k2);
    }
  }

  lemma U16Small(x: nat)
    ensures U16(x) <= Aggregate.AMPDU_LIMIT_MAX
  {}

  lemma PrefixOk(q: seq<Frame>, t: TidId, c: nat)
    requires 0 < c <= |q| && QueuedOk(q, t)
    ensures ChainOk(q[..c], QueueOf(t)) && Mine(q[..c], t) && q[..c][0].tid == t
    ensures QueuedOk(q[c..], t)
  {
    hide QueueOf;
    assert q[0] in q;
  }

  lemma SendPrefixInv(strict: bool, s: Sc, t: TidId, c: nat)
    requires Inv(strict, s, t, multiset{}) && 0 < c <= |s.tids[t].bufq|
    requires forall i :: 0 <= i < c ==> Aggregate.Inside(s.tids[t].win.seqStart, s.tids[t].bufq[i])
    ensures Inv(strict, SendPrefix(s, t, c), t, multiset{})
  {
    hide Inv, TidInv, AddFrames, SeqNumbers, Held, ChainOk, QueuedOk, Mine, Submit, SetTid, QueueOf;
    hide Aggregate.Inside, NormalsOk;
    var tid := s.tids[t];
    var hand := SeqNumbers(tid.bufq[..c]);
    var tid' := tid.(win := AddFrames(tid.win, tid.bufq[..c]), bufq := tid.bufq[c..]);
    Look(strict, s, t, multiset{});
    QueuedMeansAggr(strict, tid, Held(s, t) + multiset{});
    TakeMany(strict, tid, Held(s, t) + multiset{}, c);
    assert Held(s, t) + multiset{} + hand == Held(s, t) + hand;
    PrefixOk(tid.bufq, t, c);
    SetTidInv(strict, s, t, multiset{}, tid', hand);
    SetTidAt(s, t, tid');
    SubmitInv(strict, SetTid(s, t, tid'), t, hand, tid.bufq[..c], multiset{});
  }

  lemma QueuedMeansAggr(strict: bool, tid: Tid, m: Numbers)
    requires TidInv(strict, tid, m) && tid.bufq != []
    ensures tid.aggr && !tid.cleanup
  {
    hide InSession, Represents;
  }

  lemma SetTidAt(s: Sc, t: TidId, tid: Tid)
    ensures SetTid(s, t, tid).tids[t] == tid && SetTid(s, t, tid).hw == s.hw && Held(SetTid(s, t, tid), t) == Held(s, t)
  {}

  lemma SchedTidInv(strict: bool, s: Sc, t: TidId, limit: nat)
    requires Inv(strict, s, t, multiset{})
    ensures Inv(strict, SchedTid(s, t, limit), t, multiset{})
  {
    hide Inv, TidInv, Chosen, SendPrefix, Held, NormalsOk, QueuedOk, Aggregate.Inside;
    Look(strict, s, t, multiset{});
    if s.tids[t].aggr {
      var c := Chosen(s, t, limit);
      ChosenInside(s, t, limit);
      if c > 0 { SendPrefixInv(strict, s, t, c); }
    } else if s.tids[t].bufq != [] {
      QueuedMeansAggr(strict, s.tids[t], Held(s, t) + multiset{});
    }
  }

  lemma DequeueInv(strict: bool, s: Sc, q: Ac, t: TidId, hand: Numbers)
    requires Inv(strict, s, t, hand) && s.tidq[q] != []
    ensures Inv(strict, Dequeue(s, q), t, hand)
  {
    hide Inv;
    var u := s.tidq[q][0];
    FlagsInv(strict, s, t, hand, u, s.tids[u].(sched := false));
    SameInv(strict, SetTid(s, u, s.tids[u].(sched := false)), Dequeue(s, q), t, hand);
  }

  lemma {:induction false} ScheduleInv(strict: bool, s: Sc, q: Ac, limit: nat, t: TidId)
    requires Inv(strict, s, t, multiset{})
    ensures Inv(strict, Schedule(s, q, limit), t, multiset{})
    decreases |s.tidq[q]|
  {
    hide Inv, SchedTid, Enqueue;
    if s.tidq[q] != [] {
      var u := s.tidq[q][0];
      var s1 := Dequeue(s, q);
      DequeueInv(strict, s, q, t, multiset{});
      if s.tids[u].paused {
        ScheduleInv(strict, s1, q, limit, t);
      } else {
        NobodysHand(strict, s1, t, u);
        SchedTidInv(strict, s1, u, limit);
        EnqueueInv(strict, SchedTid(s1, u, limit), q, u, u, multiset{});
        NobodysHand(strict, SchedTid(s1, u, limit), u, t);
        NobodysHand(strict, Enqueue(SchedTid(s1, u, limit), q, u), u, t);
      }
    }
  }

  lemma ResumeInv(strict: bool, s: Sc, t: TidId, limit: nat)
    requires Inv(strict, s, t, multiset{})
    ensures Inv(strict, Resume(s, t, limit), t, multiset{})
  {
    hide Inv, Enqueue, Schedule, QueueOf;
    FlagsInv(strict, s, t, multiset{}, t, s.tids[t].(paused := false));
    var s1 := SetTid(s, t, s.tids[t].(paused := false));
    EnqueueInv(strict, s1, QueueOf(t), t, t, multiset{});
    ScheduleInv(strict, Enqueue(s1, QueueOf(t), t), QueueOf(t), limit, t);
  }
}
