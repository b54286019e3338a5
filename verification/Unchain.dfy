/**
 An aggregate on its way back: the completion loop over the buffers of a chain, in place. It is proved
 to do what module Softc says of the frames, and to leave every buffer that goes back to a queue, or
 out as a BAR, with a last descriptor of its own.
 */
module Unchain {
  import opened Frames
  import opened Softc
  import opened Descriptors
  import Aggregate
  import W = Window
  import Outcomes

  /** The frame a buffer carries. */
  ghost function View(b: TxBuf): Frame
    reads b
  {
    Frame(b.id, b.skb, b.tidno, b.state.seqno, b.retries, b.state.isretried, b.comp, b.state.pktlen, b.state.keytype)
  }

  /** Ready for hardware on its own: the last descriptor is its own, and nothing of an aggregate is left on it. */
  ghost predicate Independent(b: TxBuf)
    reads b, b.desc
  {
    Own(b) && !b.desc.isAggr && !b.desc.moreAggr
  }

  ghost function Ids(bufs: seq<TxBuf>): seq<nat> {
    seq(|bufs|, i requires 0 <= i < |bufs| => bufs[i].id)
  }

  /** The buffer as a BAR, or none. */
  ghost function BarView(bar: TxBuf?): seq<Frame>
    reads if bar == null then {} else {bar}
  {
    if bar == null then [] else [View(bar)]
  }

  /**
   Where buffer bf went: released, kept for a BAR, kept for a retry, or held, its frame retried in the
   buffer held before.
   */
  ghost predicate Handed(bf: TxBuf, bar: TxBuf?, again: seq<TxBuf>, bar': TxBuf?, held: TxBuf, held': TxBuf,
                         free: seq<TxBuf>, free': seq<TxBuf>) {
    || (again == [] && bar' == bar && held' == bf && free' == free + [held])
    || (again == [] && bar == null && bar' == bf && held' == held && free' == free)
    || (again == [bf] && bar' == bar && held' == held && free' == free)
    || (again == [held] && bar' == bar && held' == bf && free' == free)
  }

  function Opt(b: TxBuf?): seq<TxBuf> {
    if b == null then [] else [b]
  }

  /** All buffers in somebody's hands. */
  ghost function Everywhere(retried: seq<TxBuf>, bar: TxBuf?, held: TxBuf, free: seq<TxBuf>, rest: seq<TxBuf>)
    : multiset<TxBuf>
  {
    multiset(retried) + multiset(Opt(bar)) + multiset{held} + multiset(free) + multiset(rest)
  }

  /** The buffers of a chain, the held one and those in hand so far are different buffers. */
  ghost predicate Apart(retried: seq<TxBuf>, bar: TxBuf?, held: TxBuf, rest: seq<TxBuf>) {
    && held !in rest && held !in retried && held != bar && bar !in rest && bar !in retried
    && (forall i, j :: 0 <= i < j < |rest| ==> rest[i] != rest[j])
    && (forall i :: 0 <= i < |rest| ==> rest[i] !in retried)
    && (forall i, j :: 0 <= i < j < |retried| ==> retried[i] != retried[j])
  }

  /** Different buffers have different descriptors. */
  ghost predicate OwnDescs(all: set<TxBuf>, descs: set<TxDesc>) {
    && (forall b :: b in all ==> b.desc in descs)
    && (forall b, c :: b in all && c in all && b != c ==> b.desc != c.desc)
  }

  /** The buffers in hand carry the frames the accumulator lists, those to be retried independently. */
  ghost predicate InHand(retried: seq<TxBuf>, bar: TxBuf?, a: Acc, all: set<TxBuf>, descs: set<TxDesc>)
    reads all, descs
    requires OwnDescs(all, descs)
  {
    && (forall b :: b in retried ==> b in all) && (bar == null || bar in all)
    && AllIndependent(retried, descs)
    && Carry(retried, a.bfq) && a.bar == BarView(bar)
  }

  ghost predicate AllIndependent(bufs: seq<TxBuf>, descs: set<TxDesc>)
    reads bufs, descs
  {
    forall b :: b in bufs ==> b.desc in descs && Independent(b)
  }

  lemma CarryMore(retried: seq<TxBuf>, q: seq<Frame>, again: seq<TxBuf>, q': seq<Frame>, descs: set<TxDesc>)
    requires Carry(retried, q) && AllIndependent(retried, descs)
    requires again == [] ==> q' == q
    requires again != [] ==>
      |again| == 1 && q' == q + [View(again[0])] && again[0].desc in descs && Independent(again[0])
    ensures Carry(retried + again, q') && AllIndependent(retried + again, descs)
  {}

  lemma HandedIn(bf: TxBuf, bar: TxBuf?, again: seq<TxBuf>, bar': TxBuf?, held: TxBuf, held': TxBuf,
                 free: seq<TxBuf>, free': seq<TxBuf>, all: set<TxBuf>)
    requires Handed(bf, bar, again, bar', held, held', free, free')
    requires bf in all && held in all && (bar == null || bar in all)
    ensures held' in all && (bar' == null || bar' in all) && forall b :: b in again ==> b in all
  {}

  lemma HandedApart(bf: TxBuf, bar: TxBuf?, again: seq<TxBuf>, bar': TxBuf?, held: TxBuf, held': TxBuf,
                    free: seq<TxBuf>, free': seq<TxBuf>, retried: seq<TxBuf>, rest: seq<TxBuf>)
    requires Handed(bf, bar, again, bar', held, held', free, free')
    requires rest != [] && rest[0] == bf && Apart(retried, bar, held, rest)
    ensures Apart(retried + again, bar', held', rest[1..])
  {
    var tail := rest[1..];
    forall i | 0 <= i < |tail| ensures tail[i] == rest[i + 1] {}
    assert bf !in tail && held !in tail && bf !in retried && held !in retried;
  }

  lemma HandedCount(bf: TxBuf, bar: TxBuf?, again: seq<TxBuf>, bar': TxBuf?, held: TxBuf, held': TxBuf,
                    free: seq<TxBuf>, free': seq<TxBuf>, retried: seq<TxBuf>, rest: seq<TxBuf>)
    requires Handed(bf, bar, again, bar', held, held', free, free') && rest != [] && rest[0] == bf
    ensures Everywhere(retried + again, bar', held', free', rest[1..]) == Everywhere(retried, bar, held, free, rest)
  {
    assert rest == [bf] + rest[1..];
  }

  /** The next pointers run through the chain to its end. */
  ghost predicate Chained(bufs: seq<TxBuf>)
    reads bufs
  {
    && (bufs != [] ==> bufs[|bufs| - 1].next == null)
    && (forall k, j :: 0 <= k && j == k + 1 && j < |bufs| ==> bufs[k].next == bufs[j])
  }

  lemma Rest(bufs: seq<TxBuf>, c: seq<Frame>)
    requires bufs != [] && Chained(bufs) && Carry(bufs, c)
    ensures bufs[0].next == if |bufs| == 1 then null else bufs[1]
    ensures |c| == |bufs| && View(bufs[0]) == c[0] && bufs[0].state.seqno == c[0].seqno
    ensures Chained(bufs[1..]) && Carry(bufs[1..], c[1..])
  {}

  lemma ApartRest(retried: seq<TxBuf>, bar: TxBuf?, held: TxBuf, rest: seq<TxBuf>)
    requires rest != [] && Apart(retried, bar, held, rest)
    ensures rest[0] != held && rest[0] != bar && rest[0] !in retried && rest[0] !in rest[1..]
    ensures held !in retried && held !in rest[1..] && held != bar
  {}

  /** The buffers carry the frames. */
  ghost predicate Carry(bufs: seq<TxBuf>, c: seq<Frame>)
    reads bufs
  {
    |bufs| == |c| && forall k :: 0 <= k < |bufs| ==> View(bufs[k]) == c[k]
  }

  /** The buffers of the driver that are in no queue, and the frames handed back to the host. */
  class TxPool {
    var held: TxBuf
    var free: seq<TxBuf>
    var done: seq<nat>

    constructor (held: TxBuf, free: seq<TxBuf>)
      ensures this.held == held && this.free == free && done == []
    {
      this.held, this.free, done := held, free, [];
    }

    /** State s says what this pool and the window of identifier t hold. */
    ghost predicate Matches(s: Sc, t: TidId, win: W.BlockAckWindow)
      reads this, win, win.bitmap
    {
      win.Valid() && s.tids[t].win == win.Abs() && s.held == held.id && s.free == Ids(free) && s.done == done
    }

    /** ath_tx_freebuf */
    method FreeBuf(bf: TxBuf)
      requires bf != held
      modifies this, bf, bf.desc`isAggr, bf.desc`moreAggr, held`retries, held`state
      ensures held == bf && free == old(free) + [old(held)] && done == old(done) + [old(bf.skb)]
    {
      bf.desc.ClearAggr();
      done := done + [bf.skb];
      bf.next := null;
      var tmp := held;
      held := bf;
      tmp.retries := 0;
      tmp.state := tmp.state.(isretried := false);
      free := free + [tmp];
    }

    /** ath_buf_toggle with retry: the frame moves to the held buffer, whose descriptor is set up anew. */
    method Toggle(bf: TxBuf) returns (tmp: TxBuf)
      requires bf != held && bf.desc != held.desc
      modifies this`held, bf, held, held.desc
      ensures tmp == old(held) && held == bf && Independent(tmp) && tmp.desc.link == null
      ensures View(tmp) == old(View(bf)).(buf := tmp.id)
    {
      tmp := held;
      tmp.skb, tmp.tidno, tmp.retries, tmp.comp, tmp.state := bf.skb, bf.tidno, bf.retries, bf.comp, bf.state;
      tmp.next, tmp.isaggr, tmp.nframes := bf.next, bf.isaggr, bf.nframes;
      bf.isaggr, bf.next, bf.retries, bf.nframes := false, null, 0, 0;
      tmp.desc.ClearAggr();
      tmp.desc.link := null;
      tmp.lastds := tmp.desc;
      held := bf;
    }

    /**
     ath_tx_retry_subframe: given up, the buffer is the BAR or goes back to the pool; else it is returned for
     another try, its frame in the held buffer if it ends the chain.
     */
    method RetrySubframe(bf: TxBuf, bar: TxBuf?, t: TidId, win: W.BlockAckWindow, ghost a: Acc)
      returns (again: seq<TxBuf>, bar': TxBuf?)
      requires bf != held && bf.desc != held.desc && bar != bf && bar != held
      requires Matches(a.s, t, win) && a.bar == BarView(bar)
      modifies this, win, win.bitmap, bf, bf.desc, held, held.desc
      ensures var r := Softc.RetrySubframe(a, t, old(View(bf)), old(bf.next) == null);
        && Matches(r.s, t, win) && r.bar == BarView(bar')
        && (again == [] ==> r.bfq == a.bfq)
        && (again != [] ==> |again| == 1 && r.bfq == a.bfq + [View(again[0])] && Independent(again[0]))
      ensures Handed(bf, bar, again, bar', old(held), held, old(free), free)
    {
      hide W.Resolve;
      bf.desc.ClearAggr();
      again, bar' := [], bar;
      if bf.retries >= OWLMAX_RETRIES {
        win.Update(bf.state.seqno);
        if bar == null {
          bar' := bf;
        } else {
          FreeBuf(bf);
        }
        return;
      }
      var g := bf;
      if bf.next == null {
        g := Toggle(bf);
      } else {
        bf.lastds := bf.desc;
      }
      g.state := g.state.(isretried := true);
      g.retries := g.retries + 1;
      again := [g];
    }

    /** One turn of the completion loop: the subframe is acknowledged, or handed to ath_tx_retry_subframe. */
    method CompSubframe(bf: TxBuf, bar: TxBuf?, t: TidId, win: W.BlockAckWindow, st: TxStat, useBa: bool, ghost a: Acc)
      returns (again: seq<TxBuf>, bar': TxBuf?, bad: bool)
      requires bf != held && bf.desc != held.desc && bar != bf && bar != held
      requires Matches(a.s, t, win) && a.bar == BarView(bar)
      modifies this, win, win.bitmap, bf, bf.desc, held, held.desc
      ensures var acked := useBa && Acked(st, old(bf.state.seqno));
        var r := Softc.CompSubframe(a, t, old(View(bf)), old(bf.next) == null, acked);
        && Matches(r.s, t, win) && r.bar == BarView(bar') && bad == !acked
        && r.nbad == a.nbad + (if bad then 1 else 0)
        && (again == [] ==> r.bfq == a.bfq)
        && (again != [] ==> |again| == 1 && r.bfq == a.bfq + [View(again[0])] && Independent(again[0]))
      ensures Handed(bf, bar, again, bar', old(held), held, old(free), free)
    {
      hide W.Resolve, Acked;
      if useBa && Acked(st, bf.state.seqno) {
        win.Update(bf.state.seqno);
        FreeBuf(bf);
        again, bar', bad := [], bar, false;
      } else {
        again, bar' := RetrySubframe(bf, bar, t, win, a);
        bad := true;
      }
    }

    /** One turn with the rest of the chain in view: whatever else is in hand stays as it is. */
    method TakeOne(ghost rest: seq<TxBuf>, ghost c: seq<Frame>, bf: TxBuf, retried: seq<TxBuf>, bar: TxBuf?, t: TidId,
                   win: W.BlockAckWindow, st: TxStat, useBa: bool, ghost a: Acc, ghost all: set<TxBuf>,
                   ghost descs: set<TxDesc>)
      returns (retried': seq<TxBuf>, bar': TxBuf?, bad: bool, ghost r: Acc)
      requires rest != [] && bf == rest[0] && Chained(rest) && Carry(rest, c) && Matches(a.s, t, win)
      requires OwnDescs(all, descs) && InHand(retried, bar, a, all, descs) && Apart(retried, bar, held, rest)
      requires held in all && forall b :: b in rest ==> b in all
      modifies this, win, win.bitmap, all, descs
      ensures r == Softc.CompSubframe(a, t, c[0], |c| == 1, useBa && Acked(st, c[0].seqno))
      ensures Chained(rest[1..]) && Carry(rest[1..], c[1..]) && Matches(r.s, t, win)
      ensures InHand(retried', bar', r, all, descs) && Apart(retried', bar', held, rest[1..]) && held in all
      ensures r.nbad == a.nbad + if bad then 1 else 0
      ensures Everywhere(retried', bar', held, free, rest[1..]) == Everywhere(retried, bar, old(held), old(free), rest)
    {
      hide Acked, Softc.CompSubframe, Everywhere, Handed, Apart, Matches;
      Rest(rest, c);
      ApartRest(retried, bar, held, rest);
      r := Softc.CompSubframe(a, t, c[0], |c| == 1, useBa && Acked(st, c[0].seqno));
      var again;
      again, bar', bad := CompSubframe(bf, bar, t, win, st, useBa, a);
      HandedIn(bf, bar, again, bar', old(held), held, old(free), free, all);
      HandedApart(bf, bar, again, bar', old(held), held, old(free), free, retried, rest);
      HandedCount(bf, bar, again, bar', old(held), held, old(free), free, retried, rest);
      forall k | 0 <= k < |retried| ensures View(retried[k]) == a.bfq[k] && Independent(retried[k]) {
        assert retried[k] in retried && old(Independent(retried[k]));
      }
      ghost var tail := rest[1..];
      forall k | 0 <= k < |tail| ensures View(tail[k]) == c[1..][k] && tail[k].next == old(tail[k].next) {
        assert tail[k] in rest[1..] && tail[k] in all;
      }
      CarryMore(retried, a.bfq, again, r.bfq, descs);
      retried' := retried + again;
    }

    /**
     The loop of ath_tgt_tx_comp_aggr and ath_tx_comp_aggr_error over the buffers of a chain. The frames come
     out as module Softc says, those to be retried in independent buffers; no buffer is lost or doubled.
     */
    method CompFrames(ghost bufs: seq<TxBuf>, ghost c: seq<Frame>, first: TxBuf, t: TidId, win: W.BlockAckWindow,
                      st: TxStat, useBa: bool, ghost s: Sc, ghost all: set<TxBuf>, ghost descs: set<TxDesc>)
      returns (retried: seq<TxBuf>, bar: TxBuf?, nbad: nat, ghost r: Acc)
      requires bufs != [] && first == bufs[0] && Chained(bufs) && Carry(bufs, c) && Matches(s, t, win)
      requires Apart([], null, held, bufs) && OwnDescs(all, descs) && held in all && forall b :: b in bufs ==> b in all
      modifies this, win, win.bitmap, all, descs
      ensures r == Softc.CompFrames(Acc(s, [], [], 0), t, c, st, useBa) && Matches(r.s, t, win)
      ensures nbad == r.nbad
      ensures InHand(retried, bar, r, all, descs) && Apart(retried, bar, held, []) && held in all
      ensures Everywhere(retried, bar, held, free, []) == Everywhere([], null, old(held), old(free), bufs)
    {
      hide Apart, Everywhere, Acked, Softc.CompSubframe;
      var bf: TxBuf? := first;
      retried, bar, nbad := [], null, 0;
      r := Acc(s, [], [], 0);
      ghost var rest, cs := bufs, c;
      while bf != null
        invariant bf == (if rest == [] then null else rest[0]) && |rest| == |cs|
        invariant Chained(rest) && Carry(rest, cs) && Matches(r.s, t, win) && forall b :: b in rest ==> b in all
        invariant InHand(retried, bar, r, all, descs) && Apart(retried, bar, held, rest)
        invariant held in all && nbad == r.nbad
        invariant Softc.CompFrames(r, t, cs, st, useBa) == Softc.CompFrames(Acc(s, [], [], 0), t, c, st, useBa)
        invariant Everywhere(retried, bar, held, free, rest) == Everywhere([], null, old(held), old(free), bufs)
        decreases |rest|
      {
        var next := bf.next;
        Rest(rest, cs);
        var bad;
        retried, bar, bad, r := TakeOne(rest, cs, bf, retried, bar, t, win, st, useBa, r, all, descs);
        nbad := nbad + if bad then 1 else 0;
        rest, cs := rest[1..], cs[1..];
        bf := next;
      }
    }

    /** What ath_bar_tx does to the buffer: it is set up anew, as a frame of its own. */
    method BarTx(bar: TxBuf, t: TidId, win: W.BlockAckWindow)
      modifies bar, bar.desc
      ensures Independent(bar) && bar.next == null && !bar.isaggr && bar.desc.link == null
      ensures View(bar) == old(View(bar)).(comp := Bar, seqno := win.seqStart, tid := t)
    {
      bar.state := bar.state.(seqno := win.seqStart);
      bar.comp := Bar;
      bar.tidno := t;
      bar.isaggr := false;
      bar.next := null;
      bar.desc.ClearAggr();
      bar.desc.link := null;
      bar.lastds := bar.desc;
    }

    /**
     A chain comes back, each subframe delivered, retried or given up as its status decides. Exactly the frames
     to be retried are returned, in chain order, and the first one given up is the BAR; each of them
     is in an independent buffer, whichever buffer of the chain is by then the held one that the last
     frame moves to. Everything else goes back to the host, and no buffer is lost or doubled.
     */
    method CompAggr(ghost bufs: seq<TxBuf>, ghost c: Chain, first: TxBuf, t: TidId, win: W.BlockAckWindow, st: TxStat,
                    ghost s: Sc, ghost all: set<TxBuf>, ghost descs: set<TxDesc>)
      returns (retried: seq<TxBuf>, bar: TxBuf?, nbad: nat, ghost r: Acc)
      requires bufs != [] && first == bufs[0] && Chained(bufs) && Carry(bufs, c) && Matches(s, t, win)
      requires Apart([], null, held, bufs) && OwnDescs(all, descs) && held in all && forall b :: b in bufs ==> b in all
      modifies this, win, win.bitmap, all, descs
      ensures r == Softc.CompFrames(Acc(s, [], [], 0), t, c, st, UseBa(st)) && Matches(r.s, t, win)
      ensures Carry(retried, r.bfq) && Outcomes.RetriesOf(Outcomes.Select(c, st, Outcomes.Retry), r.bfq)
      ensures AllIndependent(retried, descs)
      ensures var gave := Outcomes.Select(c, st, Outcomes.GivenUp);
        if gave == [] then bar == null
        else bar != null && Independent(bar) && bar.desc.link == null
             && View(bar) == gave[0].(comp := Bar, seqno := win.seqStart, tid := t)
      ensures done == old(done) + Outcomes.Released(c, st, false)
      ensures nbad == |c| - |Outcomes.Select(c, st, Outcomes.Delivered)|
      ensures Apart(retried, bar, held, []) && forall b :: b in retried ==> b in all
      ensures Everywhere(retried, bar, held, free, []) == Everywhere([], null, old(held), old(free), bufs)
    {
      retried, bar, nbad, r := CompFrames(bufs, c, first, t, win, st, UseBa(st), s, all, descs);
      Fated(s, t, c, st, r);
      if bar != null {
        BarTx(bar, t, win);
      }
    }
  }

  lemma Fated(s: Sc, t: TidId, c: Chain, st: TxStat, a: Acc)
    requires a == Softc.CompFrames(Acc(s, [], [], 0), t, c, st, UseBa(st))
    ensures Outcomes.RetriesOf(Outcomes.Select(c, st, Outcomes.Retry), a.bfq)
    ensures var gave := Outcomes.Select(c, st, Outcomes.GivenUp);
      a.bar == if gave == [] then [] else [gave[0]]
    ensures a.s.done == s.done + Outcomes.Released(c, st, false)
    ensures a.nbad == |c| - |Outcomes.Select(c, st, Outcomes.Delivered)|
  {
    hide Outcomes.TakenApart, Outcomes.Released, Outcomes.Select, Outcomes.RetriesOf, Softc.CompFrames;
    Outcomes.CompFramesPartition(Acc(s, [], [], 0), t, c, st);
    Outcomes.TakenApartAll(s, t, c, st, a);
  }

  /**
   Formation and sending, on the buffers of a queue that carry the frames q: those whose frames formation
   chooses are handed to hardware with its length and the delimiters of each. Sending changes no frame, so
   several are a chain of exactly the frames chosen, as CompAggr takes it apart.
   */
  method Send(queue: seq<TxBuf>, ghost q: seq<Frame>, ghost seqStart: nat, ghost limit: nat, ghost k2: bool,
              form: Aggregate.Form, ndelims: seq<nat>)
    requires q != [] && Carry(queue, q) && form == Aggregate.FormAggr(seqStart, q, limit, k2)
    requires limit <= Aggregate.AMPDU_LIMIT_MAX && 0 < form.count == |ndelims| <= |q|
    requires forall i :: 0 <= i < form.count ==> ndelims[i] == Aggregate.Ndelim(q[i])
    requires Distinct(queue[..form.count]) && forall k :: 0 <= k < form.count ==> Own(queue[k])
    modifies queue[..form.count], Descs(queue[..form.count])
    ensures Carry(queue, q)
    ensures form.count > 1 ==> var bufs := queue[..form.count];
      && WellFormed(bufs, form.al, ndelims) && Chained(bufs) && Carry(bufs, q[..form.count])
      && (Aggregate.Sized(q) ==>
            form.al == Aggregate.End(q, form.count - 1)
            && forall i :: 0 <= i < form.count ==>
                 Aggregate.RoundedOctets(q[i]) + 4 * ndelims[i] == Aggregate.FollowedOctets(q[i]))
  {
    hide Aggregate.FormAggr, Aggregate.End, Aggregate.CannotJoin, Aggregate.Ndelim, Aggregate.Sized;
    hide Aggregate.RoundedOctets, Aggregate.FollowedOctets;
    if Aggregate.Sized(q) {
      Aggregate.AggregateLayout(seqStart, q, limit, k2);
      forall i | 0 <= i < form.count
        ensures Aggregate.RoundedOctets(q[i]) + 4 * ndelims[i] == Aggregate.FollowedOctets(q[i])
      {
        Aggregate.SizedAt(q, i);
        Aggregate.DelimitersFill(q[i]);
      }
    }
    var bufs := queue[..form.count];
    SubmitChosen(bufs, ndelims, form.al);
    assert Carry(queue, q);
    if form.count > 1 { SentIsChained(bufs, form.al, ndelims); }
  }

  /** An aggregate as module Descriptors sends it is a chain that can be taken apart. */
  lemma SentIsChained(bufs: seq<TxBuf>, al: nat, ndelims: seq<nat>)
    requires |bufs| == |ndelims| > 1 && WellFormed(bufs, al, ndelims)
    ensures Chained(bufs)
  {
    forall k, j | 0 <= k && j == k + 1 && j < |bufs| ensures bufs[k].next == bufs[j] {
      assert Joined(bufs[k], bufs[j]);
    }
  }

  /** And what comes out of the loop is ready to be sent again. */
  lemma RetriedCanBeSent(retried: seq<TxBuf>, bar: TxBuf?, held: TxBuf, all: set<TxBuf>, descs: set<TxDesc>)
    requires Apart(retried, bar, held, []) && AllIndependent(retried, descs) && OwnDescs(all, descs)
    requires forall b :: b in retried ==> b in all
    ensures Distinct(retried) && forall k :: 0 <= k < |retried| ==> Own(retried[k])
  {
    forall i, j | 0 <= i < j < |retried| ensures retried[i].desc != retried[j].desc {
      assert retried[i] in all && retried[j] in all;
    }
  }
}
