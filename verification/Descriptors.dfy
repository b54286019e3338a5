/**
 The descriptors hardware follows: forming an aggregate links the descriptors of the chosen
 buffers and marks them. Module Unchain takes the chain apart again.
 */
module Descriptors {
  import opened Frames

  /** One transmit descriptor: where the next one is, and the aggregation fields of its control words. */
  class TxDesc {
    var link: TxDesc?
    var isAggr: bool
    var moreAggr: bool
    var aggrLen: nat
    var padDelim: nat

    constructor ()
      ensures link == null && !isAggr && !moreAggr && aggrLen == 0 && padDelim == 0
    {
      link, isAggr, moreAggr, aggrLen, padDelim := null, false, false, 0, 0;
    }

    method SetAggrFirst(len: nat, numDelims: nat)
      modifies this`isAggr, this`moreAggr, this`aggrLen, this`padDelim
      ensures isAggr && moreAggr && aggrLen == len && padDelim == numDelims
    {
      isAggr, moreAggr, aggrLen, padDelim := true, true, len, numDelims;
    }

    method SetAggrMiddle(numDelims: nat)
      modifies this`isAggr, this`moreAggr, this`padDelim
      ensures isAggr && moreAggr && padDelim == numDelims
    {
      isAggr, moreAggr, padDelim := true, true, numDelims;
    }

    method SetAggrLast()
      modifies this`isAggr, this`moreAggr, this`padDelim
      ensures isAggr && !moreAggr && padDelim == 0
    {
      isAggr, moreAggr, padDelim := true, false, 0;
    }

    method ClearAggr()
      modifies this`isAggr, this`moreAggr
      ensures !isAggr && !moreAggr
    {
      isAggr, moreAggr := false, false;
    }
  }

  /** What ath_buf_toggle copies at once (bf_state). */
  datatype BufState = BufState(pktlen: nat, seqno: nat, isretried: bool, keytype: KeyType)

  /** A transmit buffer; every buffer has one descriptor of its own. */
  class TxBuf {
    const id: nat
    const desc: TxDesc
    var skb: nat
    var tidno: TidId
    var retries: nat
    var comp: Comp
    var state: BufState
    var lastds: TxDesc
    var next: TxBuf?
    var isaggr: bool
    var nframes: nat
    var al: nat
    var ndelim: nat

    constructor (id: nat)
      ensures this.id == id && fresh(desc) && lastds == desc && next == null && !isaggr
    {
      var d := new TxDesc();
      this.id, skb, tidno, retries, comp, state := id, 0, 0, 0, Normal, BufState(0, 0, false, Clear);
      desc, lastds, next, isaggr, nframes, al, ndelim := d, d, null, false, 0, 0, 0;
    }
  }

  ghost predicate Distinct(bufs: seq<TxBuf>) {
    && (forall i, j :: 0 <= i < j < |bufs| ==> bufs[i] != bufs[j])
    && (forall i, j :: 0 <= i < j < |bufs| ==> bufs[i].desc != bufs[j].desc)
  }

  ghost function Descs(bufs: seq<TxBuf>): set<TxDesc> {
    set b | b in bufs :: b.desc
  }

  /** A buffer waiting in a queue: its last descriptor is its own. */
  ghost predicate Own(b: TxBuf)
    reads b
  {
    b.lastds == b.desc
  }

  ghost predicate Joined(b: TxBuf, c: TxBuf)
    reads b, b.desc
  {
    b.next == c && b.desc.link == c.desc
  }

  /** The links and the next pointers run through the first n buffers, in order. */
  ghost predicate Linked(bufs: seq<TxBuf>, n: nat)
    reads bufs, Descs(bufs)
    requires n <= |bufs|
  {
    forall i, j :: 0 <= i && j == i + 1 && j < n ==> Joined(bufs[i], bufs[j])
  }

  /** What hardware must find: every subframe marked, all but the last announcing another one. */
  ghost predicate WellFormed(bufs: seq<TxBuf>, al: nat, ndelims: seq<nat>)
    reads bufs, Descs(bufs)
    requires |bufs| == |ndelims| > 1
  {
    var n := |bufs|;
    && Linked(bufs, n)
    && bufs[n - 1].next == null && bufs[n - 1].desc.link == null
    && (forall i :: 0 <= i < n ==> bufs[i].desc.isAggr)
    && (forall i :: 0 <= i < n ==> (bufs[i].desc.moreAggr <==> i < n - 1))
    && (forall i :: 0 <= i < n - 1 ==> bufs[i].desc.padDelim == ndelims[i])
    && bufs[n - 1].desc.padDelim == 0
    && bufs[0].desc.aggrLen == al
    && bufs[0].isaggr && bufs[0].nframes == n && bufs[0].lastds == bufs[n - 1].desc
  }

  /** A subframe marked as one of several, with its padding delimiters. */
  ghost predicate Marked(b: TxBuf, nd: nat)
    reads b, b.desc
  {
    b.desc.isAggr && b.desc.moreAggr && b.desc.padDelim == nd && b.ndelim == nd
  }

  lemma DescOf(bufs: seq<TxBuf>, i: nat)
    requires i < |bufs|
    ensures bufs[i] in bufs && bufs[i].desc in Descs(bufs)
  {}

  method Link(prev: TxBuf, bf: TxBuf)
    requires Own(prev)
    modifies prev`next, prev.desc`link
    ensures Joined(prev, bf)
  {
    prev.next := bf;
    prev.lastds.link := bf.desc;
  }

  method Mark(bf: TxBuf, nd: nat)
    modifies bf`ndelim, bf.desc`isAggr, bf.desc`moreAggr, bf.desc`padDelim
    ensures Marked(bf, nd)
  {
    bf.ndelim := nd;
    bf.desc.SetAggrMiddle(bf.ndelim);
  }

  /** Distinct buffers have a position, and so do their descriptors. */
  ghost predicate Placed(bufs: seq<TxBuf>, pos: map<TxBuf, nat>, dpos: map<TxDesc, nat>) {
    forall k :: 0 <= k < |bufs| ==>
      bufs[k] in pos && pos[bufs[k]] == k && bufs[k].desc in dpos && dpos[bufs[k].desc] == k
  }

  lemma {:induction false} Place(bufs: seq<TxBuf>) returns (pos: map<TxBuf, nat>, dpos: map<TxDesc, nat>)
    requires Distinct(bufs)
    ensures Placed(bufs, pos, dpos)
  {
    if bufs == [] {
      pos, dpos := map[], map[];
    } else {
      var n := |bufs| - 1;
      assert Distinct(bufs[..n]);
      pos, dpos := Place(bufs[..n]);
      forall k | 0 <= k < n ensures bufs[..n][k] == bufs[k] {}
      pos := pos[bufs[n] := n];
      dpos := dpos[bufs[n].desc := n];
    }
  }

  /** One turn of the linking loop: buffer i is marked, and linked from the one before it. */
  method LinkAt(bufs: seq<TxBuf>, nd: nat, i: nat, ghost pos: map<TxBuf, nat>, ghost dpos: map<TxDesc, nat>)
    requires i < |bufs| && Placed(bufs, pos, dpos) && Linked(bufs, i)
    requires forall k :: 0 <= k < |bufs| ==> Own(bufs[k])
    modifies bufs`next, bufs`ndelim, Descs(bufs)
    ensures Linked(bufs, i + 1) && Marked(bufs[i], nd)
    ensures forall k :: 0 <= k < |bufs| ==> Own(bufs[k])
    ensures forall k :: 0 <= k < |bufs| && k != i ==>
      Marked(bufs[k], bufs[k].ndelim) == old(Marked(bufs[k], bufs[k].ndelim)) && bufs[k].ndelim == old(bufs[k].ndelim)
    ensures forall k :: 0 <= k < |bufs| ==> bufs[k].desc.aggrLen == old(bufs[k].desc.aggrLen)
  {
    DescOf(bufs, i);
    if i > 0 {
      DescOf(bufs, i - 1);
      Link(bufs[i - 1], bufs[i]);
    }
    Mark(bufs[i], nd);
  }

  /** The linking loop of ath_tgt_tx_form_aggr over the chosen buffers. */
  method LinkChosen(bufs: seq<TxBuf>, ndelims: seq<nat>)
    requires |bufs| == |ndelims| > 0 && Distinct(bufs)
    requires forall k :: 0 <= k < |bufs| ==> Own(bufs[k])
    modifies bufs`next, bufs`ndelim, Descs(bufs)
    ensures forall k :: 0 <= k < |bufs| ==> Own(bufs[k])
    ensures Linked(bufs, |bufs|)
    ensures forall k :: 0 <= k < |bufs| ==> Marked(bufs[k], ndelims[k])
    ensures forall k :: 0 <= k < |bufs| ==> bufs[k].desc.aggrLen == old(bufs[k].desc.aggrLen)
  {
    ghost var pos, dpos := Place(bufs);
    hide Distinct, Linked;
    LinkedNone(bufs);
    var i := 0;
    while i < |bufs|
      invariant 0 <= i <= |bufs|
      invariant forall k :: 0 <= k < |bufs| ==> Own(bufs[k])
      invariant Linked(bufs, i)
      invariant forall k :: 0 <= k < i ==> Marked(bufs[k], ndelims[k])
      invariant forall k :: 0 <= k < |bufs| ==> bufs[k].desc.aggrLen == old(bufs[k].desc.aggrLen)
    {
      LinkAt(bufs, ndelims[i], i, pos, dpos);
      i := i + 1;
    }
  }

  lemma LinkedNone(bufs: seq<TxBuf>)
    ensures Linked(bufs, 0)
  {}

  /** ath_tgt_tx_sched_aggr, for a single frame: nothing of an aggregate is left on it. */
  method FinishSingle(bf: TxBuf)
    modifies bf`isaggr, bf`lastds, bf`next, bf.desc
    ensures Own(bf) && !bf.isaggr && bf.next == null && bf.desc.link == null
    ensures !bf.desc.isAggr && !bf.desc.moreAggr
  {
    bf.isaggr := false;
    bf.lastds := bf.desc;
    bf.lastds.link := null;
    bf.next := null;
    bf.desc.ClearAggr();
  }

  /** ath_tgt_tx_sched_aggr, for several: the first carries the length and the way to the end, the last ends it. */
  method FinishAggr(bufs: seq<TxBuf>, ndelims: seq<nat>)
    requires |bufs| == |ndelims| > 1 && Distinct(bufs)
    requires forall k :: 0 <= k < |bufs| ==> Own(bufs[k])
    requires Linked(bufs, |bufs|) && bufs[0].nframes == |bufs|
    requires forall k :: 0 <= k < |bufs| ==> Marked(bufs[k], ndelims[k])
    modifies bufs`next, bufs`ndelim, bufs`isaggr, bufs`lastds, Descs(bufs)
    ensures WellFormed(bufs, old(bufs[0].al), ndelims)
    ensures forall i :: 0 < i < |bufs| ==> Own(bufs[i]) && bufs[i].desc.aggrLen == old(bufs[i].desc.aggrLen)
  {
    DescOf(bufs, 0);
    DescOf(bufs, |bufs| - 1);
    var bf, last := bufs[0], bufs[|bufs| - 1];
    last.next := null;
    last.lastds.link := null;
    last.ndelim := 0;
    bf.isaggr := true;
    bf.desc.SetAggrFirst(bf.al, bf.ndelim);
    bf.lastds := last.lastds;
    last.desc.SetAggrLast();
  }

  /** Formation and scheduling together: what is handed to hardware is a well-formed aggregate, or one plain frame. */
  method SubmitChosen(bufs: seq<TxBuf>, ndelims: seq<nat>, al: nat)
    requires |bufs| == |ndelims| > 0 && Distinct(bufs)
    requires forall k :: 0 <= k < |bufs| ==> Own(bufs[k])
    modifies bufs`next, bufs`ndelim, bufs`isaggr, bufs`lastds, bufs`al, bufs`nframes, Descs(bufs)
    ensures |bufs| > 1 ==> WellFormed(bufs, al, ndelims)
    ensures |bufs| == 1 ==> bufs[0].desc.link == null && !bufs[0].desc.isAggr && !bufs[0].isaggr && bufs[0].next == null
  {
    LinkChosen(bufs, ndelims);
    bufs[0].al := al;
    bufs[0].nframes := |bufs|;
    if |bufs| == 1 {
      FinishSingle(bufs[0]);
    } else {
      FinishAggr(bufs, ndelims);
    }
  }

  // ---------------------------------------------------------------------------------
  // Hardware's walk

  /** The descriptors reached from d by following at most fuel links inside a set. */
  ghost function Walk(d: TxDesc?, within: set<TxDesc>, fuel: nat): seq<TxDesc>
    reads within
    decreases fuel
  {
    if d == null || d !in within || fuel == 0 then [] else [d] + Walk(d.link, within, fuel - 1)
  }

  function DescSeq(bufs: seq<TxBuf>): seq<TxDesc> {
    if bufs == [] then [] else [bufs[0].desc] + DescSeq(bufs[1..])
  }

  lemma {:induction false} WalkFrom(bufs: seq<TxBuf>, i: nat, fuel: nat)
    requires i < |bufs| && Linked(bufs, |bufs|) && bufs[|bufs| - 1].desc.link == null
    requires fuel >= |bufs| - i
    ensures Walk(bufs[i].desc, Descs(bufs), fuel) == DescSeq(bufs[i..])
    decreases |bufs| - i
  {
    assert bufs[i..][1..] == bufs[i + 1..];
    assert bufs[i] in bufs;
    if i + 1 < |bufs| { assert Joined(bufs[i], bufs[i + 1]); }
    if i + 1 < |bufs| {
      WalkFrom(bufs, i + 1, fuel - 1);
    } else {
      assert bufs[i + 1..] == [];
    }
  }

  /** Following the links from the first descriptor visits exactly the chosen frames, in order, and then stops. */
  lemma HardwareVisits(bufs: seq<TxBuf>, al: nat, ndelims: seq<nat>, fuel: nat)
    requires |bufs| == |ndelims| > 1 && WellFormed(bufs, al, ndelims) && fuel >= |bufs|
    ensures Walk(bufs[0].desc, Descs(bufs), fuel) == DescSeq(bufs)
    ensures bufs[0].nframes == |bufs|
  {
    assert bufs[0..] == bufs;
    WalkFrom(bufs, 0, fuel);
  }
}
