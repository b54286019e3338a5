/**
 The receive descriptor ring. Hardware follows the links between descriptors; software keeps them
 in a list that also holds, at its end, one descriptor not linked yet. Descriptors are numbered
 from 1 and buffers are positive numbers; 0 is the null link and the absent buffer.
 */
module RxRing {

  type Buf = b: nat | b > 0 witness 1

  // ---------------------------------------------------------------------------------
  // The lists and the links

  ghost predicate Distinct(s: seq<nat>) {
    forall i, j :: 0 <= i < j < |s| ==> s[i] != s[j]
  }

  /** s lists every descriptor from 1 to n, once. */
  ghost predicate ListsAll(n: nat, s: seq<nat>) {
    Distinct(s) && forall d :: d in s <==> 1 <= d <= n
  }

  /** Moving the first element to position k - 1 leaves a list of the same descriptors. */
  lemma MoveFirst(n: nat, s: seq<nat>, k: nat)
    requires 0 < k <= |s| && ListsAll(n, s)
    ensures ListsAll(n, s[1..k] + [s[0]] + s[k..])
  {
    var r := s[1..k] + [s[0]] + s[k..];
    forall d
      ensures d in r <==> d in s
    {
      if d in s {
        var i :| 0 <= i < |s| && s[i] == d;
        assert r[if i == 0 then k - 1 else if i < k then i - 1 else i] == d;
      }
    }
  }

  /** Every descriptor is on exactly one of the two lists, and there once. */
  lemma ConcatParts(ring: seq<nat>, idle: seq<nat>)
    requires 0 < |ring|
    ensures var all := ring + idle;
      && ring[1..] + [ring[0]] + idle == all[1..|ring|] + [all[0]] + all[|ring|..]
      && ring[1..] + (idle + [ring[0]]) == all[1..|all|] + [all[0]] + all[|all|..]
  {}

  lemma OnOneList(n: nat, ring: seq<nat>, idle: seq<nat>)
    requires ListsAll(n, ring + idle)
    ensures Distinct(ring) && Distinct(idle)
    ensures forall d :: d in ring ==> 1 <= d <= n && d !in idle
    ensures forall d :: d in idle ==> 1 <= d <= n
    ensures forall d :: 1 <= d <= n ==> d in ring || d in idle
  {
    var all := ring + idle;
    assert forall i :: 0 <= i < |ring| ==> all[i] == ring[i];
    assert forall i :: 0 <= i < |idle| ==> all[|ring| + i] == idle[i];
    forall d
      ensures d in ring || d in idle <==> d in all
    {}
    forall i | 0 <= i < |ring|
      ensures ring[i] !in idle
    {
      assert ring[i] == all[i];
    }
  }

  /** The links run through all of the ring but its last element, which is held; the last link is null. */
  ghost predicate Mirrors(ring: seq<nat>, link: seq<nat>, rxlink: nat, held: nat) {
    var n := |ring|;
    && n >= 2 && rxlink == ring[n - 2] && held == ring[n - 1]
    && forall i :: 0 <= i < n - 1 ==> ring[i] < |link| && link[ring[i]] == if i < n - 2 then ring[i + 1] else 0
  }

  /** The descriptors hardware meets, starting at d. */
  function Walk(link: seq<nat>, d: nat, fuel: nat): seq<nat>
    decreases fuel
  {
    if d == 0 || d >= |link| || fuel == 0 then [] else [d] + Walk(link, link[d], fuel - 1)
  }

  /** Following the links from ring position i meets the rest of the ring in order, all but the held one, and stops. */
  lemma {:induction false} WalkMirrors(ring: seq<nat>, link: seq<nat>, rxlink: nat, held: nat, i: nat, fuel: nat)
    requires Mirrors(ring, link, rxlink, held) && 0 !in ring
    requires i < |ring| - 1 && fuel >= |ring|
    ensures Walk(link, ring[i], fuel - i) == ring[i..|ring| - 1]
    decreases |ring| - i
  {
    assert ring[i] in ring;
    if i < |ring| - 2 {
      WalkMirrors(ring, link, rxlink, held, i + 1, fuel);
      assert ring[i..|ring| - 1] == [ring[i]] + ring[i + 1..|ring| - 1];
    }
  }

  // ---------------------------------------------------------------------------------
  // Frames

  /** What one look at a completed descriptor yields: its buffer and whether the frame goes on. */
  datatype Read = Read(buf: nat, more: bool)

  function Bufs(rs: seq<Read>): seq<nat> {
    seq(|rs|, i requires 0 <= i < |rs| => rs[i].buf)
  }

  function Flat(gs: seq<seq<Read>>): seq<Read> {
    if gs == [] then [] else Flat(gs[..|gs| - 1]) + gs[|gs| - 1]
  }

  lemma FlatSnoc(gs: seq<seq<Read>>, g: seq<Read>)
    ensures Flat(gs + [g]) == Flat(gs) + g
  {
    assert (gs + [g])[..|gs|] == gs;
  }

  /** A whole frame: every part but the last says that more follows. */
  predicate Whole(g: seq<Read>) {
    g != [] && !g[|g| - 1].more && forall i :: 0 <= i < |g| - 1 ==> g[i].more
  }

  predicate Unfinished(g: seq<Read>) {
    forall i :: 0 <= i < |g| ==> g[i].more
  }

  /** The parts, in order and without loss, make up whole frames and one unfinished one. */
  ghost predicate IsCut(rs: seq<Read>, gs: seq<seq<Read>>, rest: seq<Read>) {
    Flat(gs) + rest == rs && Unfinished(rest) && forall i :: 0 <= i < |gs| ==> Whole(gs[i])
  }

  /** The frames as the scan forms them, part by part. */
  function Cut(rs: seq<Read>): (seq<seq<Read>>, seq<Read>) {
    if rs == [] then ([], [])
    else
      var r := rs[|rs| - 1];
      var (gs, rest) := Cut(rs[..|rs| - 1]);
      if r.more then (gs, rest + [r]) else (gs + [rest + [r]], [])
  }

  lemma {:induction false} CutIsCut(rs: seq<Read>)
    ensures IsCut(rs, Cut(rs).0, Cut(rs).1)
  {
    if rs != [] {
      var n := |rs| - 1;
      CutIsCut(rs[..n]);
      var (gs, rest) := Cut(rs[..n]);
      assert rs == rs[..n] + [rs[n]];
      FlatSnoc(gs, rest + [rs[n]]);
      hide Flat;
      assert Flat(gs) + (rest + [rs[n]]) == rs;
    }
  }

  /** The frames are determined by the parts: no other way of cutting them is a cut. */
  lemma {:induction false} CutUnique(rs: seq<Read>, gs: seq<seq<Read>>, rest: seq<Read>)
    requires IsCut(rs, gs, rest)
    ensures Cut(rs) == (gs, rest)
    decreases |rs|
  {
    var n := |rs| - 1;
    if rest != [] {
      assert rs[n] == rest[|rest| - 1];
      CutUnique(rs[..n], gs, rest[..|rest| - 1]);
      assert rest == rest[..|rest| - 1] + [rs[n]];
    } else if gs != [] {
      var hs, g := gs[..|gs| - 1], gs[|gs| - 1];
      assert rs == Flat(hs) + g;
      assert rs[n] == g[|g| - 1];
      CutUnique(rs[..n], hs, g[..|g| - 1]);
      assert g == g[..|g| - 1] + [rs[n]] && gs == hs + [g];
    }
  }

  // ---------------------------------------------------------------------------------
  // The buffers

  /** The buffers posted to hardware so far are those handed up, then those of the linked descriptors. */
  ghost predicate Posted(posted: seq<nat>, out: seq<nat>, ring: seq<nat>, nbuf: seq<nat>) {
    && |ring| >= 1 && |posted| == |out| + |ring| - 1 && out <= posted
    && forall i :: 0 <= i < |ring| - 1 ==> ring[i] < |nbuf| && nbuf[ring[i]] == posted[|out| + i]
  }

  /** Relinking: the held descriptor joins the chain and the first of the ring is held at its end. */
  lemma RotateMirrors(ring: seq<nat>, link: seq<nat>, rxlink: nat, held: nat)
    requires Mirrors(ring, link, rxlink, held) && |ring| >= 3 && Distinct(ring) && held < |link|
    ensures Mirrors(ring[1..] + [ring[0]], link[held := 0][rxlink := held], held, ring[0])
  {}

  lemma RotatePosted(posted: seq<nat>, out: seq<nat>, ring: seq<nat>, nbuf: seq<nat>, b: nat)
    requires Posted(posted, out, ring, nbuf) && |ring| >= 3 && Distinct(ring) && ring[|ring| - 1] < |nbuf|
    ensures Posted(posted + [b], out + [nbuf[ring[0]]], ring[1..] + [ring[0]],
                   nbuf[ring[0] := 0][ring[|ring| - 1] := b])
  {}

  lemma ShrinkPosted(posted: seq<nat>, out: seq<nat>, ring: seq<nat>, nbuf: seq<nat>)
    requires Posted(posted, out, ring, nbuf) && |ring| >= 3 && Distinct(ring)
    ensures Posted(posted, out + [nbuf[ring[0]]], ring[1..], nbuf[ring[0] := 0])
  {}

  lemma ShrinkMirrors(ring: seq<nat>, link: seq<nat>, rxlink: nat, held: nat)
    requires Mirrors(ring, link, rxlink, held) && |ring| >= 3
    ensures Mirrors(ring[1..], link, rxlink, held)
  {}

  /** The ring, with every buffer ever linked, how many the layers above have, and those no list holds any more. */
  datatype View = View(n: nat, total: nat, ring: seq<nat>, idle: seq<nat>, held: nat, rxlink: nat,
                       link: seq<nat>, nbuf: seq<nat>, pool: seq<nat>, posted: seq<nat>, up: nat, lost: seq<nat>)

  /** Descriptors not linked have no buffer, and none is idle while the pool has one. */
  ghost predicate Vacant(v: View) {
    && v.held < |v.nbuf| && v.nbuf[v.held] == 0
    && (forall d :: d in v.idle ==> d < |v.nbuf| && v.nbuf[d] == 0)
    && (v.idle != [] ==> v.pool == [])
    && 0 !in v.pool
  }

  /** Every buffer is in the pool, linked, above, or lost. */
  ghost predicate Balanced(v: View) {
    |v.pool| + |v.ring| - 1 + v.up + |v.lost| == v.total && |v.idle| <= v.up && |v.ring| + |v.idle| == v.n
  }

  /** The ring invariant, when the buffers in out have left the ring. */
  ghost predicate Mirror(v: View, out: seq<nat>) {
    && |v.link| == |v.nbuf| == v.n + 1
    && ListsAll(v.n, v.ring + v.idle)
    && Mirrors(v.ring, v.link, v.rxlink, v.held)
    && Posted(v.posted, out, v.ring, v.nbuf)
    && Vacant(v)
    && Balanced(v)
  }

  lemma Bounds(v: View, out: seq<nat>)
    requires Mirror(v, out)
    ensures |v.ring| >= 2 && Distinct(v.ring)
    ensures 1 <= v.rxlink <= v.n && 1 <= v.held <= v.n && v.rxlink != v.held && v.held !in v.idle
    ensures 1 <= v.ring[0] <= v.n && v.ring[0] !in v.idle && v.ring[0] != v.held
    ensures v.held == v.ring[|v.ring| - 1]
    ensures forall d :: d in v.idle ==> 1 <= d <= v.n
  {
    OnOneList(v.n, v.ring, v.idle);
    assert v.ring[0] in v.ring && v.rxlink in v.ring && v.held in v.ring;
  }

  predicate InRange(v: View, ds: nat) {
    0 < ds < |v.link| == |v.nbuf| && v.held < |v.nbuf| && v.rxlink < |v.link|
  }

  /** The held descriptor gets a buffer if it has none, as long as there is one. */
  function Fill(v: View): (View, bool)
    requires v.held < |v.nbuf|
  {
    if v.nbuf[v.held] != 0 then (v, true)
    else if v.pool == [] then (v, false)
    else (v.(nbuf := v.nbuf[v.held := v.pool[0]], pool := v.pool[1..]), true)
  }

  /** The held descriptor joins the chain. */
  function Join(v: View): View
    requires v.held < |v.link| && v.held < |v.nbuf| && v.rxlink < |v.link|
  {
    var cut := v.link[v.held := 0];
    v.(link := if v.rxlink == 0 then cut else cut[v.rxlink := v.held],
       rxlink := v.held, posted := v.posted + [v.nbuf[v.held]])
  }

  /** ath_rxdesc_init: hold ds back and link the descriptor held so far. Without a buffer for it nothing changes. */
  function Init(v: View, ds: nat): (View, bool)
    requires InRange(v, ds)
  {
    if v.held == 0 then (v.(held := ds), true)
    else
      var (u, ok) := Fill(v);
      if ok then (Join(u).(held := ds), true) else (v, false)
  }

  /** The first descriptor gives up its buffer and goes to the end of the ring, or becomes idle. */
  function TakeFirst(v: View): View
    requires v.ring != [] && InRange(v, v.ring[0])
  {
    var d := v.ring[0];
    var (u, ok) := Init(v.(nbuf := v.nbuf[d := 0], up := v.up + 1), d);
    if ok then u.(ring := v.ring[1..] + [d]) else u.(ring := v.ring[1..], idle := v.idle + [d])
  }

  lemma TakeFirstRotates(v: View, out: seq<nat>)
    requires Mirror(v, out) && |v.ring| >= 3 && v.pool != []
    ensures InRange(v, v.ring[0])
    ensures var u := TakeFirst(v);
      && Mirror(u, out + [v.nbuf[v.ring[0]]]) && v.posted <= u.posted
      && u.ring == v.ring[1..] + [v.ring[0]] && u.idle == v.idle
  {
    hide Posted, Mirrors, ListsAll, Distinct;
    Bounds(v, out);
    ConcatParts(v.ring, v.idle);
    MoveFirst(v.n, v.ring + v.idle, |v.ring|);
    RotateMirrors(v.ring, v.link, v.rxlink, v.held);
    RotatePosted(v.posted, out, v.ring, v.nbuf, v.pool[0]);
  }

  lemma TakeFirstShrinks(v: View, out: seq<nat>)
    requires Mirror(v, out) && |v.ring| >= 3 && v.pool == []
    ensures InRange(v, v.ring[0])
    ensures var u := TakeFirst(v);
      && Mirror(u, out + [v.nbuf[v.ring[0]]]) && v.posted <= u.posted
      && u.ring == v.ring[1..] && u.idle == v.idle + [v.ring[0]]
  {
    hide Posted, Mirrors, ListsAll, Distinct;
    Bounds(v, out);
    ConcatParts(v.ring, v.idle);
    MoveFirst(v.n, v.ring + v.idle, |v.ring + v.idle|);
    ShrinkMirrors(v.ring, v.link, v.rxlink, v.held);
    ShrinkPosted(v.posted, out, v.ring, v.nbuf);
  }

  lemma TakeFirstMirrors(v: View, out: seq<nat>)
    requires Mirror(v, out) && |v.ring| >= 3
    ensures InRange(v, v.ring[0])
    ensures var u := TakeFirst(v);
      && Mirror(u, out + [v.nbuf[v.ring[0]]]) && v.posted <= u.posted
      && u.ring == v.ring[1..] + (if v.pool == [] then [] else [v.ring[0]]) && u.lost == v.lost
  {
    hide Mirror;
    if v.pool == [] {
      TakeFirstShrinks(v, out);
    } else {
      TakeFirstRotates(v, out);
    }
  }

  /** The layers above return a buffer while a descriptor is idle: it goes to the held one, and the idle one is held. */
  function Refill(v: View, b: nat): View
    requires v.idle != [] && v.up > 0 && InRange(v, v.idle[0])
  {
    var d := v.idle[0];
    var (u, _) := Init(v.(pool := v.pool + [b], up := v.up - 1), d);
    u.(ring := v.ring + [d], idle := v.idle[1..])
  }

  lemma GrowMirrors(ring: seq<nat>, link: seq<nat>, rxlink: nat, held: nat, d: nat)
    requires Mirrors(ring, link, rxlink, held) && Distinct(ring) && held < |link|
    ensures Mirrors(ring + [d], link[held := 0][rxlink := held], held, d)
  {}

  lemma GrowPosted(posted: seq<nat>, out: seq<nat>, ring: seq<nat>, nbuf: seq<nat>, d: nat, b: nat)
    requires Posted(posted, out, ring, nbuf) && |ring| >= 2 && Distinct(ring) && ring[|ring| - 1] < |nbuf|
    ensures Posted(posted + [b], out, ring + [d], nbuf[ring[|ring| - 1] := b])
  {}

  lemma RefillGrows(v: View, out: seq<nat>, b: nat)
    requires Mirror(v, out) && v.idle != [] && b > 0
    ensures v.up > 0 && InRange(v, v.idle[0])
    ensures var u := Refill(v, b);
      && Mirror(u, out) && u.posted == v.posted + [b] && u.up == v.up - 1
      && u.ring == v.ring + [v.idle[0]] && u.idle == v.idle[1..] && u.lost == v.lost
  {
    hide Posted, Mirrors, ListsAll, Distinct;
    Bounds(v, out);
    assert v.idle[0] in v.idle;
    GrowMirrors(v.ring, v.link, v.rxlink, v.held, v.idle[0]);
    GrowPosted(v.posted, out, v.ring, v.nbuf, v.idle[0], b);
    assert v.ring + [v.idle[0]] + v.idle[1..] == v.ring + v.idle;
    var u := Refill(v, b);
    assert u.nbuf == v.nbuf[v.held := b] && u.pool == [] && u.held == v.idle[0];
    assert forall d :: d in u.idle ==> d in v.idle;
    assert Vacant(u);
  }

  lemma LoseKeeps(v: View, out: seq<nat>, bs: seq<nat>)
    requires Mirror(v, out) && |bs| <= v.up && (bs != [] ==> v.idle == [])
    ensures Mirror(v.(up := v.up - |bs|, lost := v.lost + bs), out)
  {}

  /**
   The ring, whenever the invariant holds: hardware meets all of the ring but its last descriptor,
   the held one, in order; every descriptor is on one list, once; and only the buffers the pool had
   beyond one for each linked descriptor can ever be lost.
   */
  lemma RingMirror(v: View, out: seq<nat>)
    requires Mirror(v, out)
    ensures Walk(v.link, v.ring[0], |v.ring|) + [v.held] == v.ring
    ensures Distinct(v.ring) && Distinct(v.idle)
    ensures forall d :: 1 <= d <= v.n ==> (d in v.ring <==> d !in v.idle)
    ensures |v.lost| + |v.pool| <= v.total + 1 - v.n
  {
    OnOneList(v.n, v.ring, v.idle);
    WalkMirrors(v.ring, v.link, v.rxlink, v.held, 0, |v.ring|);
  }

  // ---------------------------------------------------------------------------------
  // The scan

  /** The buffers posted from position base on, with the more flags hardware wrote for them. */
  function Seen(posted: seq<nat>, base: nat, mores: seq<bool>): seq<Read>
    requires base + |mores| <= |posted|
  {
    seq(|mores|, k requires 0 <= k < |mores| => Read(posted[base + k], mores[k]))
  }

  /** The frame of n + 1 parts posted from position base on. */
  function FrameAt(posted: seq<nat>, base: nat, n: nat): (f: seq<Read>)
    requires base + n < |posted|
    ensures |f| == n + 1
  {
    seq(n + 1, k requires 0 <= k <= n => Read(posted[base + k], k < n))
  }

  lemma BufsConcat(rs: seq<Read>, ss: seq<Read>)
    ensures Bufs(rs + ss) == Bufs(rs) + Bufs(ss)
  {}

  lemma BufsSnoc(out: seq<nat>, rs: seq<Read>, r: Read)
    ensures out + Bufs(rs + [r]) == out + Bufs(rs) + [r.buf]
  {}

  lemma SeenSame(p: seq<nat>, q: seq<nat>, base: nat, mores: seq<bool>)
    requires p <= q && base + |mores| <= |p|
    ensures Seen(p, base, mores) == Seen(q, base, mores)
  {}

  lemma SeenSnoc(posted: seq<nat>, base: nat, mores: seq<bool>, more: bool)
    requires base + |mores| < |posted|
    ensures Seen(posted, base, mores + [more]) == Seen(posted, base, mores) + [Read(posted[base + |mores|], more)]
  {}

  lemma CutSnoc(rs: seq<Read>, r: Read)
    ensures var (gs, rest) := Cut(rs);
      Cut(rs + [r]) == if r.more then (gs, rest + [r]) else (gs + [rest + [r]], [])
  {
    assert (rs + [r])[..|rs|] == rs;
  }

  /** A part with the more flag leaves the frame unfinished. */
  lemma MorePart(posted: seq<nat>, base: nat, mores: seq<bool>)
    requires base + |mores| < |posted|
    ensures var r := Read(posted[base + |mores|], true);
            var (gs, rest) := Cut(Seen(posted, base, mores));
            Cut(Seen(posted, base, mores + [true])) == (gs, rest + [r])
  {
    SeenSnoc(posted, base, mores, true);
    CutSnoc(Seen(posted, base, mores), Read(posted[base + |mores|], true));
  }

  /** A part without the more flag completes the frame that ends with it. */
  lemma LastPart(posted: seq<nat>, base: nat, mores: seq<bool>, i: nat)
    requires base + |mores| < |posted| && i == |Cut(Seen(posted, base, mores)).1|
    ensures i <= |mores|
    ensures Cut(Seen(posted, base, mores + [false]))
         == (Cut(Seen(posted, base, mores)).0 + [FrameAt(posted, base + |mores| - i, i)], [])
  {
    var rs := Seen(posted, base, mores);
    var (gs, rest) := Cut(rs);
    CutIsCut(rs);
    SeenSnoc(posted, base, mores, false);
    CutSnoc(rs, Read(posted[base + |mores|], false));
    assert rest == rs[|mores| - i..];
    hide Cut, Flat;
    assert rest + [Read(posted[base + |mores|], false)] == FrameAt(posted, base + |mores| - i, i);
  }

  lemma HeadBuffer(v: View, out: seq<nat>, i: nat)
    requires Mirror(v, out) && i < |v.ring| - 1
    ensures |v.posted| == |out| + |v.ring| - 1 && |v.link| == |v.nbuf| && v.ring[i] < |v.nbuf|
    ensures v.nbuf[v.ring[i]] == v.posted[|out| + i] && (v.link[v.ring[i]] == 0 <==> i == |v.ring| - 2)
  {
    OnOneList(v.n, v.ring, v.idle);
    assert v.ring[i] in v.ring;
    if i < |v.ring| - 2 { assert v.ring[i + 1] in v.ring; }
  }

  // ---------------------------------------------------------------------------------
  // The ring, in place

  /** The parts of the unfinished frame are still in the first descriptors of the ring. */
  lemma RestAtHead(v: View, out: seq<nat>, base: nat, mores: seq<bool>)
    requires Mirror(v, out) && base + |mores| <= |v.posted|
    requires |out| + |Cut(Seen(v.posted, base, mores)).1| == base + |mores|
    requires |Cut(Seen(v.posted, base, mores)).1| < |v.ring|
    ensures var rest := Cut(Seen(v.posted, base, mores)).1;
      forall m :: 0 <= m < |rest| ==> v.ring[m] < |v.nbuf| && v.nbuf[v.ring[m]] == rest[m].buf
  {
    var rs := Seen(v.posted, base, mores);
    var rest := Cut(rs).1;
    CutIsCut(rs);
    forall m | 0 <= m < |rest|
      ensures v.ring[m] < |v.nbuf| && v.nbuf[v.ring[m]] == rest[m].buf
    {
      HeadBuffer(v, out, m);
      assert rest[m] == rs[|rs| - |rest| + m];
    }
  }

  // ---------------------------------------------------------------------------------
  // The start

  /** The descriptors, in order. */
  function Upto(n: nat): seq<nat> {
    seq(n, i requires 0 <= i < n => i + 1)
  }

  lemma UptoListsAll(n: nat)
    ensures ListsAll(n, Upto(n))
  {
    forall d
      ensures d in Upto(n) <==> 1 <= d <= n
    {
      if 1 <= d <= n { assert Upto(n)[d - 1] == d; }
    }
  }

  function Less1(i: nat): nat {
    if i == 0 then 0 else i - 1
  }

  /** The first i of the descriptors have been initialised, out of a pool that held bufs. */
  ghost predicate Started(v: View, i: nat, bufs: seq<nat>) {
    && i <= v.n && 2 <= v.n <= |bufs| + 1 && |v.link| == |v.nbuf| == v.n + 1
    && v.held == i && v.rxlink == Less1(i)
    && (forall d :: 1 <= d < i ==> v.link[d] == if d < i - 1 then d + 1 else 0)
    && (forall d :: 1 <= d < i ==> v.nbuf[d] == bufs[d - 1])
    && (forall d :: i <= d <= v.n ==> v.nbuf[d] == 0)
    && v.posted == bufs[..Less1(i)] && v.pool == bufs[Less1(i)..]
    && v.ring == Upto(v.n) && v.idle == [] && v.up == 0 && v.lost == [] && v.total == |bufs|
  }

  lemma InitStarts(v: View, i: nat, bufs: seq<nat>)
    requires Started(v, i, bufs) && i < v.n
    ensures InRange(v, i + 1) && Init(v, i + 1).1 && Started(Init(v, i + 1).0, i + 1, bufs)
  {}

  lemma StartedMirrors(v: View, bufs: seq<nat>)
    requires Started(v, v.n, bufs) && 0 !in bufs
    ensures Mirror(v, [])
  {
    UptoListsAll(v.n);
    assert v.ring + v.idle == v.ring;
    assert Vacant(v) && Balanced(v);
    assert Posted(v.posted, [], v.ring, v.nbuf);
    assert Mirrors(v.ring, v.link, v.rxlink, v.held);
  }

  class Ring {
    const n: nat
    const total: nat
    var rxdesc: seq<nat>
    var idle: seq<nat>
    var held: nat
    var rxlink: nat
    var dp: nat
    var link: seq<nat>
    var nbuf: seq<nat>
    var pool: seq<nat>
    var delivered: seq<seq<Read>>
    ghost var posted: seq<nat>
    ghost var up: nat
    ghost var lost: seq<nat>

    ghost function Abs(): View
      reads this
    {
      View(n, total, rxdesc, idle, held, rxlink, link, nbuf, pool, posted, up, lost)
    }

    ghost predicate Valid()
      reads this
    {
      Mirror(Abs(), Bufs(Flat(delivered)))
    }

    /** Every descriptor in the ring, none initialised, all buffers in the pool; then ath_startrecv. */
    constructor (n: nat, bufs: seq<nat>)
      requires n >= 2 && |bufs| >= n - 1 && 0 !in bufs
      ensures Valid() && this.n == n && total == |bufs|
      ensures rxdesc == Upto(n) && idle == [] && dp == rxdesc[0] && delivered == []
      ensures posted == bufs[..n - 1] && pool == bufs[n - 1..] && up == 0 && lost == []
    {
      this.n, total := n, |bufs|;
      rxdesc, idle := Upto(n), [];
      held, rxlink, dp := 0, 0, 0;
      link, nbuf := seq(n + 1, _ => 0), seq(n + 1, _ => 0);
      pool, delivered := bufs, [];
      posted, up, lost := [], 0, [];
      new;
      StartRecv(bufs);
      StartedMirrors(Abs(), bufs);
      hide Mirror;
      assert Bufs(Flat(delivered)) == [];
    }

    method StartRecv(ghost bufs: seq<nat>)
      requires Started(Abs(), 0, bufs)
      modifies this
      ensures Started(Abs(), n, bufs) && delivered == old(delivered) && dp == rxdesc[0]
    {
      hide Init, Started;
      var i := 0;
      Sizes(bufs, 0);
      while i < n
        invariant i <= n == |rxdesc| && Started(Abs(), i, bufs) && delivered == old(delivered)
      {
        InitStarts(Abs(), i, bufs);
        Sizes(bufs, i);
        var ok := InitDesc(rxdesc[i]);
        i := i + 1;
        Sizes(bufs, i);
      }
      dp := rxdesc[0];
    }

    lemma Sizes(bufs: seq<nat>, i: nat)
      requires Started(Abs(), i, bufs)
      ensures |rxdesc| == n >= 2 && forall j :: 0 <= j < n ==> rxdesc[j] == j + 1
    {}

    method AllocBuf() returns (ok: bool)
      requires held < |nbuf|
      modifies this`nbuf, this`pool
      ensures (Abs(), ok) == Fill(old(Abs()))
    {
      if nbuf[held] == 0 {
        if pool == [] {
          return false;
        }
        nbuf, pool := nbuf[held := pool[0]], pool[1..];
      }
      ok := true;
    }

    method Append()
      requires held < |link| && held < |nbuf| && rxlink < |link|
      modifies this`link, this`dp, this`rxlink, this`posted
      ensures Abs() == Join(old(Abs())) && dp == if old(rxlink) == 0 then held else old(dp)
    {
      link := link[held := 0];
      if rxlink == 0 {
        dp := held;
      } else {
        link := link[rxlink := held];
      }
      rxlink := held;
      posted := posted + [nbuf[held]];
    }

    method InitDesc(ds: nat) returns (ok: bool)
      requires InRange(Abs(), ds)
      modifies this`held, this`link, this`rxlink, this`dp, this`nbuf, this`pool, this`posted
      ensures (Abs(), ok) == Init(old(Abs()), ds)
      ensures dp == if ok && old(held) != 0 && old(rxlink) == 0 then rxlink else old(dp)
    {
      ok := true;
      if held != 0 {
        ok := AllocBuf();
        if ok {
          Append();
        }
      }
      if ok {
        held := ds;
      }
    }

    /** One turn of the inner loop: unmap the first descriptor's buffer and give the descriptor back to the ring. */
    method Take() returns (b: nat)
      requires rxdesc != [] && InRange(Abs(), rxdesc[0])
      modifies this
      ensures Abs() == TakeFirst(old(Abs())) && b == old(nbuf[rxdesc[0]])
      ensures delivered == old(delivered)
    {
      hide Init;
      var d := rxdesc[0];
      b := nbuf[d];
      nbuf := nbuf[d := 0];
      up := up + 1;
      var ok := InitDesc(d);
      rxdesc := rxdesc[1..];
      if ok {
        rxdesc := rxdesc + [d];
      } else {
        idle := idle + [d];
      }
    }

    /** Hand up the frame that ends at ring position i. */
    method Deliver(i: nat)
      requires Valid() && i < |rxdesc| - 2
      modifies this
      ensures Valid() && old(posted) <= posted && |rxdesc| >= 2 && lost == old(lost)
      ensures |Flat(old(delivered))| + i < |old(posted)|
      ensures delivered == old(delivered) + [FrameAt(old(posted), |Flat(old(delivered))|, i)]
    {
      hide Mirror, TakeFirst, Cut;
      ghost var out := Bufs(Flat(delivered));
      HeadBuffer(Abs(), out, 0);
      var frame: seq<Read> := [];
      assert out + Bufs(frame) == out;
      var j := 0;
      while j <= i
        invariant j <= i + 1 && |frame| == j && |rxdesc| >= i + 3 - j
        invariant Mirror(Abs(), out + Bufs(frame)) && delivered == old(delivered) && lost == old(lost)
        invariant old(posted) <= posted
        invariant forall m :: 0 <= m < j ==> frame[m] == Read(old(posted)[|out| + m], m < i)
      {
        HeadBuffer(Abs(), out + Bufs(frame), 0);
        TakeFirstMirrors(Abs(), out + Bufs(frame));
        var b := Take();
        BufsSnoc(out, frame, Read(b, j < i));
        frame := frame + [Read(b, j < i)];
        j := j + 1;
      }
      assert frame == FrameAt(old(posted), |out|, i);
      FlatSnoc(delivered, frame);
      BufsConcat(Flat(delivered), frame);
      delivered := delivered + [frame];
    }

    /** The scan has read ms from position base on, handed up the whole frames, and stands at ring position i. */
    ghost predicate Scanned(from: seq<seq<Read>>, base: nat, ms: seq<bool>, i: nat)
      reads this
    {
      && Valid() && i <= |rxdesc| - 2
      && |Flat(delivered)| + i == base + |ms| <= |posted|
      && var (frames, rest) := Cut(Seen(posted, base, ms));
      delivered == from + frames && |rest| == i
    }

    /** One turn of the outer loop. */
    method Look(more: bool, i: nat, ghost from: seq<seq<Read>>, ghost base: nat, ghost ms: seq<bool>)
      returns (next: nat)
      requires Scanned(from, base, ms, i) && i < |rxdesc| - 2
      modifies this
      ensures Scanned(from, base, ms + [more], next)
      ensures old(posted) <= posted && lost == old(lost)
    {
      hide Mirror, Cut, Seen, FrameAt, Flat;
      HeadBuffer(Abs(), Bufs(Flat(delivered)), i);
      if more {
        MorePart(posted, base, ms);
        next := i + 1;
      } else {
        LastPart(posted, base, ms, i);
        Deliver(i);
        FlatSnoc(old(delivered), FrameAt(old(posted), |Flat(old(delivered))|, i));
        SeenSame(old(posted), posted, base, ms + [false]);
        next := 0;
      }
      HeadBuffer(Abs(), Bufs(Flat(delivered)), next);
    }

    lemma ScanPosition(from: seq<seq<Read>>, base: nat, ms: seq<bool>, i: nat)
      requires Scanned(from, base, ms, i)
      ensures rxdesc[i] < |link| && (link[rxdesc[i]] == 0 <==> i == |rxdesc| - 2)
      ensures var rest := Cut(Seen(posted, base, ms)).1;
        forall m :: 0 <= m < |rest| ==> rxdesc[m] < |nbuf| && nbuf[rxdesc[m]] == rest[m].buf
    {
      hide Mirror, Cut, Seen;
      HeadBuffer(Abs(), Bufs(Flat(delivered)), i);
      RestAtHead(Abs(), Bufs(Flat(delivered)), base, ms);
    }

    lemma ScanStarts()
      requires Valid()
      ensures Scanned(delivered, |Flat(delivered)|, [], 0)
    {
      HeadBuffer(Abs(), Bufs(Flat(delivered)), 0);
      assert Seen(posted, |Flat(delivered)|, []) == [];
      assert delivered + [] == delivered;
    }

    /**
     ath_uapsd_processtriggers. Hardware answers, descriptor after descriptor, whether the frame goes
     on after it (mores), until one is in progress. What is handed up is the whole frames among the
     parts read, and the parts of an unfinished frame stay at the head of the ring.
     */
    method ProcessTriggers(mores: seq<bool>) returns (used: nat)
      requires Valid()
      modifies this
      ensures Valid() && old(posted) <= posted && lost == old(lost)
      ensures used <= |mores| && |Flat(old(delivered))| + used <= |posted|
      ensures var (frames, rest) := Cut(Seen(posted, |Flat(old(delivered))|, mores[..used]));
        && delivered == old(delivered) + frames
        && |rest| <= |rxdesc| - 2 && (used < |mores| ==> |rest| == |rxdesc| - 2)
        && forall m :: 0 <= m < |rest| ==> rxdesc[m] < |nbuf| && nbuf[rxdesc[m]] == rest[m].buf
    {
      hide Mirror, Cut, Seen, Flat;
      ghost var base, from := |Flat(delivered)|, delivered;
      var i: nat := 0;
      used := 0;
      ScanStarts();
      assert mores[..0] == [];
      ScanPosition(from, base, [], 0);
      while used < |mores| && link[rxdesc[i]] != 0
        invariant used <= |mores| && Scanned(from, base, mores[..used], i) && rxdesc[i] < |link|
        invariant old(posted) <= posted && lost == old(lost)
      {
        ghost var ms := mores[..used];
        ScanPosition(from, base, ms, i);
        i := Look(mores[used], i, from, base, ms);
        used := used + 1;
        assert mores[..used] == ms + [mores[used - 1]];
        ScanPosition(from, base, mores[..used], i);
      }
      ScanPosition(from, base, mores[..used], i);
    }

    /**
     ath_rx_complete: each buffer returned refills an idle descriptor. Buffers returned when no
     descriptor is idle go back to no list.
     */
    method RxComplete(frags: seq<nat>)
      requires Valid() && |frags| <= up && 0 !in frags
      modifies this
      ensures Valid() && delivered == old(delivered) && up == old(up) - |frags|
      ensures var k := if |frags| <= |old(idle)| then |frags| else |old(idle)|;
        && rxdesc == old(rxdesc + idle[..k]) && idle == old(idle[k..])
        && posted == old(posted) + frags[..k] && lost == old(lost) + frags[k..]
    {
      hide Mirror, Refill;
      ghost var out := Bufs(Flat(delivered));
      var i := 0;
      while idle != [] && i < |frags|
        invariant i <= |frags| && i <= |old(idle)| && Mirror(Abs(), out)
        invariant delivered == old(delivered) && up == old(up) - i && lost == old(lost)
        invariant rxdesc == old(rxdesc) + old(idle)[..i] && idle == old(idle)[i..]
        invariant posted == old(posted) + frags[..i]
      {
        RefillGrows(Abs(), out, frags[i]);
        Return(frags[i]);
        i := i + 1;
      }
      LoseKeeps(Abs(), out, frags[i..]);
      up, lost := up - (|frags| - i), lost + frags[i..];
    }

    /** One turn of the loop of ath_rx_complete. */
    method Return(b: nat)
      requires idle != [] && up > 0 && InRange(Abs(), idle[0])
      modifies this
      ensures Abs() == Refill(old(Abs()), b) && delivered == old(delivered)
    {
      hide Init;
      var d := idle[0];
      pool := pool + [b];
      up := up - 1;
      var _ := InitDesc(d);
      idle := idle[1..];
      rxdesc := rxdesc + [d];
    }
  }
}
