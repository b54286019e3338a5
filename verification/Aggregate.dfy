/**
 A-MPDU formation: which frames at the head of a traffic identifier's queue go into one
 aggregate, and how long it is.
 */
module Aggregate {
  import opened Frames
  import opened Window

  const DELIM_SZ: nat := 4
  const MINPLEN: nat := 256
  const ENCRYPTDELIM: nat := 10
  const AMPDU_LIMIT_MAX: nat := 64 * 1024 - 1

  datatype Status = Done | BawClosed | Limited

  /** count frames were moved off the queue; al is the 16-bit aggregate length. */
  datatype Form = Form(count: nat, al: nat, status: Status)

  function Min(a: nat, b: nat): nat {
    if a < b then a else b
  }

  function PadBytes(len: nat): nat {
    (4 - len % 4) % 4
  }

  /** ATH_AGGR_GET_NDELIM and the extra delimiters of the cipher. */
  function Ndelim(f: Frame): nat {
    (if f.pktlen + DELIM_SZ < MINPLEN then (MINPLEN - f.pktlen - DELIM_SZ) / 4 else 0)
    + match f.keytype
      case Aes => ENCRYPTDELIM
      case Wep => 64
      case Tkip => 64
      case Wapi => 12
      case Clear => 0
  }

  /** A subframe with its delimiter, in the 16-bit variable al_delta. */
  function AlDelta(f: Frame): nat {
    U16(DELIM_SZ + f.pktlen)
  }

  function Bpad(f: Frame): nat {
    PadBytes(AlDelta(f)) + 4 * Ndelim(f)
  }

  /** Frames in one aggregate: half the window, and at most 17 on AR9271, 22 otherwise. */
  function MaxSubframes(k2: bool): nat {
    Min(WME_MAX_BA / 2, if k2 then 17 else 22)
  }

  /** The loop of ath_tgt_tx_form_aggr with n frames chosen so far and q the rest of the queue. */
  function FormFrom(seqStart: nat, q: seq<Frame>, limit: nat, k2: bool, n: nat, al: nat, bpad: nat): Form
    requires |q| > 0
    decreases |q|
  {
    var f := q[0];
    if Offset(seqStart, f.seqno) >= WME_MAX_BA then Form(n, al, BawClosed)
    else if n > 0 && limit < al + bpad + AlDelta(f) then Form(n, al, Limited)
    else if n >= MaxSubframes(k2) then Form(n, al, Limited)
    else
      var al' := U16(al + bpad + AlDelta(f));
      if |q| == 1 then Form(n + 1, al', Done)
      else FormFrom(seqStart, q[1..], limit, k2, n + 1, al', Bpad(f))
  }

  function FormAggr(seqStart: nat, q: seq<Frame>, limit: nat, k2: bool): Form
    requires |q| > 0
  {
    FormFrom(seqStart, q, limit, k2, 0, 0, 0)
  }

  /** The unfolding of FormFrom, for use where its recursion is hidden. */
  lemma FormFromUnfold(seqStart: nat, q: seq<Frame>, limit: nat, k2: bool, n: nat, al: nat, bpad: nat)
    requires |q| > 0
    ensures FormFrom(seqStart, q, limit, k2, n, al, bpad) ==
      if Offset(seqStart, q[0].seqno) >= WME_MAX_BA then Form(n, al, BawClosed)
      else if n > 0 && limit < al + bpad + AlDelta(q[0]) then Form(n, al, Limited)
      else if n >= MaxSubframes(k2) then Form(n, al, Limited)
      else if |q| == 1 then Form(n + 1, U16(al + bpad + AlDelta(q[0])), Done)
      else FormFrom(seqStart, q[1..], limit, k2, n + 1, U16(al + bpad + AlDelta(q[0])), Bpad(q[0]))
  {
    hide AlDelta, Bpad, Offset, U16, MaxSubframes;
  }

  // ---------------------------------------------------------------------------------
  // The layout, in the terms of the loop.

  /** Octets a subframe takes when another one follows it. */
  function Padded(f: Frame): nat {
    AlDelta(f) + Bpad(f)
  }

  /** The octet at which subframe i starts. */
  function StartOf(q: seq<Frame>, i: nat): nat
    requires i <= |q|
  {
    if i == 0 then 0 else StartOf(q, i - 1) + Padded(q[i - 1])
  }

  /** The octet just after subframe i. */
  function EndOf(q: seq<Frame>, i: nat): nat
    requires i < |q|
  {
    StartOf(q, i) + AlDelta(q[i])
  }

  ghost predicate Inside(seqStart: nat, f: Frame) {
    Offset(seqStart, f.seqno) < WME_MAX_BA
  }

  /** The frame after the first c cannot join: outside the window, too long, or one too many. */
  ghost predicate Closed(seqStart: nat, q: seq<Frame>, limit: nat, k2: bool, c: nat, status: Status)
    requires c <= |q|
  {
    match status
    case Done => c == |q|
    case BawClosed => c < |q| && !Inside(seqStart, q[c])
    case Limited => c < |q| && 0 < c && Inside(seqStart, q[c]) && (limit < EndOf(q, c) || c == MaxSubframes(k2))
  }

  lemma {:induction false} StartOfDrop(q: seq<Frame>, i: nat)
    requires 0 < i <= |q|
    ensures StartOf(q, i) == Padded(q[0]) + StartOf(q[1..], i - 1)
  {
    if i > 1 {
      StartOfDrop(q, i - 1);
    } else {
      assert StartOf(q, 0) == 0;
    }
  }

  lemma EndOfDrop(q: seq<Frame>, i: nat)
    requires i < |q|
    ensures i > 0 ==> EndOf(q, i) == Padded(q[0]) + EndOf(q[1..], i - 1)
    ensures i == 0 ==> EndOf(q, i) == AlDelta(q[0])
  {
    if i > 0 { StartOfDrop(q, i); }
  }

  /** r continues an aggregate of n subframes and al octets, whose last was padded with bpad, with k frames of q. */
  ghost predicate Continues(seqStart: nat, q: seq<Frame>, limit: nat, k2: bool,
                            n: nat, al: nat, bpad: nat, r: Form, k: nat)
  {
    && r.count == n + k <= MaxSubframes(k2) && k <= |q|
    && (forall i :: 0 <= i < k ==> Inside(seqStart, q[i]))
    && r.al == (if k == 0 then al else al + bpad + EndOf(q, k - 1))
    && (k > 0 ==> r.al <= limit)
    && match r.status
       case Done => k == |q|
       case BawClosed => k < |q| && !Inside(seqStart, q[k])
       case Limited => k < |q| && Inside(seqStart, q[k])
                       && (limit < al + bpad + EndOf(q, k) || r.count == MaxSubframes(k2))
  }

  lemma ContinuesStep(seqStart: nat, q: seq<Frame>, limit: nat, k2: bool, n: nat, al: nat, bpad: nat, r: Form, k: nat)
    requires |q| > 1 && Inside(seqStart, q[0]) && al + bpad + AlDelta(q[0]) <= limit
    requires Continues(seqStart, q[1..], limit, k2, n + 1, al + bpad + AlDelta(q[0]), Bpad(q[0]), r, k)
    ensures Continues(seqStart, q, limit, k2, n, al, bpad, r, k + 1)
  {
    EndOfDrop(q, k);
    if k + 1 < |q| { EndOfDrop(q, k + 1); }
  }

  lemma {:induction false} FormFromContinues(seqStart: nat, q: seq<Frame>, limit: nat, k2: bool,
                                             n: nat, al: nat, bpad: nat)
    returns (k: nat)
    requires |q| > 0 && 0 < n <= MaxSubframes(k2) && limit <= AMPDU_LIMIT_MAX
    ensures Continues(seqStart, q, limit, k2, n, al, bpad, FormFrom(seqStart, q, limit, k2, n, al, bpad), k)
    decreases |q|
  {
    hide AlDelta, Bpad, Padded, StartOf, EndOf, Offset;
    EndOfDrop(q, 0);
    if !Inside(seqStart, q[0]) || limit < al + bpad + AlDelta(q[0]) || n >= MaxSubframes(k2) {
      k := 0;
    } else if |q| == 1 {
      k := 1;
    } else {
      var k' := FormFromContinues(seqStart, q[1..], limit, k2, n + 1, al + bpad + AlDelta(q[0]), Bpad(q[0]));
      ContinuesStep(seqStart, q, limit, k2, n, al, bpad, FormFrom(seqStart, q, limit, k2, n, al, bpad), k');
      k := k' + 1;
    }
  }

  /** What the layout of an aggregate must be, said without the loop that makes it. */
  ghost predicate WellLaid(seqStart: nat, q: seq<Frame>, limit: nat, k2: bool, r: Form) {
    && r.count <= |q| && r.count <= MaxSubframes(k2)
    && (forall i :: 0 <= i < r.count ==> Inside(seqStart, q[i]))
    && (r.count > 0 ==> r.al == EndOf(q, r.count - 1))
    && (r.count > 1 ==> r.al <= limit)
    && Closed(seqStart, q, limit, k2, r.count, r.status)
  }

  lemma ContinuesOne(seqStart: nat, q: seq<Frame>, limit: nat, k2: bool, r: Form, k: nat)
    requires |q| > 1 && Inside(seqStart, q[0])
    requires Continues(seqStart, q[1..], limit, k2, 1, AlDelta(q[0]), Bpad(q[0]), r, k)
    ensures WellLaid(seqStart, q, limit, k2, r)
  {
    EndOfDrop(q, k);
    if k + 1 < |q| { EndOfDrop(q, k + 1); }
  }

  lemma FormFirst(seqStart: nat, q: seq<Frame>, limit: nat, k2: bool)
    requires |q| > 0
    ensures FormAggr(seqStart, q, limit, k2) ==
            if !Inside(seqStart, q[0]) then Form(0, 0, BawClosed)
            else if |q| == 1 then Form(1, AlDelta(q[0]), Done)
            else FormFrom(seqStart, q[1..], limit, k2, 1, AlDelta(q[0]), Bpad(q[0]))
  {
    hide Bpad, Offset;
  }

  /** What formation does, in the terms of its loop. */
  lemma FormLaid(seqStart: nat, q: seq<Frame>, limit: nat, k2: bool)
    requires |q| > 0 && limit <= AMPDU_LIMIT_MAX
    ensures WellLaid(seqStart, q, limit, k2, FormAggr(seqStart, q, limit, k2))
    ensures FormAggr(seqStart, q, limit, k2).count == 0 <==> !Inside(seqStart, q[0])
  {
    hide Bpad, Padded, StartOf, Offset, FormFrom;
    FormFirst(seqStart, q, limit, k2);
    if Inside(seqStart, q[0]) {
      EndOfDrop(q, 0);
      if |q| > 1 {
        var k := FormFromContinues(seqStart, q[1..], limit, k2, 1, AlDelta(q[0]), Bpad(q[0]));
        ContinuesOne(seqStart, q, limit, k2, FormAggr(seqStart, q, limit, k2), k);
      }
    }
  }

  // ---------------------------------------------------------------------------------
  // The layout, in the terms of the standard and of the hardware's needs

  /** No length overflows 16 bits with its delimiter. */
  ghost predicate Sized(q: seq<Frame>) {
    forall f :: f in q ==> f.pktlen <= 0xFFFF - 4
  }

  lemma SizedAt(q: seq<Frame>, i: nat)
    requires Sized(q) && i < |q|
    ensures q[i].pktlen <= 0xFFFF - 4
  {}

  /** The time hardware needs for a cipher between two subframes, in octets of empty delimiters. */
  function CipherOctets(key: KeyType): nat {
    match key
    case Clear => 0
    case Aes => 40
    case Wep => 256
    case Tkip => 256
    case Wapi => 48
  }

  /** A subframe with its delimiter, filled up to a multiple of four octets. */
  function RoundedOctets(f: Frame): nat {
    (4 + f.pktlen + 3) / 4 * 4
  }

  /** What a subframe takes when another one follows: at least 256 octets, and what its cipher needs. */
  function FollowedOctets(f: Frame): nat {
    (if RoundedOctets(f) < 256 then 256 else RoundedOctets(f)) + CipherOctets(f.keytype)
  }

  /** The octet at which subframe i starts. */
  function Start(q: seq<Frame>, i: nat): nat
    requires i <= |q|
  {
    if i == 0 then 0 else Start(q, i - 1) + FollowedOctets(q[i - 1])
  }

  /** The octet just after subframe i, the last one. */
  function End(q: seq<Frame>, i: nat): nat
    requires i < |q|
  {
    Start(q, i) + 4 + q[i].pktlen
  }

  /** The loop's padding and delimiters come to exactly that. */
  lemma DelimitersFill(f: Frame)
    requires f.pktlen <= 0xFFFF - 4
    ensures RoundedOctets(f) + 4 * Ndelim(f) == FollowedOctets(f)
    ensures Padded(f) == FollowedOctets(f) && AlDelta(f) == 4 + f.pktlen
  {
    var d := 4 + f.pktlen;
    assert d + PadBytes(d) == RoundedOctets(f);
  }

  lemma {:induction false} StartIs(q: seq<Frame>, i: nat)
    requires i <= |q| && Sized(q)
    ensures StartOf(q, i) == Start(q, i)
    ensures i < |q| ==> EndOf(q, i) == End(q, i)
  {
    hide Padded, AlDelta, FollowedOctets;
    if i < |q| { DelimitersFill(q[i]); }
    if i > 0 {
      StartIs(q, i - 1);
      DelimitersFill(q[i - 1]);
    }
  }

  /** Every subframe starts on a four-octet boundary, and one that another follows fills at least 256 octets. */
  lemma {:induction false} SubframesAligned(q: seq<Frame>, i: nat)
    requires i <= |q|
    ensures Start(q, i) % 4 == 0 && Start(q, i) >= i * 256
    ensures forall j :: 0 <= j < i ==> Start(q, j + 1) - Start(q, j) >= 256
  {
    if i > 0 { SubframesAligned(q, i - 1); }
  }

  /** The frame after the first c cannot join: outside the window, too long for the limit, or one too many. */
  ghost predicate CannotJoin(seqStart: nat, q: seq<Frame>, limit: nat, k2: bool, c: nat, status: Status)
    requires c <= |q|
  {
    match status
    case Done => c == |q|
    case BawClosed => c < |q| && Offset(seqStart, q[c].seqno) >= 64
    case Limited => 0 < c < |q| && Offset(seqStart, q[c].seqno) < 64
                    && (limit < End(q, c) || c == if k2 then 17 else 22)
  }

  /** The first r.count frames form an aggregate of r.al octets, and no more can. */
  ghost predicate LaidOut(seqStart: nat, q: seq<Frame>, limit: nat, k2: bool, r: Form) {
    && r.count <= |q| && r.count <= (if k2 then 17 else 22)
    && (forall i :: 0 <= i < r.count ==> Offset(seqStart, q[i].seqno) < 64)
    && (r.count > 0 ==> r.al == End(q, r.count - 1))
    && (r.count > 1 ==> r.al <= limit)
    && CannotJoin(seqStart, q, limit, k2, r.count, r.status)
  }

  /**
   Aggregate layout. The chosen frames are a prefix of the queue, all inside the window; the length is the end
   of the last, each one before it followed by the padding and the delimiters it needs; it is within the
   limit as soon as there are two; and formation stops only when the next frame cannot join.
   */
  lemma AggregateLayout(seqStart: nat, q: seq<Frame>, limit: nat, k2: bool)
    requires |q| > 0 && limit <= AMPDU_LIMIT_MAX && Sized(q)
    ensures LaidOut(seqStart, q, limit, k2, FormAggr(seqStart, q, limit, k2))
    ensures FormAggr(seqStart, q, limit, k2).count == 0 <==> Offset(seqStart, q[0].seqno) >= 64
  {
    hide FormAggr, Offset, StartOf, EndOf, Start, End, Sized;
    FormLaid(seqStart, q, limit, k2);
    var c := FormAggr(seqStart, q, limit, k2).count;
    if c > 0 { StartIs(q, c - 1); }
    StartIs(q, c);
  }

  /** A zero limit, which a probe or a legacy rate gives, makes a frame inside the window travel alone. */
  lemma ZeroLimitSendsOne(seqStart: nat, q: seq<Frame>, k2: bool)
    requires |q| > 0 && Inside(seqStart, q[0])
    requires Sized(q)
    ensures FormAggr(seqStart, q, 0, k2).count == 1
  {
    AggregateLayout(seqStart, q, 0, k2);
    SubframesAligned(q, FormAggr(seqStart, q, 0, k2).count - 1);
  }
}
