/**
 The originator's block-ack window of one traffic identifier: 64 sequence numbers of a
 12-bit space, kept as a circular bitmap of 128 slots between `head` and `tail`.
 Window is the value every operation is specified on; class BlockAckWindow is the
 in-place implementation over four 32-bit words.
 */
module Window {

  const SEQ_MAX: nat := 4096
  const WME_MAX_BA: nat := 64
  const TID_MAX_BUFS: nat := 128

  datatype Slotted = Slotted(seqStart: nat, head: nat, tail: nat, bits: seq<bool>)

  function Fresh(): Slotted {
    Slotted(0, 0, 0, seq(TID_MAX_BUFS, _ => false))
  }

  type Window = w: Slotted | WellFormed(w) witness Fresh()

  predicate WellFormed(w: Slotted) {
    w.seqStart < SEQ_MAX && w.head < TID_MAX_BUFS && w.tail < TID_MAX_BUFS && |w.bits| == TID_MAX_BUFS
  }

  /** Distance from start forward to seqno in the 12-bit space (ATH_BA_INDEX). */
  function Offset(start: int, seqno: int): nat {
    (seqno - start) % SEQ_MAX
  }

  /** BAW_WITHIN for a window of 64. */
  predicate Within(w: Window, seqno: int) {
    Offset(w.seqStart, seqno) < WME_MAX_BA
  }

  /** The number of slots between head and tail. */
  function Width(w: Window): nat {
    (w.tail - w.head) % TID_MAX_BUFS
  }

  function Slot(w: Window, o: nat): nat {
    (w.head + o) % TID_MAX_BUFS
  }

  function SeqAt(start: nat, o: nat): nat {
    (start + o) % SEQ_MAX
  }

  /** ath_tx_addto_baw for a frame that has not been retried. */
  function Add(w: Window, seqno: nat): Window
  {
    var index := Offset(w.seqStart, seqno);
    var cindex := Slot(w, index);
    w.(bits := w.bits[cindex := true],
       tail := if index >= Width(w) then (cindex + 1) % TID_MAX_BUFS else w.tail)
  }

  function Clear(w: Window, seqno: nat): Window
  {
    w.(bits := w.bits[Slot(w, Offset(w.seqStart, seqno)) := false])
  }

  function Advance(w: Window): Window {
    w.(head := (w.head + 1) % TID_MAX_BUFS, seqStart := (w.seqStart + 1) % SEQ_MAX)
  }

  /** Move the start over every number that is no longer outstanding. */
  function Slide(w: Window): Window
    decreases Width(w)
  {
    if w.head != w.tail && !w.bits[w.head] then Slide(Advance(w)) else w
  }

  /** ath_tx_update_baw: one number is resolved, acknowledged or given up. */
  function Resolve(w: Window, seqno: nat): Window
  {
    Slide(Clear(w, seqno))
  }

  /** The loop of ath_tgt_tx_cleanup that empties the window, counting its members. */
  function Flush(w: Window): (Window, nat)
    decreases Width(w)
  {
    if w.head == w.tail then (w, 0)
    else
      var (v, n) := Flush(Advance(w.(bits := w.bits[w.head := false])));
      (v, n + if w.bits[w.head] then 1 else 0)
  }

  // ---------------------------------------------------------------------------------
  // The abstract value: the set of sequence numbers sent and not yet resolved.

  /** The bitmap read from head onwards. */
  function View(w: Window): seq<bool>
  {
    w.bits[w.head..] + w.bits[..w.head]
  }

  /**
   Every unresolved number lies between head and tail and has its bit. If strict, no other number
   between them has one. Bits outside are not restricted: a drain leaves some behind.
   */
  ghost predicate Holds(strict: bool, start: nat, width: nat, view: seq<bool>, unresolved: set<nat>) {
    && |view| == TID_MAX_BUFS
    && width <= WME_MAX_BA
    && (forall x :: x in unresolved ==> x < SEQ_MAX && Offset(start, x) < width && view[Offset(start, x)])
    && (strict ==> forall o :: 0 <= o < width && view[o] ==> SeqAt(start, o) in unresolved)
  }

  /** The window covers the unresolved numbers, and if strict its members are exactly they. */
  ghost predicate Represents(strict: bool, w: Window, unresolved: set<nat>) {
    Holds(strict, w.seqStart, Width(w), View(w), unresolved)
  }

  /** No bit is left behind from the window's end up to number x, as far as a window reaches. */
  predicate Clean(w: Window, x: nat) {
    forall o :: Width(w) <= o < Offset(w.seqStart, x) && o < WME_MAX_BA ==> !View(w)[o]
  }

  lemma SeqAtOffset(start: nat, x: nat)
    requires start < SEQ_MAX && x < SEQ_MAX
    ensures SeqAt(start, Offset(start, x)) == x
  {}

  lemma OffsetSeqAt(start: nat, o: nat)
    requires start < SEQ_MAX && o < SEQ_MAX
    ensures Offset(start, SeqAt(start, o)) == o && SeqAt(start, o) < SEQ_MAX
  {}

  lemma OffsetAdvance(start: nat, x: nat)
    requires start < SEQ_MAX && x < SEQ_MAX && x != start
    ensures Offset(start, x) > 0 && Offset(SeqAt(start, 1), x) == Offset(start, x) - 1
  {}

  lemma SeqAtAdd(start: nat, a: nat, b: nat)
    ensures SeqAt(SeqAt(start, a), b) == SeqAt(start, a + b)
  {}

  lemma ViewSet(w: Window, o: nat, b: bool)
    requires o < TID_MAX_BUFS
    ensures WellFormed(w.(bits := w.bits[Slot(w, o) := b]))
    ensures View(w.(bits := w.bits[Slot(w, o) := b])) == View(w)[o := b]
  {
    if w.head + o < TID_MAX_BUFS {
      assert Slot(w, o) == w.head + o;
    } else {
      assert Slot(w, o) == w.head + o - TID_MAX_BUFS;
    }
  }

  lemma ViewAdvance(w: Window)
    ensures View(Advance(w)) == View(w)[1..] + [View(w)[0]]
    ensures View(w)[0] == w.bits[w.head]
    ensures w.head != w.tail ==> Width(w) > 0 && Width(Advance(w)) == Width(w) - 1
  {
    if w.head == TID_MAX_BUFS - 1 {
      assert View(Advance(w)) == w.bits;
    }
  }

  /** A window determines the set it represents, so the refinement is exact. */
  lemma RepresentsUnique(w: Window, a: set<nat>, b: set<nat>)
    requires Represents(true, w, a) && Represents(true, w, b)
    ensures a == b
  {
    forall x | x in a ensures x in b { SeqAtOffset(w.seqStart, x); assert View(w)[Offset(w.seqStart, x)]; }
    forall x | x in b ensures x in a { SeqAtOffset(w.seqStart, x); assert View(w)[Offset(w.seqStart, x)]; }
  }

  lemma EmptyRepresents(strict: bool, w: Window)
    requires Width(w) == 0
    ensures Represents(strict, w, {})
  {}

  lemma AddHolds(strict: bool, start: nat, width: nat, view: seq<bool>, unresolved: set<nat>, x: nat)
    requires start < SEQ_MAX && x < SEQ_MAX && Offset(start, x) < WME_MAX_BA
    requires Holds(strict, start, width, view, unresolved)
    requires strict ==> forall o :: width <= o < Offset(start, x) ==> !view[o]
    ensures Holds(strict, start, if Offset(start, x) < width then width else Offset(start, x) + 1,
                  view[Offset(start, x) := true], unresolved + {x})
  {
    SeqAtOffset(start, x);
  }

  lemma ClearHolds(strict: bool, start: nat, width: nat, view: seq<bool>, unresolved: set<nat>, x: nat)
    requires start < SEQ_MAX && x < SEQ_MAX && Offset(start, x) < TID_MAX_BUFS
    requires Holds(strict, start, width, view, unresolved)
    ensures Holds(strict, start, width, view[Offset(start, x) := false], unresolved - {x})
  {
    forall y | y in unresolved && y != x ensures Offset(start, y) != Offset(start, x) {
      SeqAtOffset(start, x);
      SeqAtOffset(start, y);
    }
    forall o | 0 <= o < width && o != Offset(start, x) ensures SeqAt(start, o) != x {
      OffsetSeqAt(start, o);
    }
  }

  lemma AdvanceHolds(strict: bool, start: nat, width: nat, view: seq<bool>, unresolved: set<nat>)
    requires start < SEQ_MAX && width > 0 && start !in unresolved && Holds(strict, start, width, view, unresolved)
    ensures Holds(strict, SeqAt(start, 1), width - 1, view[1..] + [view[0]], unresolved)
  {
    var v := view[1..] + [view[0]];
    forall x | x in unresolved ensures Offset(SeqAt(start, 1), x) < width - 1 && v[Offset(SeqAt(start, 1), x)] {
      OffsetAdvance(start, x);
      assert v[Offset(start, x) - 1] == view[Offset(start, x)];
    }
    forall o | 0 <= o < width - 1
      ensures v[o] == view[o + 1] && SeqAt(SeqAt(start, 1), o) == SeqAt(start, o + 1)
    {
      SeqAtAdd(start, 1, o);
    }
  }

  lemma AddWidth(w: Window, x: nat)
    requires Offset(w.seqStart, x) < WME_MAX_BA && Width(w) <= WME_MAX_BA
    ensures Width(Add(w, x)) == if Offset(w.seqStart, x) < Width(w) then Width(w) else Offset(w.seqStart, x) + 1
  {
    SlotWidth(w.head, Offset(w.seqStart, x));
    hide Offset;
  }

  /** A tail just after slot o leaves o + 1 slots between head and tail. */
  lemma SlotWidth(head: nat, o: nat)
    requires head < TID_MAX_BUFS && o + 1 < TID_MAX_BUFS
    ensures (((head + o) % TID_MAX_BUFS + 1) % TID_MAX_BUFS - head) % TID_MAX_BUFS == o + 1
  {
    if head + o + 1 < TID_MAX_BUFS {
    } else if head + o + 1 == TID_MAX_BUFS {
      assert ((head + o) % TID_MAX_BUFS + 1) % TID_MAX_BUFS == 0;
    } else {
      assert (head + o) % TID_MAX_BUFS == head + o - TID_MAX_BUFS;
    }
  }

  /**
   A number inside the window becomes a member, and the width grows just enough to cover it. The
   members stay exact if no bit was left behind in the places the window grows over.
   */
  lemma AddRepresents(strict: bool, w: Window, unresolved: set<nat>, x: nat)
    requires Represents(strict, w, unresolved) && x < SEQ_MAX && Within(w, x) && (strict ==> Clean(w, x))
    ensures Represents(strict, Add(w, x), unresolved + {x})
    ensures Width(Add(w, x)) == if Offset(w.seqStart, x) < Width(w) then Width(w) else Offset(w.seqStart, x) + 1
  {
    AddWidth(w, x);
    AddHolds(strict, w.seqStart, Width(w), View(w), unresolved, x);
    AddView(w, x);
  }

  lemma AddView(w: Window, x: nat)
    requires x < SEQ_MAX && Within(w, x)
    ensures View(Add(w, x)) == View(w)[Offset(w.seqStart, x) := true]
  {
    ViewSet(w, Offset(w.seqStart, x), true);
    assert View(Add(w, x)) == View(w.(bits := w.bits[Slot(w, Offset(w.seqStart, x)) := true]));
  }

  /** Exactly then: a bit left behind in those places becomes a member that nothing will resolve. */
  lemma AddExactIff(w: Window, unresolved: set<nat>, x: nat)
    requires Represents(true, w, unresolved) && x < SEQ_MAX && Within(w, x)
    ensures Represents(true, Add(w, x), unresolved + {x}) <==> Clean(w, x)
  {
    if Clean(w, x) {
      AddRepresents(true, w, unresolved, x);
    } else {
      var o :| Width(w) <= o < Offset(w.seqStart, x) && o < WME_MAX_BA && View(w)[o];
      AddWidth(w, x);
      AddView(w, x);
      OffsetSeqAt(w.seqStart, o);
      assert View(Add(w, x))[o];
      assert SeqAt(w.seqStart, o) !in unresolved + {x};
    }
  }

  lemma ClearRepresents(strict: bool, w: Window, unresolved: set<nat>, x: nat)
    requires Represents(strict, w, unresolved) && x < SEQ_MAX && Offset(w.seqStart, x) < TID_MAX_BUFS
    ensures Represents(strict, Clear(w, x), unresolved - {x})
  {
    ClearHolds(strict, w.seqStart, Width(w), View(w), unresolved, x);
    ViewSet(w, Offset(w.seqStart, x), false);
  }

  lemma AdvanceRepresents(strict: bool, w: Window, unresolved: set<nat>)
    requires Represents(strict, w, unresolved) && w.head != w.tail && w.seqStart !in unresolved
    ensures Represents(strict, Advance(w), unresolved) && Width(Advance(w)) == Width(w) - 1
  {
    ViewAdvance(w);
    AdvanceHolds(strict, w.seqStart, Width(w), View(w), unresolved);
    assert Advance(w).seqStart == SeqAt(w.seqStart, 1);
  }

  /** The bit at head tells whether the start itself is unresolved. */
  lemma HeadBit(strict: bool, w: Window, unresolved: set<nat>)
    requires Represents(strict, w, unresolved)
    ensures w.head == w.tail <==> Width(w) == 0
    ensures w.head == w.tail ==> unresolved == {}
    ensures w.head != w.tail ==> (w.seqStart in unresolved ==> w.bits[w.head])
    ensures w.head != w.tail && strict ==> (w.bits[w.head] ==> w.seqStart in unresolved)
  {
    ViewAdvance(w);
    assert SeqAt(w.seqStart, 0) == w.seqStart && Offset(w.seqStart, w.seqStart) == 0;
    if w.head == w.tail {
      assert Width(w) == 0;
    }
  }

  /** v is w slid over k numbers none of which is in unresolved; if strict, up to the oldest that is, or to the tail. */
  ghost predicate SlidTo(strict: bool, w: Window, v: Window, unresolved: set<nat>, k: nat) {
    && k <= Width(w) && Width(v) == Width(w) - k
    && v.seqStart == SeqAt(w.seqStart, k) && v.tail == w.tail
    && (forall j :: 0 <= j < k ==> SeqAt(w.seqStart, j) !in unresolved)
    && (strict && Width(v) > 0 ==> v.seqStart in unresolved)
  }

  lemma NoneBelow(start: nat, unresolved: set<nat>, k: nat)
    requires start < SEQ_MAX && start !in unresolved
    requires forall j :: 0 <= j < k ==> SeqAt(SeqAt(start, 1), j) !in unresolved
    ensures forall j :: 0 <= j < k + 1 ==> SeqAt(start, j) !in unresolved
  {
    forall j | 0 <= j < k + 1 ensures SeqAt(start, j) !in unresolved {
      if j > 0 {
        SeqAtAdd(start, 1, j - 1);
        assert SeqAt(SeqAt(start, 1), j - 1) !in unresolved;
      }
    }
  }

  lemma SlidStep(strict: bool, w: Window, v: Window, unresolved: set<nat>, k: nat)
    requires w.head != w.tail && w.seqStart !in unresolved
    requires SlidTo(strict, Advance(w), v, unresolved, k)
    ensures SlidTo(strict, w, v, unresolved, k + 1)
  {
    ViewAdvance(w);
    SeqAtAdd(w.seqStart, 1, k);
    NoneBelow(w.seqStart, unresolved, k);
  }

  lemma {:induction false} SlideRepresents(strict: bool, w: Window, unresolved: set<nat>) returns (k: nat)
    requires Represents(strict, w, unresolved)
    ensures Represents(strict, Slide(w), unresolved) && SlidTo(strict, w, Slide(w), unresolved, k)
    decreases Width(w)
  {
    HeadBit(strict, w, unresolved);
    if w.head != w.tail && !w.bits[w.head] {
      AdvanceRepresents(strict, w, unresolved);
      var k' := SlideRepresents(strict, Advance(w), unresolved);
      SlidStep(strict, w, Slide(w), unresolved, k');
      k := k' + 1;
    } else {
      k := 0;
      assert SeqAt(w.seqStart, 0) == w.seqStart;
    }
  }

  /** ath_tx_update_baw removes exactly one member, and slides only over numbers that are resolved. */
  lemma ResolveRepresents(strict: bool, w: Window, unresolved: set<nat>, x: nat) returns (k: nat)
    requires Represents(strict, w, unresolved) && x in unresolved
    ensures Represents(strict, Resolve(w, x), unresolved - {x})
    ensures SlidTo(strict, w, Resolve(w, x), unresolved - {x}, k)
  {
    ClearRepresents(strict, w, unresolved, x);
    k := SlideRepresents(strict, Clear(w, x), unresolved - {x});
  }

  /** Emptying the window counts its members, if strict exactly, and starts after its last number. */
  lemma {:induction false} FlushCounts(strict: bool, w: Window, unresolved: set<nat>)
    requires Represents(strict, w, unresolved)
    ensures Width(Flush(w).0) == 0
    ensures |unresolved| <= Flush(w).1 && (strict ==> Flush(w).1 == |unresolved|)
    ensures Flush(w).0.seqStart == SeqAt(w.seqStart, Width(w))
    decreases Width(w)
  {
    hide Represents, View;
    HeadBit(strict, w, unresolved);
    if w.head == w.tail {
      assert SeqAt(w.seqStart, 0) == w.seqStart;
    } else {
      FlushStep(strict, w, unresolved);
      FlushCounts(strict, Advance(w.(bits := w.bits[w.head := false])), unresolved - {w.seqStart});
      SeqAtAdd(w.seqStart, 1, Width(w) - 1);
    }
  }

  lemma ClearHead(w: Window)
    ensures Offset(w.seqStart, w.seqStart) == 0
    ensures Clear(w, w.seqStart) == w.(bits := w.bits[w.head := false])
  {
    assert Slot(w, 0) == w.head;
  }

  lemma RemoveOne<T>(s: set<T>, x: T)
    ensures |s| == |s - {x}| + if x in s then 1 else 0
  {
    if x in s { assert s == (s - {x}) + {x}; } else { assert s == s - {x}; }
  }

  lemma FlushStep(strict: bool, w: Window, unresolved: set<nat>)
    requires Represents(strict, w, unresolved) && w.head != w.tail
    ensures var v := Advance(w.(bits := w.bits[w.head := false]));
            && Represents(strict, v, unresolved - {w.seqStart}) && Width(v) == Width(w) - 1
            && v.seqStart == SeqAt(w.seqStart, 1)
    ensures |unresolved| <= |unresolved - {w.seqStart}| + if w.bits[w.head] then 1 else 0
    ensures strict ==> |unresolved| == |unresolved - {w.seqStart}| + if w.bits[w.head] then 1 else 0
  {
    hide Represents, View;
    HeadBit(strict, w, unresolved);
    RemoveOne(unresolved, w.seqStart);
    ClearHead(w);
    ClearRepresents(strict, w, unresolved, w.seqStart);
    AdvanceRepresents(strict, Clear(w, w.seqStart), unresolved - {w.seqStart});
  }

  lemma WidthStep(w: Window)
    requires w.head != w.tail
    ensures Width(Advance(w)) == Width(w) - 1
  {
    ViewAdvance(w);
  }

  /** The numbers whose bits are set between head and tail. */
  ghost function Members(w: Window): set<nat> {
    set o | 0 <= o < Width(w) && View(w)[o] :: SeqAt(w.seqStart, o)
  }

  lemma MembersExact(w: Window, unresolved: set<nat>)
    requires Represents(false, w, unresolved)
    ensures Represents(true, w, Members(w)) && unresolved <= Members(w)
    ensures Represents(true, w, unresolved) <==> unresolved == Members(w)
  {
    hide View, Offset, SeqAt, Width;
    forall x | x in unresolved ensures x in Members(w) {
      SeqAtOffset(w.seqStart, x);
    }
    forall x | x in Members(w)
      ensures x < SEQ_MAX && Offset(w.seqStart, x) < Width(w) && View(w)[Offset(w.seqStart, x)]
    {
      var o :| 0 <= o < Width(w) && View(w)[o] && SeqAt(w.seqStart, o) == x;
      OffsetSeqAt(w.seqStart, o);
    }
  }

  lemma SmallerSet<T>(a: set<T>, b: set<T>)
    requires a <= b
    ensures |a| <= |b| && (|a| == |b| <==> a == b)
  {
    assert b == a + (b - a);
  }

  /** Teardown's count is right exactly when the window is: a bit left behind is counted, and nothing completes it. */
  lemma FlushCountsIff(w: Window, unresolved: set<nat>)
    requires Represents(false, w, unresolved)
    ensures Flush(w).1 == |unresolved| <==> Represents(true, w, unresolved)
  {
    hide Represents, View, Members;
    MembersExact(w, unresolved);
    FlushCounts(true, w, Members(w));
    SmallerSet(unresolved, Members(w));
  }

  // ---------------------------------------------------------------------------------
  // The window as the firmware keeps it.

  class BlockAckWindow {
    var seqStart: nat
    var bawHead: int
    var bawTail: int
    const bitmap: array<bool>

    ghost predicate Valid()
      reads this
    {
      bitmap.Length == TID_MAX_BUFS && seqStart < SEQ_MAX
      && 0 <= bawHead < TID_MAX_BUFS && 0 <= bawTail < TID_MAX_BUFS
    }

    ghost function Abs(): (w: Window)
      requires Valid()
      reads this, bitmap
    {
      Slotted(seqStart, bawHead, bawTail, bitmap[..])
    }

    constructor ()
      ensures Valid() && fresh(bitmap) && Abs() == Fresh()
    {
      seqStart, bawHead, bawTail := 0, 0, 0;
      bitmap := new bool[TID_MAX_BUFS](_ => false);
    }

    method AddTo(seqno: nat, isRetried: bool)
      requires Valid()
      modifies this, bitmap
      ensures Valid() && Abs() == if isRetried then old(Abs()) else Add(old(Abs()), seqno)
    {
      if isRetried {
        return;
      }
      var index := Offset(seqStart, seqno);
      var cindex := (bawHead + index) % TID_MAX_BUFS;
      bitmap[cindex] := true;
      if index >= (bawTail - bawHead) % TID_MAX_BUFS {
        bawTail := cindex;
        bawTail := (bawTail + 1) % TID_MAX_BUFS;
      }
    }

    method Update(seqno: nat)
      requires Valid()
      modifies this, bitmap
      ensures Valid() && Abs() == Resolve(old(Abs()), seqno)
    {
      var index := Offset(seqStart, seqno);
      var cindex := (bawHead + index) % TID_MAX_BUFS;
      bitmap[cindex] := false;
      ghost var w := Abs();
      assert w == Clear(old(Abs()), seqno);
      while bawHead != bawTail && !bitmap[bawHead]
        invariant Valid() && Slide(Abs()) == Slide(w)
        decreases Width(Abs())
      {
        WidthStep(Abs());
        seqStart := (seqStart + 1) % SEQ_MAX;
        bawHead := (bawHead + 1) % TID_MAX_BUFS;
      }
    }

    /** The window-emptying loop of ath_tgt_tx_cleanup; incomp counts on from its old value. */
    method Empty(incomp0: int) returns (incomp: int)
      requires Valid()
      modifies this, bitmap
      ensures Valid() && Abs() == Flush(old(Abs())).0 && incomp == incomp0 + Flush(old(Abs())).1
    {
      incomp := incomp0;
      while bawHead != bawTail
        invariant Valid()
        invariant Flush(Abs()).0 == Flush(old(Abs())).0 && incomp + Flush(Abs()).1 == incomp0 + Flush(old(Abs())).1
        decreases Width(Abs())
      {
        ghost var w := Abs();
        if bitmap[bawHead] {
          incomp := incomp + 1;
          bitmap[bawHead] := false;
        }
        assert Abs() == w.(bits := w.bits[w.head := false]);
        WidthStep(Abs());
        bawHead := (bawHead + 1) % TID_MAX_BUFS;
        seqStart := (seqStart + 1) % SEQ_MAX;
        assert Abs() == Advance(w.(bits := w.bits[w.head := false]));
      }
    }
  }
}
