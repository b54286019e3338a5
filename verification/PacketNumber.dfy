/**
 The packet number of a node, written into the CCMP or TKIP header of each encrypted frame
 (sections 11.4.3.2 and 11.4.2.2 of IEEE 802.11-2012).
 */
module PacketNumber {
  import opened Frames

  type Byte = b: nat | b < 256

  const PN_LIMIT: nat := 0x1_0000_0000_0000

  /** The low byte of x. */
  function Low(x: nat): Byte {
    x % 256
  }

  /** b with the extended IV bit, 0x20, set. */
  function SetExtIv(b: Byte): Byte {
    if b / 32 % 2 == 1 then b else b + 32
  }

  predicate Encrypts(k: KeyType) {
    k == Aes || k == Tkip
  }

  /** The four bytes that hold the lower half, with the cipher's own bytes. */
  function First(k: KeyType, iv16: nat, keyId: Byte): seq<Byte> {
    if k == Aes then [Low(iv16), Low(iv16 / 256), 0, SetExtIv(keyId)]
    else [Low(iv16 / 256), SetExtIv(Low(iv16 / 256)) % 128, Low(iv16), SetExtIv(keyId)]
  }

  /** The four bytes that hold the upper half. */
  function Last(iv32: nat): seq<Byte> {
    var lo, hi := iv32 % 0x1_0000, iv32 / 0x1_0000;
    [Low(lo), Low(lo / 256), Low(hi), Low(hi / 256)]
  }

  /** The eight header bytes for packet number pn; the key identifier is already in the fourth. */
  function Header(k: KeyType, pn: nat, keyId: Byte): (h: seq<Byte>)
    ensures |h| == 8
  {
    var iv16 := pn % 0x1_0000;
    var iv32 := pn / 0x1_0000;
    First(k, iv16, keyId) + Last(iv32)
  }

  /** The number whose two bytes, lowest first, are the arguments. */
  function Joined(b0: nat, b1: nat): nat {
    b0 + 256 * b1
  }

  /** What a receiver reads back: PN0 to PN5 of CCMP, TSC0 to TSC5 of TKIP. */
  function Decode(k: KeyType, h: seq<Byte>): nat
    requires |h| == 8
  {
    (if k == Aes then Joined(h[0], h[1]) else Joined(h[2], h[0]))
    + 0x1_0000 * Joined(h[4], h[5]) + 0x1_0000_0000 * Joined(h[6], h[7])
  }

  lemma TwoBytes(x: nat)
    requires x < 0x1_0000
    ensures Joined(Low(x), Low(x / 256)) == x
  {}

  /**
   Reading a header back gives the packet number written, under either cipher. The extended IV bit is set beside the
   key identifier. Of CCMP the third byte is zero; of TKIP the second is the first with bit 5 set and bit 7 clear.
   */
  lemma HeaderRoundTrip(k: KeyType, pn: nat, keyId: Byte)
    requires Encrypts(k) && pn < PN_LIMIT
    ensures Decode(k, Header(k, pn, keyId)) == pn
    ensures Header(k, pn, keyId)[3] / 32 % 2 == 1
    ensures Header(k, pn, keyId)[3] / 64 == keyId / 64 && Header(k, pn, keyId)[3] % 32 == keyId % 32
    ensures var b := Header(k, pn, keyId);
      if k == Aes then b[2] == 0
      else b[1] < 128 && b[1] / 32 % 2 == 1 && b[1] % 32 == b[0] % 32 && b[1] / 64 == b[0] / 64 % 2
  {
    var iv32 := pn / 0x1_0000;
    TwoBytes(pn % 0x1_0000);
    TwoBytes(iv32 % 0x1_0000);
    TwoBytes(iv32 / 0x1_0000);
    ExtIv(keyId);
    ExtIvLow(Low(pn % 0x1_0000 / 256));
    hide Low, SetExtIv, Joined;
  }

  lemma ExtIv(b: Byte)
    ensures SetExtIv(b) / 32 % 2 == 1 && SetExtIv(b) / 64 == b / 64 && SetExtIv(b) % 32 == b % 32
  {}

  lemma ExtIvLow(b: Byte)
    ensures var c := SetExtIv(b) % 128; c / 32 % 2 == 1 && c % 32 == b % 32 && c / 64 == b / 64 % 2
  {
    var e := SetExtIv(b);
    ExtIv(b);
    hide SetExtIv;
    if e >= 128 { assert e % 128 == e - 128; } else { assert e % 128 == e; }
  }

  // ---------------------------------------------------------------------------------
  // The node

  /** The 48-bit counter, kept as a 16-bit and a 32-bit half. */
  class Node {
    var iv16: nat
    var iv32: nat

    ghost predicate Valid()
      reads this
    {
      iv16 < 0x1_0000 && iv32 < 0x1_0000_0000
    }

    ghost function Pn(): nat
      reads this
    {
      iv32 * 0x1_0000 + iv16
    }

    constructor ()
      ensures Valid() && Pn() == 0
    {
      iv16, iv32 := 0, 0;
    }

    /** Step the counter, carrying into the upper half. */
    method Next()
      requires Valid()
      modifies this
      ensures Valid() && Pn() == NextPn(old(Pn()))
    {
      iv16 := (iv16 + 1) % 0x1_0000;
      if iv16 == 0 {
        iv32 := (iv32 + 1) % 0x1_0000_0000;
      }
    }

    /**
     ieee80211_tgt_crypto_encap: the security header follows the 24-byte MAC header, moved by a QoS
     field, padded, or by a mesh control field.
     */
    method Encap(frame: array<Byte>, k: KeyType, qos: bool, mesh: bool)
      requires Valid() && (Encrypts(k) ==> frame.Length >= HeaderOffset(qos, mesh) + 8)
      modifies this, frame
      ensures Valid()
      ensures var o := HeaderOffset(qos, mesh);
        if Encrypts(k) then
          Pn() == NextPn(old(Pn()))
          && frame[..] == old(frame[..o]) + Header(k, Pn(), old(frame[o + 3])) + old(frame[o + 8..])
        else Pn() == old(Pn()) && frame[..] == old(frame[..])
    {
      var offset := 24;
      if qos {
        offset := offset + 4;
      }
      if mesh {
        offset := 32;
      }
      if Encrypts(k) {
        Next();
        PutHeader(frame, offset, k, iv16, iv32);
        hide First, Last;
        Halves(iv16, iv32);
      }
    }
  }

  /** Four bytes through the moving pointer. */
  method Put4(frame: array<Byte>, o: nat, b0: Byte, b1: Byte, b2: Byte, b3: Byte)
    requires o + 4 <= frame.Length
    modifies frame
    ensures frame[..] == old(frame[..o]) + [b0, b1, b2, b3] + old(frame[o + 4..])
  {
    frame[o], frame[o + 1], frame[o + 2], frame[o + 3] := b0, b1, b2, b3;
  }

  /** The header through the moving pointer; only the extended IV bit of the fourth byte is written. */
  method PutHeader(frame: array<Byte>, o: nat, k: KeyType, iv16: nat, iv32: nat)
    requires o + 8 <= frame.Length
    modifies frame
    ensures frame[..] == old(frame[..o]) + (First(k, iv16, old(frame[o + 3])) + Last(iv32)) + old(frame[o + 8..])
  {
    hide Low, SetExtIv;
    var keyId := frame[o + 3];
    if k == Aes {
      Put4(frame, o, Low(iv16), Low(iv16 / 256), 0, SetExtIv(keyId));
    } else {
      var b1 := Low(iv16 / 256);
      Put4(frame, o, b1, SetExtIv(b1) % 128, Low(iv16), SetExtIv(keyId));
    }
    var lo, hi := iv32 % 0x1_0000, iv32 / 0x1_0000;
    Put4(frame, o + 4, Low(lo), Low(lo / 256), Low(hi), Low(hi / 256));
  }

  function HeaderOffset(qos: bool, mesh: bool): nat {
    if mesh then 32 else if qos then 28 else 24
  }

  function NextPn(pn: nat): nat {
    (pn + 1) % PN_LIMIT
  }

  lemma Halves(iv16: nat, iv32: nat)
    requires iv16 < 0x1_0000
    ensures (iv32 * 0x1_0000 + iv16) % 0x1_0000 == iv16 && (iv32 * 0x1_0000 + iv16) / 0x1_0000 == iv32
  {}

  // ---------------------------------------------------------------------------------
  // Runs

  /** What one frame asks for: its cipher, and the key identifier its driver left in the fourth header byte. */
  datatype Asked = Asked(k: KeyType, keyId: Byte)

  /** A written header with its cipher. */
  datatype Sent = Sent(k: KeyType, header: seq<Byte>)

  /** The headers written by a run of encapsulations, the counter being pn before the first. */
  function Headers(pn: nat, asks: seq<Asked>): seq<Sent>
    decreases |asks|
  {
    if asks == [] then []
    else if Encrypts(asks[0].k) then
      [Sent(asks[0].k, Header(asks[0].k, NextPn(pn), asks[0].keyId))] + Headers(NextPn(pn), asks[1..])
    else Headers(pn, asks[1..])
  }

  lemma {:induction false} HeadersDecode(pn: nat, asks: seq<Asked>, i: nat)
    requires pn < PN_LIMIT && i < |Headers(pn, asks)|
    ensures var s := Headers(pn, asks)[i];
            Encrypts(s.k) && |s.header| == 8 && Decode(s.k, s.header) == (pn + i + 1) % PN_LIMIT
    decreases |asks|
  {
    hide Header, Decode;
    if !Encrypts(asks[0].k) {
      HeadersDecode(pn, asks[1..], i);
    } else if i == 0 {
      HeaderRoundTrip(asks[0].k, NextPn(pn), asks[0].keyId);
    } else {
      HeadersDecode(NextPn(pn), asks[1..], i - 1);
      Shift(pn, i);
    }
  }

  lemma Shift(pn: nat, i: nat)
    requires i > 0
    ensures (NextPn(pn) + (i - 1) + 1) % PN_LIMIT == (pn + i + 1) % PN_LIMIT
  {}

  /**
   Packet number uniqueness. In a run from reset, whatever the mix of ciphers and keys, header i decodes
   to i + 1 modulo 2^48: two headers carry the same number exactly when they are a multiple of 2^48
   apart, so with fewer than 2^48 the numbers strictly increase.
   */
  lemma PacketNumbersUnique(asks: seq<Asked>, i: nat, j: nat)
    requires i < j < |Headers(0, asks)|
    ensures var a, b := Headers(0, asks)[i], Headers(0, asks)[j];
      && |a.header| == 8 == |b.header|
      && (Decode(a.k, a.header) == Decode(b.k, b.header) <==> (j - i) % PN_LIMIT == 0)
      && (j < PN_LIMIT - 1 ==> Decode(a.k, a.header) < Decode(b.k, b.header))
  {
    hide Headers, Decode;
    HeadersDecode(0, asks, i);
    HeadersDecode(0, asks, j);
  }

  // ---------------------------------------------------------------------------------
  // The same run on the frames themselves

  /** The key type of a frame and what moves its header. */
  datatype Layout = Layout(k: KeyType, qos: bool, mesh: bool)

  ghost predicate Room(frames: seq<array<Byte>>, layouts: seq<Layout>) {
    |frames| == |layouts|
    && forall i :: 0 <= i < |frames| && Encrypts(layouts[i].k) ==>
         frames[i].Length >= HeaderOffset(layouts[i].qos, layouts[i].mesh) + 8
  }

  ghost function Asks(frames: seq<array<Byte>>, layouts: seq<Layout>): seq<Asked>
    requires Room(frames, layouts)
    reads frames
    decreases |frames|
  {
    if frames == [] then []
    else
      var l := layouts[0];
      [Asked(l.k, if Encrypts(l.k) then frames[0][HeaderOffset(l.qos, l.mesh) + 3] else 0)]
      + Asks(frames[1..], layouts[1..])
  }

  /** The security headers found in the encrypted frames, in order. */
  ghost function HeadersIn(frames: seq<array<Byte>>, layouts: seq<Layout>): seq<Sent>
    requires Room(frames, layouts)
    reads frames
    decreases |frames|
  {
    if frames == [] then []
    else
      var l := layouts[0];
      var o := HeaderOffset(l.qos, l.mesh);
      (if Encrypts(l.k) then [Sent(l.k, frames[0][o..o + 8])] else []) + HeadersIn(frames[1..], layouts[1..])
  }

  /** Frames encapsulated one after the other carry the headers of the run from the node's counter. */
  method EncapAll(node: Node, frames: seq<array<Byte>>, layouts: seq<Layout>)
    requires node.Valid() && Room(frames, layouts)
    requires forall i, j :: 0 <= i < j < |frames| ==> frames[i] != frames[j]
    modifies node, frames
    ensures node.Valid() && HeadersIn(frames, layouts) == Headers(old(node.Pn()), old(Asks(frames, layouts)))
    decreases |frames|
  {
    hide Header;
    if frames != [] {
      var l := layouts[0];
      ghost var o := HeaderOffset(l.qos, l.mesh);
      assert frames[0] !in frames[1..];
      node.Encap(frames[0], l.k, l.qos, l.mesh);
      assert Encrypts(l.k) ==> frames[0][..][o..o + 8] == Header(l.k, node.Pn(), old(frames[0][o + 3]));
      assert Asks(frames[1..], layouts[1..]) == old(Asks(frames[1..], layouts[1..]));
      EncapAll(node, frames[1..], layouts[1..]);
      assert Encrypts(l.k) ==> frames[0][..][o..o + 8] == frames[0][o..o + 8];
    }
  }
}
