/** The transmit buffer record and the constants of the data path. */
module Frames {

  /** Completion function stored in a buffer. */
  datatype Comp = Normal | Aggr | Bar

  datatype KeyType = Clear | Wep | Aes | Tkip | Wapi

  const WME_NUM_TID: nat := 8
  const WME_NUM_AC: nat := 4
  const NUM_TIDS: nat := 64

  /** A traffic identifier: eight for each of eight nodes. */
  type TidId = t: nat | t < NUM_TIDS

  /** An access category, and its hardware queue. */
  type Ac = q: nat | q < WME_NUM_AC

  /** A buffer in use: buf is the buffer's own identity (its descriptor), skb the frame it carries. */
  datatype Frame = Frame(buf: nat, skb: nat, tid: TidId, seqno: nat, retries: nat, isretried: bool,
                         comp: Comp, pktlen: nat, keytype: KeyType)

  const OWLMAX_RETRIES: nat := 10
  const OWLMAX_BAR_RETRIES: nat := 10
  const ATH_AGGR_MIN_QDEPTH: nat := 1

  /** Truncation to an unsigned 16-bit field. */
  function U16(x: nat): (r: nat) {
    x % 0x1_0000
  }

  /** TID_TO_WME_AC, with BE, BK, VI, VO numbered 0 to 3 */
  function QueueOf(tid: TidId): Ac {
    var tidno := tid % WME_NUM_TID;
    if tidno == 0 || tidno == 3 then 0
    else if tidno == 1 || tidno == 2 then 1
    else if tidno == 4 || tidno == 5 then 2
    else 3
  }

  /** User priorities 0 and 3 are best effort, 1 and 2 background, 4 and 5 video, 6 and 7 voice. */
  lemma QueueOfPriority(tid: TidId)
    ensures QueueOf(tid) == 0 <==> tid % 8 == 0 || tid % 8 == 3
    ensures QueueOf(tid) == 1 <==> tid % 8 == 1 || tid % 8 == 2
    ensures QueueOf(tid) == 2 <==> tid % 8 == 4 || tid % 8 == 5
    ensures QueueOf(tid) == 3 <==> tid % 8 == 6 || tid % 8 == 7
  {}
}
