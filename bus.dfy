/*
 * The I2C traffic between the driver and the chip, at the level of whole
 * transactions on the chip's direct-access address.  The START/STOP and
 * acknowledge handshakes of the peripheral library are not modelled; what
 * is kept is which register is addressed and which bytes go over the wire,
 * in which order.
 */
module Bus {
  import opened BitField
  import opened Arith
  import Reg0A

  /** The two bytes the chip sends back for a register read, in arrival order. */
  datatype Reply = Reply(first: Byte, second: Byte)

  /** One transaction of `registerWrite` or of `getStatus`. */
  datatype Transfer =
    | Write(reg: Byte, hi: Byte, lo: Byte)
    | Read(reg: Byte, first: Byte, second: Byte)

  /**
   * `registerWrite(reg, value)`: the register number, then the high byte,
   * then the low byte of `value`.
   */
  function WriteFrame(reg: Byte, value: Word): (t: Transfer)
    ensures t.Write? && t.reg == reg
    ensures t.hi * 256 + t.lo == value
  {
    Write(reg, value / 256, value % 256)
  }

  /** A frame with bytes `hi`, `lo` is the write of `value` exactly when `hi * 256 + lo` is `value`. */
  lemma WriteFrameBytes(reg: Byte, value: Word, hi: Byte, lo: Byte)
    ensures WriteFrame(reg, value) == Write(reg, hi, lo) <==> hi * 256 + lo == value
  {
    if hi * 256 + lo == value {
      DivModUnique(value, 256, hi, lo);
    }
  }

  /**
   * `I2C_Read` stores the first byte received in the low half of the
   * little-endian `wordToByte` union and the second in the high half.
   */
  function ReplyWord(r: Reply): (w: Word)
    ensures w % 256 == r.first && w / 256 == r.second
  {
    r.second * 256 + r.first
  }

  /** The reply in which the chip sends `w`. */
  function WordReply(w: Word): Reply {
    Reply(w % 256, w / 256)
  }

  /** Assembling a reply is a bijection between replies and words. */
  lemma ReplyWordRoundTrip(r: Reply, w: Word)
    ensures WordReply(ReplyWord(r)) == r
    ensures ReplyWord(WordReply(w)) == w
  {
  }

  /** The frame `getStatus(reg)` leaves on the bus: the register pointer, then the chip's two bytes. */
  function ReadFrame(reg: Byte, r: Reply): Transfer {
    Read(reg, r.first, r.second)
  }

  /** A register 0x0A word with Seek/Tune Complete (bit 14) set. */
  predicate StcSet(w: Word) {
    (w / 16384) % 2 == 1
  }

  /** `StcSet` reads the STC field of the register 0x0A layout. */
  lemma StcSetIsField(w: Word)
    ensures StcSet(w) <==> Get(w, Reg0A.STC) == 1
  {
    Pow2Table();
  }

  /** The reply reads as a register 0x0A word with Seek/Tune Complete set. */
  predicate HasStc(r: Reply) {
    StcSet(ReplyWord(r))
  }

  /** STC is bit 6 of the second byte received. */
  lemma HasStcBit(r: Reply)
    ensures HasStc(r) <==> (r.second / 64) % 2 == 1
  {
    DivModNested(ReplyWord(r), 256, 64);
  }

  /** The reads of register 0x0A made while polling replies `lo` up to, not including, `hi`. */
  function PollTrace(replies: nat -> Reply, lo: nat, hi: nat): (ts: seq<Transfer>)
    requires lo <= hi
    ensures |ts| == hi - lo
    decreases hi
  {
    if lo == hi then [] else PollTrace(replies, lo, hi - 1) + [ReadFrame(0x0A, replies(hi - 1))]
  }

  /** The i-th read of a poll carries the i-th reply of the poll. */
  lemma {:induction false} PollTraceAt(replies: nat -> Reply, lo: nat, hi: nat, i: nat)
    requires lo <= hi && i < hi - lo
    ensures PollTrace(replies, lo, hi)[i] == ReadFrame(0x0A, replies(lo + i))
    decreases hi
  {
    if i < hi - 1 - lo {
      PollTraceAt(replies, lo, hi - 1, i);
    }
  }
}
