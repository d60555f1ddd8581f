/** The bit fields of the control registers and the read-modify-writes that touch them. */
module Registers {
  import opened Words

  // ---------- register 0 of the DMA controller ----------

  const RESET: bv32 := 0x4
  const SG_ENABLE: bv32 := 0x8
  const KEYHOLE_READ: bv32 := 0x10
  const IRQ_ENABLE: bv32 := 0x1000

  /** `nSGBuf_` as the register sees it; a ring has at most nine descriptors. */
  function CountWord(n: nat): Octet
    requires n <= 9
  {
    [Octet(0), Octet(1), Octet(2), Octet(3), Octet(4), Octet(5), Octet(6), Octet(7), Octet(8), Octet(9)][n]
  }

  function SetBit(control: Reg, bit: bv32, enable: bool): Reg {
    Reg(if enable then control.bits | bit else control.bits & !bit)
  }

  /** `after` has the bit as asked and every other bit as `before`. */
  predicate BitIs(before: Reg, after: Reg, bit: bv32, enable: bool) {
    && after.bits & bit == (if enable then bit else 0)
    && after.bits & !bit == before.bits & !bit
  }

  lemma SetBitIs(control: Reg, bit: bv32, enable: bool)
    ensures BitIs(control, SetBit(control, bit, enable), bit, enable)
  {
  }

  function SetCoalescing(control: Reg, n: nat): Reg
    requires n <= 9
  {
    Reg(WithField(control.bits, CountWord(n)))
  }

  function WithField(control: bv32, c: Octet): bv32 {
    (0xff00ffff & control) | ((c.bits as bv32) << 16)
  }

  function Coalescing(control: Reg): bv32 {
    (control.bits >> 16) & 0xff
  }

  /** How many descriptors the engine retires before it interrupts. */
  function Threshold(control: Reg): nat {
    Coalescing(control) as nat
  }

  predicate IrqEnabled(control: Reg) {
    control.bits & IRQ_ENABLE != 0
  }

  lemma OperationalIrq(control: Reg)
    requires Operational(control)
    ensures IrqEnabled(control)
  {
  }

  /** Scatter-gather, keyhole reads and interrupts are all switched on, and no reset is pending. */
  predicate Operational(control: Reg) {
    control.bits & 0x101c == 0x1018
  }

  /** Writing the coalescing field makes the engine interrupt after that many descriptors ... */
  lemma CoalescingSet(control: Reg, n: nat)
    requires n <= 9
    ensures Threshold(SetCoalescing(control, n)) == n
  {
    FieldWritten(control.bits, CountWord(n));
    CountOf(n);
  }

  lemma CountOf(n: nat)
    requires n <= 9
    ensures (CountWord(n).bits as bv32) as nat == n
  {
    match n
    case 0 =>
    case 1 =>
    case 2 =>
    case 3 =>
    case 4 =>
    case 5 =>
    case 6 =>
    case 7 =>
    case 8 =>
    case _ =>
  }

  lemma FieldWritten(control: bv32, c: Octet)
    ensures (WithField(control, c) >> 16) & 0xff == c.bits as bv32
  {
  }

  /** All bits outside the coalescing field are the same. */
  predicate SameRest(a: Reg, b: Reg) {
    b.bits & 0xff00ffff == a.bits & 0xff00ffff
  }

  /** ... and nothing else: the other bits stay as they are ... */
  lemma CoalescingKeepsRest(control: Reg, n: nat)
    requires n <= 9
    ensures SameRest(control, SetCoalescing(control, n))
  {
    RestKept(control, CountWord(n), SetCoalescing(control, n));
  }

  lemma RestKept(control: Reg, c: Octet, after: Reg)
    requires after == Reg(WithField(control.bits, c))
    ensures SameRest(control, after)
  {
  }

  /** ... in particular the switches. */
  lemma CoalescingKeepsSwitches(control: Reg, n: nat)
    requires n <= 9
    ensures Operational(SetCoalescing(control, n)) == Operational(control)
  {
    SwitchesKept(control.bits, CountWord(n));
  }

  lemma SwitchesKept(control: bv32, c: Octet)
    ensures WithField(control, c) & 0x101c == control & 0x101c
  {
  }

  /** From a register whose reset bit has cleared itself, the constructor's three switches make it operational. */
  lemma SwitchedOn(control: Reg, sg: Reg, keyhole: Reg, irq: Reg)
    requires control.bits & RESET == 0
    requires BitIs(control, sg, SG_ENABLE, true)
    requires BitIs(sg, keyhole, KEYHOLE_READ, true)
    requires BitIs(keyhole, irq, IRQ_ENABLE, true)
    ensures Operational(irq)
  {
    SwitchBits(control.bits, sg.bits, keyhole.bits, irq.bits);
  }

  lemma SwitchBits(a: bv32, b: bv32, c: bv32, d: bv32)
    requires a & 0x4 == 0
    requires b & 0x8 == 0x8 && b & !0x8 == a & !0x8
    requires c & 0x10 == 0x10 && c & !0x10 == b & !0x10
    requires d & 0x1000 == 0x1000 && d & !0x1000 == c & !0x1000
    ensures d & 0x101c == 0x1018
  {
  }

  // ---------- register 0 of the readout ----------

  const READ_RESET: bv32 := 0x1
  const READ_ENABLE: bv32 := 0x2

  predicate Reading(r: Reg) {
    r.bits & READ_ENABLE != 0
  }

  /** `after` has the reset bit set and every other bit as `before`. */
  predicate ResetSet(before: Reg, after: Reg) {
    BitIs(before, after, READ_RESET, true)
  }

  lemma ReadWords(enable: bool)
    ensures Reading(Reg(if enable then 0x2 else 0x0)) <==> enable
  {
  }

  function WithReset(r: Reg): Reg {
    SetBit(r, READ_RESET, true)
  }

  predicate HasReset(r: Reg) {
    r.bits & 0x1 != 0
  }

  lemma ResetShows(r: Reg)
    ensures HasReset(WithReset(r))
    ensures WithReset(Reg(0x0)) == Reg(0x1)
  {
  }

  lemma ResetSets(r: Reg)
    ensures ResetSet(r, WithReset(r))
  {
  }

  // ---------- register 1 of the conversion front end ----------

  function WriteWord(chanMask: Octet, range: Octet, mode: bool): Reg {
    Reg((chanMask.bits as bv32 & 0xff) | ((if mode then 1 else 0) << 8) | ((range.bits as bv32 & 0x7) << 16))
  }

  function SetModeBits(w: bv32, mode: bool): bv32 {
    if mode then 0x100 | w else !0x100 & w
  }

  function SetMode(w: Reg, mode: bool): Reg {
    Reg(SetModeBits(w.bits, mode))
  }

  predicate ModeClear(w: Reg) {
    w.bits & 0x100 == 0
  }

  function ChanField(w: Reg): bv32 {
    w.bits & 0xff
  }

  function RangeField(w: Reg): bv32 {
    (w.bits >> 16) & 0x7
  }

  /** A freshly configured word has the mode bit as asked, holds the masked fields, and nothing else. */
  lemma WriteWordFields(chanMask: Octet, range: Octet, mode: bool)
    ensures ModeClear(WriteWord(chanMask, range, mode)) <==> !mode
    ensures ChanField(WriteWord(chanMask, range, mode)) == chanMask.bits as bv32
    ensures RangeField(WriteWord(chanMask, range, mode)) == range.bits as bv32 & 0x7
    ensures WriteWord(chanMask, range, mode).bits & 0xfff8fe00 == 0
  {
  }

  lemma ModeBits(w: bv32, mode: bool)
    ensures SetModeBits(w, mode) & 0x100 == if mode then 0x100 else 0
    ensures SetModeBits(w, mode) & 0xff == w & 0xff
    ensures (SetModeBits(w, mode) >> 16) & 0x7 == (w >> 16) & 0x7
  {
  }

  lemma ModeRest(w: bv32, mode: bool)
    ensures SetModeBits(w, mode) & 0xfffffeff == w & 0xfffffeff
  {
  }

  lemma ModeBitsRoundTrip(w: bv32)
    requires w & 0x100 == 0
    ensures SetModeBits(w, false) == w
    ensures SetModeBits(SetModeBits(w, true), false) == w
  {
    ModeBitBack(w);
  }

  lemma ModeBitBack(w: bv32)
    ensures !0x100 & (0x100 | w) == !0x100 & w
    ensures w & 0x100 == 0 ==> !0x100 & w == w
  {
  }

  /** Switching the mode off undoes switching it on. */
  lemma ModeRoundTrip(w: Reg)
    requires ModeClear(w)
    ensures SetMode(w, false) == w
    ensures SetMode(SetMode(w, true), false) == w
  {
    ModeBitsRoundTrip(w.bits);
  }

  /** Switching the mode switches the mode bit and keeps both fields ... */
  lemma ModeFrame(w: Reg, mode: bool)
    ensures ModeClear(SetMode(w, mode)) <==> !mode
    ensures ChanField(SetMode(w, mode)) == ChanField(w)
    ensures RangeField(SetMode(w, mode)) == RangeField(w)
  {
    ModeBits(w.bits, mode);
  }

  /** ... and every other bit is as before. */
  lemma ModeKeepsRest(w: Reg, mode: bool)
    ensures SetMode(w, mode).bits & 0xfffffeff == w.bits & 0xfffffeff
  {
    ModeRest(w.bits, mode);
  }
}
