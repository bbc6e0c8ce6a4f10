/** The Dazzler command protocol as pure functions: what one packet at the
    head of the receive ring does to the control registers, to video memory,
    to the reply stream and to the DAC. The Dazzler class in module Dazzler is
    proved to behave exactly as PacketStep says.

    A packet is a header byte whose high nibble is the command, followed by
    its payload. When the ring runs dry inside a packet the source waits for
    the host; here no further input arrives, so the packet stops at that point
    with the effects made so far and is reported as blocked. */
module Protocol {
  import opened Bytes
  import opened Vram

  const DAZ_MEMBYTE := 0x10
  const DAZ_FULLFRAME := 0x20
  const DAZ_CTRL := 0x30
  const DAZ_CTRLPIC := 0x40
  const DAZ_DAC := 0x50
  const DAZ_VERSION := 0xF0

  const DAZZLER_VERSION: bv8 := 0x02

  /** Feature bits announced in the second byte of the VERSION reply. */
  const FEAT_VIDEO: bv8 := 0x01
  const FEAT_JOYSTICK: bv8 := 0x02
  const FEAT_DUAL_BUF: bv8 := 0x04
  const FEAT_VSYNC: bv8 := 0x08
  const FEAT_DAC: bv8 := 0x10
  const FEAT_KEYBOARD: bv8 := 0x20
  const FEAT_FRAMEBUF: bv8 := 0x40

  /** The reply to VERSION: the command with the protocol version in its low
      nibble, then the feature bits (every one but the framebuffer feature)
      and a zero byte. */
  const VERSION_REPLY: seq<byte> := [
    ((DAZ_VERSION as bv8) | (DAZZLER_VERSION & 0x0F)) as int,
    (FEAT_VIDEO | FEAT_DUAL_BUF | FEAT_JOYSTICK | FEAT_DAC | FEAT_VSYNC | FEAT_KEYBOARD) as int,
    0]

  /** The register state the dispatcher reads and writes. `active` is the
      framebuffer the host draws into and the display shows while on. */
  datatype Registers = Registers(ctrl: byte, pictureCtrl: byte, mode: VideoMode, palette: Palette, active: int)

  /** As initialised: both control bytes 0 but the mode 64x64 monochrome with
      the grey table, buffer 0 active. */
  const PowerOn := Registers(0, 0, Mono64x64, Greys, 0)

  /** `c & 0xF0`: the command of a header byte. */
  function Command(c: byte): (cmd: int)
    ensures cmd % 16 == 0 && 0 <= cmd < 256
    ensures cmd + LowNibble(c) == c
  {
    c / 16 * 16
  }

  /** usb_peekbyte: the next byte, or 0 when none is waiting. */
  function Peek(s: seq<byte>): (b: byte)
    ensures s != [] ==> b == s[0]
    ensures Command(b) != 0 ==> s != []
  {
    if s == [] then 0 else s[0]
  }

  /** The buffer the scan-out shows from the next frame on: the active buffer
      while bit 7 of the control register (Dazzler on) is set, otherwise the
      blank third buffer. */
  function DisplayBuffer(r: Registers): (b: int)
    ensures Bit(r.ctrl, 7) ==> b == r.active
    ensures !Bit(r.ctrl, 7) ==> b == 2
  {
    if Bit(r.ctrl, 7) then r.active else 2
  }

  // ---------------------------------------------------------------------
  // The two control registers
  // ---------------------------------------------------------------------

  /** What daz_ctrl leaves behind: new registers, the buffer it selects, and
      how many payload bytes it read. */
  datatype CtrlResult = CtrlResult(regs: Registers, fb: int, used: nat)

  /** What daz_ctrlpic leaves behind: new registers, whether the picture
      control changed, and how many payload bytes it read. */
  datatype PicResult = PicResult(regs: Registers, changed: bool, used: nat)

  /** daz_ctrl with header c and the bytes after it: a header with a zero low
      nibble carries the new control byte. The selected buffer is bit 0 of
      that byte when the byte is new and has bit 7 (on) set, and otherwise the
      buffer already active. None: the payload byte is missing. */
  function DazCtrl(r: Registers, c: byte, input: seq<byte>): (o: Option<CtrlResult>)
    ensures o.None? <==> LowNibble(c) == 0 && input == []
    ensures o.Some? ==> o.value.used <= |input| && o.value.regs == r.(ctrl := o.value.regs.ctrl)
    ensures o.Some? ==> (o.value.used == 1 <==> LowNibble(c) == 0)
    ensures o.Some? && LowNibble(c) == 0 ==> o.value.regs.ctrl == input[0] && o.value.used == 1
    ensures o.Some? && LowNibble(c) != 0 ==> o.value == CtrlResult(r, r.active, 0)
  {
    if LowNibble(c) == 0 then
      if input == [] then None
      else
        var v := input[0];
        Some(CtrlResult(r.(ctrl := v), if v != r.ctrl && Bit(v, 7) then v % 2 else r.active, 1))
    else
      Some(CtrlResult(r, r.active, 0))
  }

  /** daz_ctrlpic with header c and the bytes after it: a header with a zero
      low nibble carries the new picture-control byte; only when it differs
      from the old one are the mode (bits 6, 5) and the colour table (bit 4)
      set from it, and only then does it report a change. */
  function DazCtrlPic(r: Registers, c: byte, input: seq<byte>): (o: Option<PicResult>)
    ensures o.None? <==> LowNibble(c) == 0 && input == []
    ensures o.Some? ==> o.value.used <= |input| && (o.value.used == 1 <==> LowNibble(c) == 0)
    ensures o.Some? ==> o.value.regs.ctrl == r.ctrl && o.value.regs.active == r.active
  {
    if LowNibble(c) == 0 then
      if input == [] then None
      else
        var p := input[0];
        if p != r.pictureCtrl then
          Some(PicResult(r.(pictureCtrl := p, mode := ModeOf(p), palette := PaletteOf(p)), true, 1))
        else
          Some(PicResult(r, false, 1))
    else
      Some(PicResult(r, false, 0))
  }

  /** The buffer daz_ctrl selects changes only when a new control byte with
      bit 7 set arrives, and then it is bit 0 of that byte. */
  lemma CtrlSelectsBuffer(r: Registers, c: byte, input: seq<byte>)
    requires DazCtrl(r, c, input).Some?
    ensures var o := DazCtrl(r, c, input).value;
      (LowNibble(c) == 0 && input[0] != r.ctrl && Bit(input[0], 7) ==> o.fb == input[0] % 2) &&
      (!(LowNibble(c) == 0 && input[0] != r.ctrl && Bit(input[0], 7)) ==> o.fb == r.active)
  {
  }

  /** daz_ctrlpic reports a change exactly when the header has a zero low
      nibble and the payload differs from the old picture control; then the
      mode, table and foreground all follow the payload, and otherwise nothing
      changes. */
  lemma CtrlPicChangesMode(r: Registers, c: byte, input: seq<byte>)
    requires DazCtrlPic(r, c, input).Some?
    ensures var o := DazCtrlPic(r, c, input).value;
      (o.changed <==> LowNibble(c) == 0 && input[0] != r.pictureCtrl) &&
      (o.changed ==> o.regs.pictureCtrl == input[0] && o.regs.mode == ModeOf(input[0]) &&
                     o.regs.palette == PaletteOf(input[0]) && Foreground(o.regs.pictureCtrl) == input[0] % 16) &&
      (!o.changed ==> o.regs == r)
  {
  }

  // ---------------------------------------------------------------------
  // One packet
  // ---------------------------------------------------------------------

  /** What a packet does to video memory: nothing, store bytes at
      consecutive addresses from `start` in raw buffer `buffer` (drawing each
      cell), or redraw `buffer` from its raw memory. */
  datatype VramOp = NoVram | Store(buffer: int, start: int, values: seq<byte>) | Refresh(buffer: int)

  /** One sample handed to audio_add_sample. */
  datatype DacSample = DacSample(channel: int, delay: bv16, sample: bv8)

  /** The whole effect of one packet: the registers after it, its video
      memory operation (done under the new registers), the bytes sent back,
      the DAC sample queued, how many input bytes it consumed, and whether it
      ran out of input. */
  datatype Outcome = Outcome(regs: Registers, vram: VramOp, reply: seq<byte>, dac: Option<DacSample>, used: nat, blocked: bool)

  /** A packet that changes nothing but consumes `used` bytes. */
  function Quiet(r: Registers, used: nat, blocked: bool): (o: Outcome)
  {
    Outcome(r, NoVram, [], None, used, blocked)
  }

  /** The CTRL case after daz_ctrl, given the registers it left, the buffer
      it selected and the bytes after its payload. A CTRLPIC header there is
      taken as a partner: the selected buffer is redrawn only if the picture
      control changed. Without a partner the selected buffer is always
      redrawn. The selected buffer becomes active. `used` counts the bytes
      taken from `after`. */
  function CtrlFollowUp(r: Registers, fb: int, after: seq<byte>): (o: Outcome)
    requires 0 <= fb < 2
    ensures o.used <= |after| && (o.blocked ==> o.used == |after| && o.regs == r)
    ensures !o.blocked ==> o.regs.active == fb && o.regs.ctrl == r.ctrl
    ensures o.reply == [] && o.dac == None && (o.vram.NoVram? || o.vram == Refresh(fb))
  {
    if Command(Peek(after)) == DAZ_CTRLPIC then
      match DazCtrlPic(r, after[0], after[1..])
      case None => Quiet(r, 1, true)
      case Some(pr) => Outcome(pr.regs.(active := fb), if pr.changed then Refresh(fb) else NoVram, [], None, 1 + pr.used, false)
    else
      Outcome(r.(active := fb), Refresh(fb), [], None, 0, false)
  }

  /** CTRL: daz_ctrl with header c, then its follow-up. */
  function CtrlPacket(r: Registers, c: byte, rest: seq<byte>): (o: Outcome)
    requires 0 <= r.active < 2
    ensures 1 <= o.used <= 1 + |rest| && (o.blocked ==> o.used == 1 + |rest|)
    ensures 0 <= o.regs.active < 2 && o.reply == [] && o.dac == None
    ensures o.vram.NoVram? || (o.vram.Refresh? && o.vram.buffer == o.regs.active)
  {
    match DazCtrl(r, c, rest)
    case None => Quiet(r, 1, true)
    case Some(cr) =>
      var t := CtrlFollowUp(cr.regs, cr.fb, rest[cr.used..]);
      t.(used := 1 + cr.used + t.used)
  }

  /** A CTRL packet whose payload arrived is its follow-up on the bytes
      after the payload, counted from the header. */
  lemma CtrlPacketUnfold(r: Registers, c: byte, rest: seq<byte>)
    requires 0 <= r.active < 2 && DazCtrl(r, c, rest).Some?
    ensures var cr := DazCtrl(r, c, rest).value;
      var t := CtrlFollowUp(cr.regs, cr.fb, rest[cr.used..]);
      CtrlPacket(r, c, rest) == t.(used := 1 + cr.used + t.used) &&
      ([c] + rest)[1 + cr.used..][t.used..] == ([c] + rest)[1 + cr.used + t.used..]
  {
    var cr := DazCtrl(r, c, rest).value;
    var t := CtrlFollowUp(cr.regs, cr.fb, rest[cr.used..]);
    assert ([c] + rest)[1 + cr.used..] == rest[cr.used..];
  }

  /** The CTRLPIC case after daz_ctrlpic, given the registers it left,
      whether the picture control changed and the bytes after its payload. A
      CTRL header there is taken as a partner and selects the buffer;
      otherwise the active buffer stays. The buffer is redrawn only if the
      picture control changed. `used` counts the bytes taken from `after`. */
  function CtrlPicFollowUp(r: Registers, changed: bool, after: seq<byte>): (o: Outcome)
    requires 0 <= r.active < 2
    ensures o.used <= |after| && (o.blocked ==> o.used == |after| && o.regs == r)
    ensures 0 <= o.regs.active < 2 && o.regs.pictureCtrl == r.pictureCtrl && o.regs.mode == r.mode && o.regs.palette == r.palette
    ensures o.reply == [] && o.dac == None
    ensures !o.blocked ==> o.vram == if changed then Refresh(o.regs.active) else NoVram
  {
    if Command(Peek(after)) == DAZ_CTRL then
      match DazCtrl(r, after[0], after[1..])
      case None => Quiet(r, 1, true)
      case Some(cr) => Outcome(cr.regs.(active := cr.fb), if changed then Refresh(cr.fb) else NoVram, [], None, 1 + cr.used, false)
    else
      Outcome(r, if changed then Refresh(r.active) else NoVram, [], None, 0, false)
  }

  /** CTRLPIC: daz_ctrlpic with header c, then its follow-up. */
  function CtrlPicPacket(r: Registers, c: byte, rest: seq<byte>): (o: Outcome)
    requires 0 <= r.active < 2
    ensures 1 <= o.used <= 1 + |rest| && (o.blocked ==> o.used == 1 + |rest|)
    ensures 0 <= o.regs.active < 2 && o.reply == [] && o.dac == None
    ensures o.vram.NoVram? || (o.vram.Refresh? && o.vram.buffer == o.regs.active)
  {
    match DazCtrlPic(r, c, rest)
    case None => Quiet(r, 1, true)
    case Some(pr) =>
      var t := CtrlPicFollowUp(pr.regs, pr.changed, rest[pr.used..]);
      t.(used := 1 + pr.used + t.used)
  }

  /** MEMBYTE: bit 3 of the header picks the buffer, bits 2..0 the high byte
      of the address; the low byte and the value follow. */
  function MemBytePacket(r: Registers, c: byte, rest: seq<byte>): (o: Outcome)
    ensures 1 <= o.used <= 1 + |rest| && (o.blocked ==> o.used == 1 + |rest|)
    ensures o.regs == r && o.reply == [] && o.dac == None
    ensures o.vram.NoVram? || (o.vram.Store? && 0 <= o.vram.buffer < 2 && 0 <= o.vram.start && o.vram.start + |o.vram.values| <= VRAM_SIZE)
  {
    if |rest| < 2 then Quiet(r, 1 + |rest|, true)
    else Outcome(r, Store(if Bit(c, 3) then 1 else 0, (c % 8) * 256 + rest[0], [rest[1]]), [], None, 3, false)
  }

  /** FULLFRAME: only when bits 2 and 1 of the header are clear; bit 3 picks
      the buffer and bit 0 the length (2048 bytes, else 512), stored from
      address 0. */
  function FullFramePacket(r: Registers, c: byte, rest: seq<byte>): (o: Outcome)
    ensures 1 <= o.used <= 1 + |rest| && (o.blocked ==> o.used == 1 + |rest|)
    ensures o.regs == r && o.reply == [] && o.dac == None
    ensures o.vram.NoVram? || (o.vram.Store? && 0 <= o.vram.buffer < 2 && 0 <= o.vram.start && o.vram.start + |o.vram.values| <= VRAM_SIZE)
  {
    if (c / 2) % 4 == 0 then
      var b := if Bit(c, 3) then 1 else 0;
      var count := if c % 2 == 1 then VRAM_SIZE else 512;
      if |rest| < count then Outcome(r, Store(b, 0, rest), [], None, 1 + |rest|, true)
      else Outcome(r, Store(b, 0, rest[..count]), [], None, 1 + count, false)
    else
      Quiet(r, 1, false)
  }

  /** DAC: a zero low nibble means channel 0, anything else channel 1; then a
      16-bit delay in microseconds, low byte first (the source reads the two
      bytes as the operands of one `|`, whose evaluation order C leaves
      unspecified; the model takes the left operand first), then the sample. */
  function DacPacket(r: Registers, c: byte, rest: seq<byte>): (o: Outcome)
    ensures 1 <= o.used <= 1 + |rest| && (o.blocked ==> o.used == 1 + |rest|)
    ensures o.regs == r && o.reply == [] && o.vram == NoVram
  {
    if |rest| < 3 then Quiet(r, 1 + |rest|, true)
    else Outcome(r, NoVram, [], Some(DacOf(c, rest[0], rest[1], rest[2])), 4, false)
  }

  /** The sample a DAC header c with operand bytes lo, hi and s hands to the
      audio engine: channel 0 for a zero low nibble and 1 otherwise, the delay
      `lo | hi << 8` as an unsigned 16-bit value, and the sample byte. */
  function DacOf(c: byte, lo: byte, hi: byte, s: byte): (d: DacSample)
    ensures d.channel == (if LowNibble(c) == 0 then 0 else 1)
    ensures (d.delay & 0xFF) as bv8 == lo as bv8 && (d.delay >> 8) as bv8 == hi as bv8
    ensures d.sample == s as bv8
  {
    var low, high := lo as bv8, hi as bv8;
    DacSample(if LowNibble(c) == 0 then 0 else 1, (low as bv16) | ((high as bv16) << 8), s as bv8)
  }

  /** One pass of the dispatcher's switch over the waiting bytes `input`
      (the loop only enters it when a byte is waiting): the header's high
      nibble picks the case; VERSION answers with the version reply and
      commands without a case are consumed and ignored. */
  function PacketStep(r: Registers, input: seq<byte>): (o: Outcome)
    requires input != [] && 0 <= r.active < 2
    ensures 1 <= o.used <= |input| && (o.blocked ==> o.used == |input|)
    ensures 0 <= o.regs.active < 2
    ensures o.reply != [] ==> Command(input[0]) == DAZ_VERSION
    ensures o.dac.Some? ==> Command(input[0]) == DAZ_DAC
    ensures o.vram.Store? ==>
      (Command(input[0]) == DAZ_MEMBYTE || Command(input[0]) == DAZ_FULLFRAME) &&
      0 <= o.vram.buffer < 2 && 0 <= o.vram.start && o.vram.start + |o.vram.values| <= VRAM_SIZE
    ensures o.vram.Refresh? ==> o.vram.buffer == o.regs.active
    ensures o.regs != r ==> Command(input[0]) == DAZ_CTRL || Command(input[0]) == DAZ_CTRLPIC
  {
    var c, rest := input[0], input[1..];
    var cmd := Command(c);
    if cmd == DAZ_VERSION then Outcome(r, NoVram, VERSION_REPLY, None, 1, false)
    else if cmd == DAZ_CTRL then CtrlPacket(r, c, rest)
    else if cmd == DAZ_CTRLPIC then CtrlPicPacket(r, c, rest)
    else if cmd == DAZ_MEMBYTE then MemBytePacket(r, c, rest)
    else if cmd == DAZ_FULLFRAME then FullFramePacket(r, c, rest)
    else if cmd == DAZ_DAC then DacPacket(r, c, rest)
    else Quiet(r, 1, false)
  }

  // ---------------------------------------------------------------------
  // Properties of single packets
  // ---------------------------------------------------------------------

  /** A CTRL packet not followed by a CTRLPIC header always redraws the buffer
      it selects, even when the control byte did not change. */
  lemma LoneCtrlAlwaysRefreshes(r: Registers, c: byte, v: byte, tail: seq<byte>)
    requires 0 <= r.active < 2 && Command(c) == DAZ_CTRL && LowNibble(c) == 0
    requires Command(Peek(tail)) != DAZ_CTRLPIC
    ensures var o := PacketStep(r, [c, v] + tail);
      var fb := if v != r.ctrl && Bit(v, 7) then v % 2 else r.active;
      o == Outcome(r.(ctrl := v, active := fb), Refresh(fb), [], None, 2, false)
  {
    var input := [c, v] + tail;
    assert input[1..] == [v] + tail;
    assert input[1..][1..] == tail;
  }

  /** CTRL then CTRLPIC: one packet pair that applies both registers and
      redraws the buffer CTRL selected once, under the new mode, and only if
      the picture control changed; it consumes all four bytes. */
  lemma CtrlThenCtrlPic(r: Registers, c: byte, v: byte, c2: byte, p: byte, tail: seq<byte>)
    requires 0 <= r.active < 2 && Command(c) == DAZ_CTRL && LowNibble(c) == 0
    requires Command(c2) == DAZ_CTRLPIC && LowNibble(c2) == 0
    ensures var o := PacketStep(r, [c, v, c2, p] + tail);
      var fb := if v != r.ctrl && Bit(v, 7) then v % 2 else r.active;
      var changed := p != r.pictureCtrl;
      o.used == 4 && !o.blocked &&
      o.regs.ctrl == v && o.regs.pictureCtrl == p && o.regs.active == fb &&
      o.regs.mode == (if changed then ModeOf(p) else r.mode) &&
      o.regs.palette == (if changed then PaletteOf(p) else r.palette) &&
      o.vram == (if changed then Refresh(fb) else NoVram)
  {
    var input := [c, v, c2, p] + tail;
    assert input[1..] == [v, c2, p] + tail;
    assert input[1..][1..] == [c2, p] + tail;
    assert input[1..][1..][1..] == [p] + tail;
  }

  /** CTRLPIC then CTRL: the buffer CTRL selects is redrawn once, under the
      new mode, and only if the picture control changed. */
  lemma CtrlPicThenCtrl(r: Registers, c: byte, p: byte, c2: byte, v: byte, tail: seq<byte>)
    requires 0 <= r.active < 2 && Command(c) == DAZ_CTRLPIC && LowNibble(c) == 0
    requires Command(c2) == DAZ_CTRL && LowNibble(c2) == 0
    ensures var o := PacketStep(r, [c, p, c2, v] + tail);
      var fb := if v != r.ctrl && Bit(v, 7) then v % 2 else r.active;
      var changed := p != r.pictureCtrl;
      o.used == 4 && !o.blocked &&
      o.regs.ctrl == v && o.regs.pictureCtrl == p && o.regs.active == fb &&
      o.regs.mode == (if changed then ModeOf(p) else r.mode) &&
      o.vram == (if changed then Refresh(fb) else NoVram)
  {
    var input := [c, p, c2, v] + tail;
    assert input[1..] == [p, c2, v] + tail;
    assert input[1..][1..] == [c2, v] + tail;
    assert input[1..][1..][1..] == [v] + tail;
  }

  /** A CTRLPIC without a CTRL partner redraws the active buffer exactly when
      the picture control changed, and never changes the active buffer. */
  lemma LoneCtrlPic(r: Registers, c: byte, p: byte, tail: seq<byte>)
    requires 0 <= r.active < 2 && Command(c) == DAZ_CTRLPIC && LowNibble(c) == 0
    requires Command(Peek(tail)) != DAZ_CTRL
    ensures var o := PacketStep(r, [c, p] + tail);
      o.used == 2 && !o.blocked && o.regs.active == r.active && o.regs.pictureCtrl == p &&
      (o.vram == Refresh(r.active) <==> p != r.pictureCtrl) &&
      (o.vram == NoVram <==> p == r.pictureCtrl)
  {
    var input := [c, p] + tail;
    assert input[1..] == [p] + tail;
    assert input[1..][1..] == tail;
  }

  /** After a complete CTRL packet, the display shows bit 0 of a new control
      byte with bit 7 set, and the blank buffer when bit 7 is clear. */
  lemma CtrlSwitchesDisplay(r: Registers, c: byte, v: byte, tail: seq<byte>)
    requires 0 <= r.active < 2 && Command(c) == DAZ_CTRL && LowNibble(c) == 0
    requires !PacketStep(r, [c, v] + tail).blocked
    ensures var o := PacketStep(r, [c, v] + tail);
      (Bit(v, 7) && v != r.ctrl ==> DisplayBuffer(o.regs) == v % 2) &&
      (!Bit(v, 7) ==> DisplayBuffer(o.regs) == 2)
  {
    var input := [c, v] + tail;
    assert input[1..] == [v] + tail;
    assert input[1..][1..] == tail;
    if Command(Peek(tail)) == DAZ_CTRLPIC {
      assert tail != [];
      assert input[1..][1..][1..] == tail[1..];
    }
  }

  /** MEMBYTE stores one byte at address (c & 7) * 256 + the next byte in the
      buffer picked by bit 3, and changes nothing else. */
  lemma MemByteStores(r: Registers, c: byte, lo: byte, v: byte, tail: seq<byte>)
    requires 0 <= r.active < 2 && Command(c) == DAZ_MEMBYTE
    ensures var o := PacketStep(r, [c, lo, v] + tail);
      o == Outcome(r, Store(if Bit(c, 3) then 1 else 0, (c % 8) * 256 + lo, [v]), [], None, 3, false) &&
      (c % 8) * 256 + lo < VRAM_SIZE
  {
    var input := [c, lo, v] + tail;
    assert input[1..] == [lo, v] + tail;
  }

  /** FULLFRAME with bits 2 and 1 clear stores the next 2048 bytes (bit 0
      set) or 512 bytes from address 0 of the buffer picked by bit 3; with
      either bit set it consumes only its header. */
  lemma FullFrameStores(r: Registers, c: byte, data: seq<byte>)
    requires 0 <= r.active < 2 && Command(c) == DAZ_FULLFRAME
    ensures var o := PacketStep(r, [c] + data);
      var count := if c % 2 == 1 then 2048 else 512;
      ((c / 2) % 4 != 0 ==> o == Quiet(r, 1, false)) &&
      ((c / 2) % 4 == 0 && |data| >= count ==>
         o == Outcome(r, Store(if Bit(c, 3) then 1 else 0, 0, data[..count]), [], None, 1 + count, false))
  {
    assert ([c] + data)[1..] == data;
  }

  /** VERSION replies with exactly the three version bytes and changes
      nothing; no other packet replies. */
  lemma VersionReplies(r: Registers, input: seq<byte>)
    requires 0 <= r.active < 2 && input != []
    ensures Command(input[0]) == DAZ_VERSION ==> PacketStep(r, input) == Outcome(r, NoVram, [0xF2, 0x3F, 0x00], None, 1, false)
    ensures Command(input[0]) != DAZ_VERSION ==> PacketStep(r, input).reply == []
  {
  }

  /** Headers with command 0x00 or 0x60 to 0xE0 are consumed and ignored. */
  lemma UnknownIgnored(r: Registers, input: seq<byte>)
    requires 0 <= r.active < 2 && input != []
    requires Command(input[0]) == 0 || 0x60 <= Command(input[0]) <= 0xE0
    ensures PacketStep(r, input) == Quiet(r, 1, false)
  {
  }

  /** DAC hands channel (0 for a zero low nibble, else 1), the little-endian
      delay and the sample to the audio engine, and changes nothing else. */
  lemma DacQueues(r: Registers, c: byte, lo: byte, hi: byte, sample: byte, tail: seq<byte>)
    requires 0 <= r.active < 2 && Command(c) == DAZ_DAC
    ensures var o := PacketStep(r, [c, lo, hi, sample] + tail);
      o == Outcome(r, NoVram, [], Some(DacOf(c, lo, hi, sample)), 4, false)
  {
    var input := [c, lo, hi, sample] + tail;
    assert input[1..] == [lo, hi, sample] + tail;
  }
}
