/** The Dazzler emulator's state and its packet dispatcher: three 128x128
    framebuffers (two for double buffering, the third left blank and shown
    while the Dazzler is off), two raw 2048-byte copies of the host's video
    memory, the control and picture-control registers with the video mode and
    colour table derived from them, the USB receive ring, and the DAC engine
    that DAC packets feed. */
module Dazzler {
  import opened Bytes
  import opened Vram
  import UsbRing
  import Audio
  import opened Protocol

  class Dazzler {
    /** frameBuffers[b, y, x]: pixel (x, y) of framebuffer b. */
    const frameBuffers: array3<Pixel>
    /** rawFrames[b, a]: byte a of the host's video memory for buffer b. */
    const rawFrames: array2<byte>
    var ctrl: byte
    var pictureCtrl: byte
    var mode: VideoMode
    var palette: Palette
    var active: int
    const usb: UsbRing.Ring
    const audio: Audio.AudioEngine
    /** Bytes sent back to the host, oldest first. */
    var sent: seq<byte>

    ghost predicate Valid()
      reads this, usb, usb.buffer
    {
      Shaped() && usb.Valid()
    }

    /** The arrays have the source's dimensions and the active buffer is one
        of the two live ones. */
    predicate Shaped()
      reads this
    {
      Dims() && 0 <= active < 2
    }

    predicate Dims()
    {
      frameBuffers.Length0 == 3 && frameBuffers.Length1 == HEIGHT && frameBuffers.Length2 == WIDTH &&
      rawFrames.Length0 == 2 && rawFrames.Length1 == VRAM_SIZE
    }

    /** The register state, as the pure protocol model sees it. */
    function Regs(): (r: Registers)
      reads this
    {
      Registers(ctrl, pictureCtrl, mode, palette, active)
    }

    /** The power-on state: registers as initialised in the source (note that
        the mode starts as 64x64 monochrome although the picture-control
        register starts at 0, which would decode to 32x32 colour), all
        framebuffers black, raw memory zero, the ring empty. */
    constructor()
      ensures Valid() && fresh(frameBuffers) && fresh(rawFrames) && fresh(usb) && fresh(usb.buffer)
      ensures Regs() == PowerOn
      ensures usb.pending == [] && sent == []
      ensures forall k, y, x | 0 <= k < 3 && OnScreen(x, y) :: frameBuffers[k, y, x] == Blank
      ensures forall k, a | 0 <= k < 2 && 0 <= a < VRAM_SIZE :: rawFrames[k, a] == 0
      ensures audio.Valid() && audio.Idle()
    {
      frameBuffers := new Pixel[3, HEIGHT, WIDTH]((k, y, x) => Blank);
      rawFrames := new byte[2, VRAM_SIZE]((k, a) => 0);
      ctrl, pictureCtrl := 0, 0;
      mode, palette, active := Mono64x64, Greys, 0;
      usb := new UsbRing.Ring();
      audio := new Audio.AudioEngine();
      sent := [];
    }

    // -------------------------------------------------------------------
    // Pixel setters: one logical pixel drawn as a 1x1, 2x2 or 4x4 block
    // -------------------------------------------------------------------

    /** set_pixel_128: a single pixel, dropped when off screen. */
    method SetPixel128(b: int, x: int, y: int, colour: int)
      requires Valid() && 0 <= b < 3
      modifies frameBuffers
      ensures forall k, py, px | 0 <= k < 3 && OnScreen(px, py) ::
        frameBuffers[k, py, px] ==
          if k == b && Block(1, x, y, px, py) then Entry(palette, colour % 16) else old(frameBuffers[k, py, px])
    {
      var c := colour % 16;
      if 0 <= x < WIDTH && 0 <= y < HEIGHT {
        frameBuffers[b, y, x] := Entry(palette, c);
      }
    }

    /** set_pixel_64: a 2x2 block at (2x, 2y), dropped unless its top-left
        corner is on screen. */
    method SetPixel64(b: int, x: int, y: int, colour: int)
      requires Valid() && 0 <= b < 3
      modifies frameBuffers
      ensures forall k, py, px | 0 <= k < 3 && OnScreen(px, py) ::
        frameBuffers[k, py, px] ==
          if k == b && Block(2, x, y, px, py) then Entry(palette, colour % 16) else old(frameBuffers[k, py, px])
    {
      var sx, sy := x * 2, y * 2;
      var clr := Entry(palette, colour % 16);
      if 0 <= sx < WIDTH && 0 <= sy < HEIGHT {
        frameBuffers[b, sy, sx] := clr;
        frameBuffers[b, sy, sx + 1] := clr;
        frameBuffers[b, sy + 1, sx] := clr;
        frameBuffers[b, sy + 1, sx + 1] := clr;
      }
    }

    /** set_pixel_32: a 4x4 block at (4x, 4y), dropped unless its top-left
        corner is on screen. */
    method SetPixel32(b: int, x: int, y: int, colour: int)
      requires Valid() && 0 <= b < 3
      modifies frameBuffers
      ensures forall k, py, px | 0 <= k < 3 && OnScreen(px, py) ::
        frameBuffers[k, py, px] ==
          if k == b && Block(4, x, y, px, py) then Entry(palette, colour % 16) else old(frameBuffers[k, py, px])
    {
      var sx, sy := x * 4, y * 4;
      var clr := Entry(palette, colour % 16);
      if 0 <= sx < WIDTH && 0 <= sy < HEIGHT {
        // the sixteen stores of the 4x4 block, as one simultaneous update
        forall py, px | sy <= py < sy + 4 && sx <= px < sx + 4 {
          frameBuffers[b, py, px] := clr;
        }
      }
    }

    // -------------------------------------------------------------------
    // set_vram: store a byte and draw its cell in the current mode
    // -------------------------------------------------------------------

    /** Every pixel of framebuffer b whose source address is addr now shows
        what byte value decodes to in the current mode; every other pixel of
        every framebuffer is unchanged. */
    twostate predicate CellRedrawn(b: int, addr: int, value: byte)
      requires Shaped() && 0 <= addr < VRAM_SIZE
      reads this, frameBuffers
    {
      forall k, py, px | 0 <= k < 3 && OnScreen(px, py) ::
        frameBuffers[k, py, px] ==
          if k == b && SourceAddr(mode, px, py) == addr
          then PixelFor(mode, palette, Foreground(pictureCtrl), value, px, py)
          else old(frameBuffers[k, py, px])
    }

    /** The colour the monochrome modes give bit `bit` of value. */
    function MonoColour(value: byte, bit: nat): (c: int)
      reads this
      ensures c == SlotColour(Mono128x128, Foreground(pictureCtrl), value, bit)
    {
      if Bit(value, bit) then Foreground(pictureCtrl) else 0
    }

    /** The 128x128 monochrome arm of set_vram: eight single pixels. */
    method DrawMono128(b: int, addr: int, value: byte)
      requires Valid() && 0 <= b < 3 && 0 <= addr < VRAM_SIZE && mode == Mono128x128
      modifies frameBuffers
      ensures CellRedrawn(b, addr, value)
    {
      var (x, y) := CellOrigin(Mono128x128, addr);
      SetPixel128(b, x, y, MonoColour(value, 0));
      SetPixel128(b, x + 1, y, MonoColour(value, 1));
      SetPixel128(b, x, y + 1, MonoColour(value, 2));
      SetPixel128(b, x + 1, y + 1, MonoColour(value, 3));
      SetPixel128(b, x + 2, y, MonoColour(value, 4));
      SetPixel128(b, x + 3, y, MonoColour(value, 5));
      SetPixel128(b, x + 2, y + 1, MonoColour(value, 6));
      SetPixel128(b, x + 3, y + 1, MonoColour(value, 7));
      forall k, py, px | 0 <= k < 3 && OnScreen(px, py)
        ensures frameBuffers[k, py, px] ==
          if k == b && SourceAddr(mode, px, py) == addr
          then PixelFor(mode, palette, Foreground(pictureCtrl), value, px, py)
          else old(frameBuffers[k, py, px])
      {
        Mono128Blocks(addr, px, py);
      }
    }

    /** The 64x64 monochrome arm: eight 2x2 blocks. Addresses from 512 on
        place their cell below the screen, so nothing is drawn for them. */
    method DrawMono64(b: int, addr: int, value: byte)
      requires Valid() && 0 <= b < 3 && 0 <= addr < VRAM_SIZE && mode == Mono64x64
      modifies frameBuffers
      ensures CellRedrawn(b, addr, value)
    {
      var (x, y) := CellOrigin(Mono64x64, addr);
      SetPixel64(b, x, y, MonoColour(value, 0));
      SetPixel64(b, x + 1, y, MonoColour(value, 1));
      SetPixel64(b, x, y + 1, MonoColour(value, 2));
      SetPixel64(b, x + 1, y + 1, MonoColour(value, 3));
      SetPixel64(b, x + 2, y, MonoColour(value, 4));
      SetPixel64(b, x + 3, y, MonoColour(value, 5));
      SetPixel64(b, x + 2, y + 1, MonoColour(value, 6));
      SetPixel64(b, x + 3, y + 1, MonoColour(value, 7));
      forall k, py, px | 0 <= k < 3 && OnScreen(px, py)
        ensures frameBuffers[k, py, px] ==
          if k == b && SourceAddr(mode, px, py) == addr
          then PixelFor(mode, palette, Foreground(pictureCtrl), value, px, py)
          else old(frameBuffers[k, py, px])
      {
        Mono64Blocks(addr, px, py);
      }
    }

    /** The 64x64 colour arm: two 2x2 blocks, low nibble on the left. */
    method DrawColour64(b: int, addr: int, value: byte)
      requires Valid() && 0 <= b < 3 && 0 <= addr < VRAM_SIZE && mode == Colour64x64
      modifies frameBuffers
      ensures CellRedrawn(b, addr, value)
    {
      var (x, y) := CellOrigin(Colour64x64, addr);
      SetPixel64(b, x + 0, y, LowNibble(value));
      SetPixel64(b, x + 1, y, HighNibble(value));
      forall k, py, px | 0 <= k < 3 && OnScreen(px, py)
        ensures frameBuffers[k, py, px] ==
          if k == b && SourceAddr(mode, px, py) == addr
          then PixelFor(mode, palette, Foreground(pictureCtrl), value, px, py)
          else old(frameBuffers[k, py, px])
      {
        Colour64Blocks(addr, px, py);
      }
    }

    /** The 32x32 colour arm: two 4x4 blocks, low nibble on the left.
        Addresses from 512 on draw nothing. */
    method DrawColour32(b: int, addr: int, value: byte)
      requires Valid() && 0 <= b < 3 && 0 <= addr < VRAM_SIZE && mode == Colour32x32
      modifies frameBuffers
      ensures CellRedrawn(b, addr, value)
    {
      var (x, y) := CellOrigin(Colour32x32, addr);
      SetPixel32(b, x + 0, y, LowNibble(value));
      SetPixel32(b, x + 1, y, HighNibble(value));
      forall k, py, px | 0 <= k < 3 && OnScreen(px, py)
        ensures frameBuffers[k, py, px] ==
          if k == b && SourceAddr(mode, px, py) == addr
          then PixelFor(mode, palette, Foreground(pictureCtrl), value, px, py)
          else old(frameBuffers[k, py, px])
      {
        Colour32Blocks(addr, px, py);
      }
    }

    /** set_vram: unless refresh is set, store value in raw memory b at addr;
        then draw the cell of addr in framebuffer b for the current mode. */
    method SetVram(b: int, addr: int, value: byte, refresh: bool)
      requires Valid() && 0 <= b < 2 && 0 <= addr < VRAM_SIZE
      modifies frameBuffers, rawFrames
      ensures CellRedrawn(b, addr, value)
      ensures forall k, a | 0 <= k < 2 && 0 <= a < VRAM_SIZE ::
        rawFrames[k, a] == if !refresh && k == b && a == addr then value else old(rawFrames[k, a])
      ensures !refresh ==> VramApplied(Store(b, addr, [value]), mode, palette, Foreground(pictureCtrl))
    {
      if !refresh {
        rawFrames[b, addr] := value;
      }
      match mode
      case Mono128x128 => DrawMono128(b, addr, value);
      case Mono64x64 => DrawMono64(b, addr, value);
      case Colour64x64 => DrawColour64(b, addr, value);
      case Colour32x32 => DrawColour32(b, addr, value);
    }

    /** refresh_vram: replay all 2048 bytes of raw memory b through set_vram,
        so that framebuffer b shows raw memory b decoded in the current mode.
        Raw memory is rewritten with its own contents (the replay passes
        refresh as false) and so is unchanged; the other framebuffers are
        untouched. */
    method RefreshVram(b: int)
      requires Valid() && 0 <= b < 2
      modifies frameBuffers, rawFrames
      ensures VramApplied(Refresh(b), mode, palette, Foreground(pictureCtrl))
    {
      for i := 0 to VRAM_SIZE
        invariant forall k, a | 0 <= k < 2 && 0 <= a < VRAM_SIZE :: rawFrames[k, a] == old(rawFrames[k, a])
        invariant forall k, py, px | 0 <= k < 3 && OnScreen(px, py) ::
          frameBuffers[k, py, px] ==
            if k == b && SourceAddr(mode, px, py) < i
            then PixelFor(mode, palette, Foreground(pictureCtrl), rawFrames[b, SourceAddr(mode, px, py)], px, py)
            else old(frameBuffers[k, py, px])
      {
        SetVram(b, i, rawFrames[b, i], false);
      }
    }

    // -------------------------------------------------------------------
    // The packet dispatcher
    // -------------------------------------------------------------------

    /** What a video memory operation of the protocol does to raw memory and
        the framebuffers, decoding in mode m with colour table t and
        foreground fg. */
    twostate predicate VramApplied(op: VramOp, m: VideoMode, t: Palette, fg: int)
      requires Dims()
      reads frameBuffers, rawFrames
    {
      match op
      case NoVram => unchanged(frameBuffers, rawFrames)
      case Store(b, start, values) =>
        0 <= b < 2 && 0 <= start && start + |values| <= VRAM_SIZE &&
        (forall k, a | 0 <= k < 2 && 0 <= a < VRAM_SIZE ::
          rawFrames[k, a] == if k == b && start <= a < start + |values| then values[a - start] else old(rawFrames[k, a])) &&
        (forall k, py, px | 0 <= k < 3 && OnScreen(px, py) ::
          frameBuffers[k, py, px] ==
            if k == b && start <= SourceAddr(m, px, py) < start + |values|
            then PixelFor(m, t, fg, values[SourceAddr(m, px, py) - start], px, py)
            else old(frameBuffers[k, py, px]))
      case Refresh(b) =>
        0 <= b < 2 &&
        (forall k, a | 0 <= k < 2 && 0 <= a < VRAM_SIZE :: rawFrames[k, a] == old(rawFrames[k, a])) &&
        (forall py, px | OnScreen(px, py) ::
          frameBuffers[b, py, px] == PixelFor(m, t, fg, rawFrames[b, SourceAddr(m, px, py)], px, py)) &&
        (forall k, py, px | 0 <= k < 3 && k != b && OnScreen(px, py) :: frameBuffers[k, py, px] == old(frameBuffers[k, py, px]))
    }

    /** VramApplied under registers r. */
    twostate predicate VramAppliedUnder(op: VramOp, r: Registers)
      requires Dims()
      reads frameBuffers, rawFrames
    {
      VramApplied(op, r.mode, r.palette, Foreground(r.pictureCtrl))
    }

    /** daz_ctrl on the header at the head of the ring: a header with a zero
        low nibble carries the new control byte; the result is the buffer to
        make active. `ok` is false when the payload byte never arrives. */
    method UpdateCtrl() returns (fb: int, ok: bool)
      requires Valid() && usb.pending != []
      modifies this, usb
      ensures Valid() && sent == old(sent)
      ensures var o := DazCtrl(old(Regs()), old(usb.pending)[0], old(usb.pending)[1..]);
        ok == o.Some? &&
        (o.Some? ==> Regs() == o.value.regs && fb == o.value.fb && usb.pending == old(usb.pending)[1 + o.value.used..]) &&
        (o.None? ==> Regs() == old(Regs()) && usb.pending == [])
    {
      var c := usb.GetByte();
      fb, ok := active, true;
      if LowNibble(c) == 0 {
        var prev := ctrl;
        var v := usb.GetByteBlocking();
        if v.None? {
          return fb, false;
        }
        ctrl := v.value;
        if ctrl != prev && Bit(ctrl, 7) {
          // the Dazzler is switched on: select buffer 0 or 1
          fb := ctrl % 2;
        }
      }
    }

    /** daz_ctrlpic on the header at the head of the ring: a header with a
        zero low nibble carries the new picture control byte; a new value sets
        the mode and the colour table. */
    method UpdateCtrlPic() returns (changed: bool, ok: bool)
      requires Valid() && usb.pending != []
      modifies this, usb
      ensures Valid() && sent == old(sent)
      ensures var o := DazCtrlPic(old(Regs()), old(usb.pending)[0], old(usb.pending)[1..]);
        ok == o.Some? &&
        (o.Some? ==> Regs() == o.value.regs && changed == o.value.changed && usb.pending == old(usb.pending)[1 + o.value.used..]) &&
        (o.None? ==> Regs() == old(Regs()) && usb.pending == [])
    {
      var c := usb.GetByte();
      var prev := pictureCtrl;
      changed, ok := false, true;
      if LowNibble(c) == 0 {
        var v := usb.GetByteBlocking();
        if v.None? {
          return false, false;
        }
        pictureCtrl := v.value;
        if prev != pictureCtrl {
          if Bit(pictureCtrl, 6) {
            mode := if Bit(pictureCtrl, 5) then Mono128x128 else Mono64x64;
          } else {
            mode := if Bit(pictureCtrl, 5) then Colour64x64 else Colour32x32;
          }
          palette := if Bit(pictureCtrl, 4) then Colours else Greys;
          changed := true;
        }
      }
    }

    /** Redraw buffer b if the picture control changed. */
    method RefreshIfChanged(b: int, changed: bool)
      requires Valid() && 0 <= b < 2
      modifies frameBuffers, rawFrames
      ensures VramApplied(if changed then Refresh(b) else NoVram, mode, palette, Foreground(pictureCtrl))
    {
      if changed {
        RefreshVram(b);
      }
    }

    /** The CTRL case after daz_ctrl selected buffer fb. */
    method CtrlFollowUpCommand(fb: int) returns (blocked: bool)
      requires Valid() && 0 <= fb < 2
      modifies this, usb, frameBuffers, rawFrames
      ensures Valid() && sent == old(sent)
      ensures var o := CtrlFollowUp(old(Regs()), fb, old(usb.pending));
        Regs() == o.regs && usb.pending == old(usb.pending)[o.used..] && blocked == o.blocked &&
        VramAppliedUnder(o.vram, o.regs)
    {
      var next := usb.PeekByte();
      if Command(next) == DAZ_CTRLPIC {
        blocked := CtrlPicPartner(fb);
      } else {
        RefreshVram(fb);
        active := fb;
        blocked := false;
      }
    }

    /** The CTRLPIC header that follows a CTRL: consume it, apply daz_ctrlpic
        and redraw buffer fb only if the picture control changed. */
    method CtrlPicPartner(fb: int) returns (blocked: bool)
      requires Valid() && 0 <= fb < 2
      requires usb.pending != [] && Command(usb.pending[0]) == DAZ_CTRLPIC
      modifies this, usb, frameBuffers, rawFrames
      ensures var o := CtrlFollowUp(old(Regs()), fb, old(usb.pending));
        Regs() == o.regs && usb.pending == old(usb.pending)[o.used..] && blocked == o.blocked &&
        VramAppliedUnder(o.vram, o.regs)
      ensures Valid() && sent == old(sent)
    {
      ghost var r0, after := Regs(), usb.pending;
      var changed, ok := UpdateCtrlPic();
      if !ok {
        assert CtrlFollowUp(r0, fb, after) == Quiet(r0, 1, true);
        return true;
      }
      ghost var pr := DazCtrlPic(r0, after[0], after[1..]).value;
      assert CtrlFollowUp(r0, fb, after) ==
        Outcome(pr.regs.(active := fb), if changed then Refresh(fb) else NoVram, [], None, 1 + pr.used, false);
      assert after[1..][pr.used..] == after[1 + pr.used..];
      RefreshIfChanged(fb, changed);
      active := fb;
      blocked := false;
    }

    /** The CTRLPIC case after daz_ctrlpic: changed tells whether the picture
        control changed. */
    method CtrlPicFollowUpCommand(changed: bool) returns (blocked: bool)
      requires Valid()
      modifies this, usb, frameBuffers, rawFrames
      ensures var o := CtrlPicFollowUp(old(Regs()), changed, old(usb.pending));
        Regs() == o.regs && usb.pending == old(usb.pending)[o.used..] && blocked == o.blocked &&
        VramAppliedUnder(o.vram, o.regs)
      ensures Valid() && sent == old(sent)
    {
      var next := usb.PeekByte();
      if Command(next) == DAZ_CTRL {
        blocked := CtrlPartner(changed);
      } else {
        RefreshIfChanged(active, changed);
        blocked := false;
      }
    }

    /** The CTRL header that follows a CTRLPIC: consume it, apply daz_ctrl,
        redraw the buffer it selects if the picture control had changed, and
        make that buffer active. */
    method CtrlPartner(changed: bool) returns (blocked: bool)
      requires Valid()
      requires usb.pending != [] && Command(usb.pending[0]) == DAZ_CTRL
      modifies this, usb, frameBuffers, rawFrames
      ensures var o := CtrlPicFollowUp(old(Regs()), changed, old(usb.pending));
        Regs() == o.regs && usb.pending == old(usb.pending)[o.used..] && blocked == o.blocked &&
        VramAppliedUnder(o.vram, o.regs)
      ensures Valid() && sent == old(sent)
    {
      ghost var r0, after := Regs(), usb.pending;
      var fb, ok := UpdateCtrl();
      if !ok {
        assert CtrlPicFollowUp(r0, changed, after) == Quiet(r0, 1, true);
        return true;
      }
      ghost var cr := DazCtrl(r0, after[0], after[1..]).value;
      assert CtrlPicFollowUp(r0, changed, after) ==
        Outcome(cr.regs.(active := fb), if changed then Refresh(fb) else NoVram, [], None, 1 + cr.used, false);
      assert after[1..][cr.used..] == after[1 + cr.used..];
      RefreshIfChanged(fb, changed);
      active := fb;
      blocked := false;
    }

    /** The FULLFRAME loop: count bytes from the ring, each through set_vram
        at addresses 0, 1, ... of buffer b. When the ring runs dry the bytes
        stored so far stay stored. */
    method StoreFrame(b: int, count: int) returns (blocked: bool)
      requires Valid() && 0 <= b < 2 && 0 <= count <= VRAM_SIZE
      modifies usb, frameBuffers, rawFrames
      ensures blocked == (|old(usb.pending)| < count)
      ensures var stored := if blocked then old(usb.pending) else old(usb.pending)[..count];
        usb.pending == old(usb.pending)[|stored|..] &&
        VramApplied(Store(b, 0, stored), mode, palette, Foreground(pictureCtrl))
      ensures Valid()
    {
      ghost var input := usb.pending;
      for i := 0 to count
        invariant Valid()
        invariant i <= |input| && usb.pending == input[i..]
        invariant VramApplied(Store(b, 0, input[..i]), mode, palette, Foreground(pictureCtrl))
      {
        var value := usb.GetByteBlocking();
        if value.None? {
          assert input[..i] == input;
          return true;
        }
        SetVram(b, i, value.value, false);
      }
      blocked := false;
    }

    /** audio_add_sample with the operands of one DAC packet. */
    method QueueSample(d: DacSample)
      requires audio.Valid()
      modifies audio
      ensures audio.Valid() && AudioApplied(Some(d))
    {
      audio.AddSample(d.channel, d.delay, d.sample);
    }

    /** Three usb_getbyte_blocking calls in a row: the next three bytes, or
        None (with the ring drained) when fewer are waiting. */
    method ReadThree() returns (r: Option<(byte, byte, byte)>)
      requires Valid()
      modifies usb
      ensures Valid()
      ensures |old(usb.pending)| < 3 ==> r == None && usb.pending == []
      ensures |old(usb.pending)| >= 3 ==>
        r == Some((old(usb.pending)[0], old(usb.pending)[1], old(usb.pending)[2])) && usb.pending == old(usb.pending)[3..]
    {
      var first := usb.GetByteBlocking();
      if first.None? {
        return None;
      }
      var second := usb.GetByteBlocking();
      if second.None? {
        return None;
      }
      var third := usb.GetByteBlocking();
      if third.None? {
        return None;
      }
      r := Some((first.value, second.value, third.value));
    }

    /** What handing the DAC sample d (if any) to audio_add_sample did to
        the audio engine: the word joins the queue of its channel unless that
        queue is full; the other channel and the output are untouched. */
    twostate predicate AudioApplied(d: Option<DacSample>)
      reads audio, audio.haveDelay, audio.nextSample, audio.nextDelay
    {
      match d
      case None => unchanged(audio, audio.haveDelay, audio.nextSample, audio.nextDelay)
      case Some(s) =>
        audio.Shaped() && old(audio.Shaped()) && audio.output == old(audio.output) &&
        var w := Audio.Pack(s.delay, s.sample);
        if s.channel == 0 then audio.Left() == Audio.Offer(old(audio.Left()), w) && audio.Right() == old(audio.Right())
        else audio.Right() == Audio.Offer(old(audio.Right()), w) && audio.Left() == old(audio.Left())
    }

    /** Everything but the ring that one packet changes, as outcome o says:
        the registers, the reply bytes sent, video memory and the DAC. */
    twostate predicate Applied(o: Outcome)
      requires Dims()
      reads this, frameBuffers, rawFrames, audio, audio.haveDelay, audio.nextSample, audio.nextDelay
    {
      Regs() == o.regs && sent == old(sent) + o.reply && VramAppliedUnder(o.vram, o.regs) && AudioApplied(o.dac)
    }

    /** One pass of the receive loop once a byte is waiting: the header's
        high nibble picks the case of the switch. */
    method ProcessPacket() returns (blocked: bool)
      requires Valid() && audio.Valid() && usb.pending != []
      modifies this, usb, frameBuffers, rawFrames, audio
      ensures var o := PacketStep(old(Regs()), old(usb.pending));
        Applied(o) && usb.pending == old(usb.pending)[o.used..] && blocked == o.blocked
      ensures Valid() && audio.Valid()
    {
      var c := usb.PeekByte();
      var cmd := Command(c);
      if cmd in {DAZ_CTRL, DAZ_CTRLPIC, DAZ_MEMBYTE, DAZ_FULLFRAME} {
        blocked := VideoPacket();
      } else {
        blocked := OtherPacket();
      }
    }

    /** The cases of the switch that write video state. */
    method VideoPacket() returns (blocked: bool)
      requires Valid() && usb.pending != []
      requires Command(usb.pending[0]) in {DAZ_CTRL, DAZ_CTRLPIC, DAZ_MEMBYTE, DAZ_FULLFRAME}
      modifies this, usb, frameBuffers, rawFrames
      ensures var o := PacketStep(old(Regs()), old(usb.pending));
        Applied(o) && usb.pending == old(usb.pending)[o.used..] && blocked == o.blocked
      ensures Valid()
    {
      ghost var r0, input := Regs(), usb.pending;
      var c := usb.PeekByte();
      var cmd := Command(c);
      if cmd == DAZ_CTRL {
        blocked := CtrlCommand();
        assert PacketStep(r0, input) == CtrlPacket(r0, input[0], input[1..]);
      } else if cmd == DAZ_CTRLPIC {
        blocked := CtrlPicCommand();
        assert PacketStep(r0, input) == CtrlPicPacket(r0, input[0], input[1..]);
      } else if cmd == DAZ_MEMBYTE {
        blocked := MemByteCommand();
        assert PacketStep(r0, input) == MemBytePacket(r0, input[0], input[1..]);
      } else {
        blocked := FullFrameCommand();
        assert PacketStep(r0, input) == FullFramePacket(r0, input[0], input[1..]);
      }
    }

    /** The other cases of the switch: VERSION, DAC, and headers without a
        case. */
    method OtherPacket() returns (blocked: bool)
      requires Valid() && audio.Valid() && usb.pending != []
      requires Command(usb.pending[0]) !in {DAZ_CTRL, DAZ_CTRLPIC, DAZ_MEMBYTE, DAZ_FULLFRAME}
      modifies this`sent, usb, audio
      ensures var o := PacketStep(old(Regs()), old(usb.pending));
        Applied(o) && usb.pending == old(usb.pending)[o.used..] && blocked == o.blocked
      ensures Valid() && audio.Valid()
    {
      ghost var r0, input := Regs(), usb.pending;
      var c := usb.PeekByte();
      var cmd := Command(c);
      if cmd == DAZ_VERSION {
        blocked := VersionCommand();
      } else if cmd == DAZ_DAC {
        blocked := DacCommand();
        assert PacketStep(r0, input) == DacPacket(r0, input[0], input[1..]);
      } else {
        blocked := IgnoreCommand();
      }
    }

    /** DAZ_VERSION: send the version byte, the feature bits and a zero. */
    method VersionCommand() returns (blocked: bool)
      requires Valid() && usb.pending != [] && Command(usb.pending[0]) == DAZ_VERSION
      modifies this`sent, usb
      ensures var o := PacketStep(old(Regs()), old(usb.pending));
        Applied(o) && usb.pending == old(usb.pending)[o.used..] && blocked == o.blocked
      ensures Valid()
    {
      var c := usb.GetByte();
      sent := sent + VERSION_REPLY;
      blocked := false;
    }

    /** A header whose command has no case: consumed and ignored. */
    method IgnoreCommand() returns (blocked: bool)
      requires Valid() && usb.pending != []
      requires Command(usb.pending[0]) !in {DAZ_VERSION, DAZ_CTRL, DAZ_CTRLPIC, DAZ_MEMBYTE, DAZ_FULLFRAME, DAZ_DAC}
      modifies usb
      ensures var o := PacketStep(old(Regs()), old(usb.pending));
        Applied(o) && usb.pending == old(usb.pending)[o.used..] && blocked == o.blocked
      ensures Valid()
    {
      var c := usb.GetByte();
      blocked := false;
    }

    /** DAZ_CTRL: daz_ctrl, then its follow-up. */
    method CtrlCommand() returns (blocked: bool)
      requires Valid() && usb.pending != [] && Command(usb.pending[0]) == DAZ_CTRL
      modifies this, usb, frameBuffers, rawFrames
      ensures var o := CtrlPacket(old(Regs()), old(usb.pending)[0], old(usb.pending)[1..]);
        Applied(o) && usb.pending == old(usb.pending)[o.used..] && blocked == o.blocked
      ensures Valid()
    {
      ghost var r0, input := Regs(), usb.pending;
      var fb, ok := UpdateCtrl();
      if !ok {
        return true;
      }
      CtrlPacketUnfold(r0, input[0], input[1..]);
      blocked := CtrlFollowUpCommand(fb);
    }

    /** DAZ_CTRLPIC: daz_ctrlpic, then its follow-up. */
    method CtrlPicCommand() returns (blocked: bool)
      requires Valid() && usb.pending != [] && Command(usb.pending[0]) == DAZ_CTRLPIC
      modifies this, usb, frameBuffers, rawFrames
      ensures var o := CtrlPicPacket(old(Regs()), old(usb.pending)[0], old(usb.pending)[1..]);
        Applied(o) && usb.pending == old(usb.pending)[o.used..] && blocked == o.blocked
      ensures Valid()
    {
      var changed, ok := UpdateCtrlPic();
      if !ok {
        return true;
      }
      blocked := CtrlPicFollowUpCommand(changed);
    }

    /** DAZ_MEMBYTE: bit 3 of the header picks the buffer and its low three
        bits the high byte of the address; the low byte and the value
        follow, and the value goes through set_vram. */
    method MemByteCommand() returns (blocked: bool)
      requires Valid() && usb.pending != [] && Command(usb.pending[0]) == DAZ_MEMBYTE
      modifies usb, frameBuffers, rawFrames
      ensures var o := MemBytePacket(old(Regs()), old(usb.pending)[0], old(usb.pending)[1..]);
        Applied(o) && usb.pending == old(usb.pending)[o.used..] && blocked == o.blocked
      ensures Valid()
    {
      var c := usb.GetByte();
      var b := if Bit(c, 3) then 1 else 0;
      var lo := usb.GetByteBlocking();
      if lo.None? {
        return true;
      }
      var value := usb.GetByteBlocking();
      if value.None? {
        return true;
      }
      SetVram(b, (c % 8) * 256 + lo.value, value.value, false);
      blocked := false;
    }

    /** DAZ_FULLFRAME: only when bits 2 and 1 of the header are clear, store
        the next 2048 (bit 0 set) or 512 bytes from address 0 of the buffer
        bit 3 picks. */
    method FullFrameCommand() returns (blocked: bool)
      requires Valid() && usb.pending != [] && Command(usb.pending[0]) == DAZ_FULLFRAME
      modifies usb, frameBuffers, rawFrames
      ensures var o := FullFramePacket(old(Regs()), old(usb.pending)[0], old(usb.pending)[1..]);
        Applied(o) && usb.pending == old(usb.pending)[o.used..] && blocked == o.blocked
      ensures Valid()
    {
      ghost var r0 := Regs();
      var c := usb.GetByte();
      ghost var rest := usb.pending;
      blocked := false;
      if (c / 2) % 4 == 0 {
        var b, count := if Bit(c, 3) then 1 else 0, if c % 2 == 1 then VRAM_SIZE else 512;
        blocked := StoreFrame(b, count);
        assert FullFramePacket(r0, c, rest).vram == Store(b, 0, if blocked then rest else rest[..count]);
      }
    }

    /** DAZ_DAC: a zero low nibble means channel 0, anything else channel 1;
        a 16-bit delay (low byte first) and the sample follow, and the three
        go to audio_add_sample. */
    method DacCommand() returns (blocked: bool)
      requires audio.Valid()
      requires Valid() && usb.pending != [] && Command(usb.pending[0]) == DAZ_DAC
      modifies usb, audio
      ensures var o := DacPacket(old(Regs()), old(usb.pending)[0], old(usb.pending)[1..]);
        Applied(o) && usb.pending == old(usb.pending)[o.used..] && blocked == o.blocked
      ensures Valid()
      ensures audio.Valid()
    {
      var c := usb.GetByte();
      var operands := ReadThree();
      if operands.None? {
        return true;
      }
      var (lo, hi, sample) := operands.value;
      QueueSample(DacOf(c, lo, hi, sample));
      blocked := false;
    }
  }
}
