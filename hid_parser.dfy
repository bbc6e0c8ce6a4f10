/** The joystick HID report-descriptor parser (parse_descriptor.c).

    The parser walks the short items of a report descriptor (section 6.2.2.2
    of the Device Class Definition for HID 1.11), tracks a handful of Global
    and Local items and, at every Main Input item, assigns report bits to the
    X/Y axes and to up to four buttons. Its output is the `joystick_bytes`
    record of parse_descriptor.h. */
module HidParser {
  import opened Bytes

  // Item types (HID 1.11 section 6.2.2.2, bType).
  const TYPE_MAIN := 0
  const TYPE_GLOBAL := 1
  const TYPE_LOCAL := 2

  // Global item tags (HID 1.11 section 6.2.2.7).
  const GLOBAL_USAGE_PAGE := 0
  const GLOBAL_LOGICAL_MIN := 1
  const GLOBAL_LOGICAL_MAX := 2
  const GLOBAL_REPORT_SIZE := 7
  const GLOBAL_REPORT_ID := 8
  const GLOBAL_REPORT_COUNT := 9

  // Local item tag Usage (section 6.2.2.8) and Main item tag Input (6.2.2.4).
  const LOCAL_USAGE := 0
  const MAIN_INPUT := 8

  // Usage Page Button and Generic Desktop usages X and Y (HID Usage Tables).
  const USAGE_PAGE_BUTTON: byte := 0x09
  const USAGE_DESKTOP_X: byte := 0x30
  const USAGE_DESKTOP_Y: byte := 0x31

  /** Input item data 0x02: Data, Variable, Absolute. */
  const DATA_INPUT: byte := 0x02

  /** A controller whose first `nrSkip` button fields are not mapped. */
  datatype ButtonSkip = ButtonSkip(pid: int, nrSkip: byte)

  /** `controller_skip_buttons`: the PS3 controller skips its first 12 buttons. */
  const CONTROLLER_SKIP_BUTTONS: seq<ButtonSkip> := [ButtonSkip(0x0268, 12)]

  /** `struct joystick_bytes`: where the axes, buttons and report ID sit in a
      report. The C flags are integers used as booleans. */
  datatype JoystickBytes = JoystickBytes(
    reportId: byte,
    hasReportId: bool,
    xAxisByte: int,
    yAxisByte: int,
    buttonsByte: int,
    b1Mask: byte,
    b2Mask: byte,
    b3Mask: byte,
    b4Mask: byte,
    xySet: bool,
    b1Set: bool,
    b2Set: bool,
    b3Set: bool,
    b4Set: bool)

  /** The record after `memset(joystick_definition, 0, ...)`. */
  const ZEROED := JoystickBytes(0, false, 0, 0, 0, 0, 0, 0, 0, false, false, false, false, false)

  /** The parser's working state: the output record plus the locals
      `bit_counter`, `nr_skip_buttons` and `ri_report_count/size/usage/min/max`. */
  datatype Scan = Scan(
    def: JoystickBytes,
    bitCounter: nat,
    skip: byte,
    count: byte,
    size: byte,
    usage: byte,
    min: byte,
    max: byte)

  /** An item header byte split into its bit fields bSize (bits 0-1),
      bType (bits 2-3) and bTag (bits 4-7). */
  datatype ItemHeader = ItemHeader(size: int, typ: int, tag: int)

  function DecodeHeader(b: byte): (h: ItemHeader)
    ensures 0 <= h.size < 4 && 0 <= h.typ < 4 && 0 <= h.tag < 16
    ensures b == h.tag * 16 + h.typ * 4 + h.size
  {
    ItemHeader(b % 4, (b / 4) % 4, b / 16)
  }

  /** Bytes the parser steps over for an item: the header plus bSize. */
  function ItemLength(b: byte): (n: int)
    ensures 1 <= n <= 4
  {
    1 + DecodeHeader(b).size
  }

  /** Bytes an item occupies according to HID 1.11 section 6.2.2.2, where
      bSize 3 stands for four data bytes. */
  function HidItemLength(b: byte): (n: int)
    ensures n == ItemLength(b) || (b % 4 == 3 && n == ItemLength(b) + 1)
  {
    var size := DecodeHeader(b).size;
    1 + (if size == 3 then 4 else size)
  }

  /** The items from `pos` on tile the descriptor exactly: no item claims more
      bytes than remain. Otherwise `desc_len -= size` wraps the 16-bit length
      and the C loop runs past the buffer. */
  ghost predicate Framed(desc: seq<byte>, pos: nat)
    decreases |desc| - pos
  {
    pos == |desc| ||
    (pos < |desc| && pos + ItemLength(desc[pos]) <= |desc| && Framed(desc, pos + ItemLength(desc[pos])))
  }

  /** The header positions the parser visits from `pos` on. */
  function ItemStarts(desc: seq<byte>, pos: nat): (starts: seq<nat>)
    requires pos <= |desc|
    ensures forall i :: 0 <= i < |starts| ==> pos <= starts[i] < |desc|
    decreases |desc| - pos
  {
    if pos == |desc| then []
    else if pos + ItemLength(desc[pos]) > |desc| then [pos]
    else [pos] + ItemStarts(desc, pos + ItemLength(desc[pos]))
  }

  /** Logical Maximum with a four-byte value (bSize 3), as in the Xbox pad
      descriptor: the parser resumes inside the value and reads its last byte
      0x00 as a Main item header. */
  lemma FourByteItemMisread()
    ensures var desc := [0x05, 0x01, 0x09, 0x05, 0x27, 0xFF, 0xFF, 0x00, 0x00];
      ItemStarts(desc, 4) == [4, 8] && 4 + HidItemLength(desc[4]) == |desc|
  {
    var desc := [0x05, 0x01, 0x09, 0x05, 0x27, 0xFF, 0xFF, 0x00, 0x00];
    assert ItemLength(desc[4]) == 4;
    assert ItemLength(desc[8]) == 1;
    assert ItemStarts(desc, 9) == [];
  }

  // ---------------------------------------------------------------- masks

  lemma {:induction false} Pow2Add(a: nat, b: nat)
    ensures Pow2(a + b) == Pow2(a) * Pow2(b)
    decreases a
  {
    if a > 0 {
      Pow2Add(a - 1, b);
    }
  }

  /** A single-bit byte mask. */
  ghost predicate IsMask(m: int)
  {
    exists k :: 0 <= k < 8 && m == Pow2(k)
  }

  /** `1 << (bit_counter % 8)`: the bit of the button within its byte. */
  function Mask(bitCounter: nat): (m: byte)
    ensures IsMask(m) && m == Pow2(bitCounter % 8)
  {
    var k := bitCounter % 8;
    Pow2Add(k, 7 - k);
    assert Pow2(7) == 128;
    assert Pow2(k) <= Pow2(k) * Pow2(7 - k);
    Pow2(k)
  }

  // ---------------------------------------------------------------- record

  /** How many of b1..b4 are assigned, when they are assigned in order. */
  function Buttons(d: JoystickBytes): (n: int)
    ensures 0 <= n <= 4
  {
    if d.b4Set then 4 else if d.b3Set then 3 else if d.b2Set then 2 else if d.b1Set then 1 else 0
  }

  /** What a record reachable from ZEROED looks like: buttons are assigned
      in the order b1, b2, b3, b4, each assigned mask is a single bit, and every
      field not yet assigned still holds the zero of the memset. */
  ghost predicate Assigned(d: JoystickBytes)
  {
    (d.b4Set ==> d.b3Set) && (d.b3Set ==> d.b2Set) && (d.b2Set ==> d.b1Set) &&
    (if d.b1Set then IsMask(d.b1Mask) else d.b1Mask == 0 && d.buttonsByte == 0) &&
    (if d.b2Set then IsMask(d.b2Mask) else d.b2Mask == 0) &&
    (if d.b3Set then IsMask(d.b3Mask) else d.b3Mask == 0) &&
    (if d.b4Set then IsMask(d.b4Mask) else d.b4Mask == 0) &&
    (!d.xySet ==> d.xAxisByte == 0 && d.yAxisByte == 0) &&
    (!d.hasReportId ==> d.reportId == 0)
  }

  /** `e` keeps everything `d` had already assigned: a set flag stays set and
      the values it guards never change (the first report ID, the first X/Y
      field, the byte of the first button). */
  ghost predicate Settled(d: JoystickBytes, e: JoystickBytes)
  {
    (d.hasReportId ==> e.hasReportId && e.reportId == d.reportId) &&
    (d.xySet ==> e.xySet && e.xAxisByte == d.xAxisByte && e.yAxisByte == d.yAxisByte) &&
    (d.b1Set ==> e.b1Set && e.b1Mask == d.b1Mask && e.buttonsByte == d.buttonsByte) &&
    (d.b2Set ==> e.b2Set && e.b2Mask == d.b2Mask) &&
    (d.b3Set ==> e.b3Set && e.b3Mask == d.b3Mask) &&
    (d.b4Set ==> e.b4Set && e.b4Mask == d.b4Mask)
  }

  /** The result of the parse: nonzero iff the axes and all four buttons
      were found. */
  predicate Complete(d: JoystickBytes)
  {
    d.xySet && d.b1Set && d.b2Set && d.b3Set && d.b4Set
  }

  /** Registers one button at `bitCounter` in the first free slot; a fifth
      button is ignored. */
  function AddButton(d: JoystickBytes, bitCounter: nat): (e: JoystickBytes)
    requires Assigned(d)
    ensures Assigned(e) && Settled(d, e)
    ensures Buttons(e) == if Buttons(d) == 4 then 4 else Buttons(d) + 1
    ensures !d.b1Set ==> e.buttonsByte == bitCounter / 8
    ensures e.hasReportId == d.hasReportId && e.reportId == d.reportId
    ensures e.xySet == d.xySet && e.xAxisByte == d.xAxisByte && e.yAxisByte == d.yAxisByte
    ensures Buttons(d) == 0 ==> e.b1Mask == Mask(bitCounter)
    ensures Buttons(d) == 1 ==> e.b2Mask == Mask(bitCounter)
    ensures Buttons(d) == 2 ==> e.b3Mask == Mask(bitCounter)
    ensures Buttons(d) == 3 ==> e.b4Mask == Mask(bitCounter)
    ensures Buttons(d) == 4 ==> e == d
  {
    var mask := Mask(bitCounter);
    if !d.b1Set then d.(buttonsByte := bitCounter / 8, b1Mask := mask, b1Set := true)
    else if !d.b2Set then d.(b2Mask := mask, b2Set := true)
    else if !d.b3Set then d.(b3Mask := mask, b3Set := true)
    else if !d.b4Set then d.(b4Mask := mask, b4Set := true)
    else d
  }

  // ---------------------------------------------------------------- items

  /** A field the Input item registers as a button: the usage is the Button
      page, the report size is one bit and the Input data byte is 0x02. */
  predicate IsButtonField(s: Scan, data8: byte)
  {
    s.usage == USAGE_PAGE_BUTTON && s.size == 1 && data8 == DATA_INPUT
  }

  /** One iteration of the loop over `ri_report_count` in the Input case. */
  function InputField(s: Scan, data8: byte): (r: Scan)
    requires Assigned(s.def)
    ensures Assigned(r.def) && Settled(s.def, r.def) && r.bitCounter == s.bitCounter + s.size
    ensures r.count == s.count && r.size == s.size && r.usage == s.usage && r.min == s.min && r.max == s.max
    ensures r.def.hasReportId == s.def.hasReportId && r.def.reportId == s.def.reportId
  {
    var next := s.bitCounter + s.size;
    if IsButtonField(s, data8) then
      if s.skip > 0 then s.(skip := s.skip - 1, bitCounter := next)
      else s.(def := AddButton(s.def, s.bitCounter), bitCounter := next)
    else if !s.def.xySet && (s.usage == USAGE_DESKTOP_X || s.usage == USAGE_DESKTOP_Y) then
      var x := s.bitCounter / 8;
      s.(def := s.def.(xAxisByte := x, yAxisByte := x + s.size / 8, xySet := true), bitCounter := next)
    else s.(bitCounter := next)
  }

  /** `n` iterations of the Input loop. Every field advances the bit counter
      by the report size, skipped buttons included. */
  function InputFields(s: Scan, data8: byte, n: nat): (r: Scan)
    requires Assigned(s.def)
    ensures Assigned(r.def) && Settled(s.def, r.def)
    ensures r.bitCounter == s.bitCounter + n * s.size
    ensures r.count == s.count && r.size == s.size && r.usage == s.usage && r.min == s.min && r.max == s.max
    ensures r.def.hasReportId == s.def.hasReportId && r.def.reportId == s.def.reportId
    decreases n
  {
    if n == 0 then s
    else
      var t := InputField(s, data8);
      assert (n - 1) * s.size + s.size == n * s.size;
      InputFields(t, data8, n - 1)
  }

  /** Button fields first use up the skip count, then fill the four button
      slots in order; a field that is not a button field touches neither. */
  lemma {:induction false} InputButtons(s: Scan, data8: byte, n: nat)
    requires Assigned(s.def)
    ensures var r := InputFields(s, data8, n);
      if IsButtonField(s, data8) then
        r.skip == (if n <= s.skip then s.skip - n else 0) &&
        Buttons(r.def) == (if n <= s.skip then Buttons(s.def)
                           else if Buttons(s.def) + (n - s.skip) >= 4 then 4
                           else Buttons(s.def) + (n - s.skip))
      else
        r.skip == s.skip && Buttons(r.def) == Buttons(s.def)
    decreases n
  {
    if n > 0 {
      InputButtons(InputField(s, data8), data8, n - 1);
    }
  }

  /** The first field seen under Usage X while no axes are set fixes the X
      offset at the current byte and the Y offset one report size further. */
  lemma {:induction false} InputAxes(s: Scan, data8: byte, n: nat)
    requires Assigned(s.def)
    requires !s.def.xySet && s.usage == USAGE_DESKTOP_X && n > 0
    ensures var r := InputFields(s, data8, n);
      r.def.xySet && r.def.xAxisByte == s.bitCounter / 8 && r.def.yAxisByte == s.bitCounter / 8 + s.size / 8
  {
    var t := InputField(s, data8);
    assert t.def.xySet && t.def.xAxisByte == s.bitCounter / 8 && t.def.yAxisByte == s.bitCounter / 8 + s.size / 8;
  }

  /** The body of the `while (desc_len > 0)` loop for one item: its header
      byte and `data8`, the byte that follows the header. */
  function Item(s: Scan, header: byte, data8: byte): (r: Scan)
    requires Assigned(s.def)
    ensures Assigned(r.def) && Settled(s.def, r.def)
    ensures var h := DecodeHeader(header);
      r.bitCounter == s.bitCounter +
        (if h.typ == TYPE_MAIN && h.tag == MAIN_INPUT then s.count * s.size
         else if h.typ == TYPE_GLOBAL && h.tag == GLOBAL_REPORT_ID then 8
         else 0)
    ensures s.usage in {0, USAGE_PAGE_BUTTON, USAGE_DESKTOP_X} ==> r.usage in {0, USAGE_PAGE_BUTTON, USAGE_DESKTOP_X}
  {
    var h := DecodeHeader(header);
    if h.typ == TYPE_GLOBAL then
      if h.tag == GLOBAL_USAGE_PAGE then
        if data8 == USAGE_PAGE_BUTTON then s.(usage := USAGE_PAGE_BUTTON) else s
      else if h.tag == GLOBAL_LOGICAL_MIN then s.(min := data8)
      else if h.tag == GLOBAL_LOGICAL_MAX then s.(max := data8)
      else if h.tag == GLOBAL_REPORT_ID then
        var d := if !s.def.hasReportId then s.def.(hasReportId := true, reportId := data8) else s.def;
        s.(def := d, bitCounter := s.bitCounter + 8)
      else if h.tag == GLOBAL_REPORT_SIZE then s.(size := data8)
      else if h.tag == GLOBAL_REPORT_COUNT then s.(count := data8)
      else s
    else if h.typ == TYPE_LOCAL then
      if h.tag == LOCAL_USAGE && data8 == USAGE_DESKTOP_X then s.(usage := data8) else s
    else if h.typ == TYPE_MAIN then
      if h.tag == MAIN_INPUT then InputFields(s, data8, s.count) else s
    else s
  }

  /** `data8`: the byte after the header at `pos`. For the last item of the
      descriptor with no data, the C reads the byte that follows the
      descriptor in memory, which the model takes as the parameter `past`. */
  function Data8(desc: seq<byte>, pos: nat, past: byte): byte
  {
    if pos + 1 < |desc| then desc[pos + 1] else past
  }

  /** The `while (desc_len > 0)` loop from the item at `pos` on. */
  function Items(s: Scan, desc: seq<byte>, pos: nat, past: byte): (r: Scan)
    requires Framed(desc, pos) && Assigned(s.def)
    ensures Assigned(r.def) && Settled(s.def, r.def)
    ensures r.bitCounter >= s.bitCounter
    ensures s.usage in {0, USAGE_PAGE_BUTTON, USAGE_DESKTOP_X} ==> r.usage in {0, USAGE_PAGE_BUTTON, USAGE_DESKTOP_X}
    decreases |desc| - pos
  {
    if pos == |desc| then s
    else Items(Item(s, desc[pos], Data8(desc, pos, past)), desc, pos + ItemLength(desc[pos]), past)
  }

  /** The skip count for a product id: the last table entry whose pid matches,
      or 0. */
  function SkipFor(table: seq<ButtonSkip>, pid: int): (n: byte)
    ensures n == 0 || exists e :: e in table && e.pid == pid && e.nrSkip == n
  {
    if table == [] then 0
    else if table[|table| - 1].pid == pid then table[|table| - 1].nrSkip
    else SkipFor(table[..|table| - 1], pid)
  }

  lemma SkipTable(pid: int)
    ensures SkipFor(CONTROLLER_SKIP_BUTTONS, pid) == if pid == 0x0268 then 12 else 0
  {
    assert CONTROLLER_SKIP_BUTTONS[..0] == [];
  }

  /** The scan state before the first item. */
  function Start(pid: int): (s: Scan)
    ensures Assigned(s.def) && s.def == ZEROED && s.bitCounter == 0
    ensures s.skip == SkipFor(CONTROLLER_SKIP_BUTTONS, pid)
  {
    Scan(ZEROED, 0, SkipFor(CONTROLLER_SKIP_BUTTONS, pid), 0, 0, 0, 0, 0)
  }

  /** `parse_report_descriptor`: the record and the returned flag. The first
      four bytes (the Usage Page / Usage pair already checked by the caller)
      are skipped. */
  function Parse(pid: int, desc: seq<byte>, past: byte): (res: (JoystickBytes, bool))
    requires |desc| >= 4 && Framed(desc, 4)
    ensures Assigned(res.0)
    ensures res.1 <==> res.0.xySet && res.0.b1Set && res.0.b2Set && res.0.b3Set && res.0.b4Set
  {
    var s := Items(Start(pid), desc, 4, past);
    (s.def, Complete(s.def))
  }

  // ---------------------------------------------------------------- method

  /** The skip-table loop of parse_report_descriptor. */
  method SkipButtons(pid: int) returns (n: byte)
    ensures n == SkipFor(CONTROLLER_SKIP_BUTTONS, pid)
  {
    var table := CONTROLLER_SKIP_BUTTONS;
    n := 0;
    for i := 0 to |table|
      invariant n == SkipFor(table[..i], pid)
    {
      assert table[..i + 1][..i] == table[..i];
      if pid == table[i].pid {
        n := table[i].nrSkip;
      }
    }
    assert table[..|table|] == table;
  }

  /** One field of the Input case. */
  method ScanField(s0: Scan, data8: byte) returns (s: Scan)
    requires Assigned(s0.def)
    ensures s == InputField(s0, data8)
  {
    s := s0;
    var next := s.bitCounter + s.size;
    if s.usage == USAGE_PAGE_BUTTON && s.size == 1 && data8 == DATA_INPUT {
      if s.skip > 0 {
        s := s.(skip := s.skip - 1, bitCounter := next);
        return;
      }
      var mask := Mask(s.bitCounter);
      var d := s.def;
      if !d.b1Set {
        d := d.(buttonsByte := s.bitCounter / 8, b1Mask := mask, b1Set := true);
      } else if !d.b2Set {
        d := d.(b2Mask := mask, b2Set := true);
      } else if !d.b3Set {
        d := d.(b3Mask := mask, b3Set := true);
      } else if !d.b4Set {
        d := d.(b4Mask := mask, b4Set := true);
      }
      s := s.(def := d);
    } else if !s.def.xySet && (s.usage == USAGE_DESKTOP_X || s.usage == USAGE_DESKTOP_Y) {
      var x := s.bitCounter / 8;
      s := s.(def := s.def.(xAxisByte := x, yAxisByte := x + s.size / 8, xySet := true));
    }
    s := s.(bitCounter := next);
  }

  /** The Input case: the loop over `ri_report_count` fields. */
  method ScanInput(s0: Scan, data8: byte) returns (s: Scan)
    requires Assigned(s0.def)
    ensures s == InputFields(s0, data8, s0.count)
  {
    s := s0;
    for i := 0 to s0.count
      invariant Assigned(s.def) && s.count == s0.count
      invariant InputFields(s, data8, s0.count - i) == InputFields(s0, data8, s0.count)
    {
      assert InputFields(s, data8, s0.count - i) == InputFields(InputField(s, data8), data8, s0.count - i - 1);
      s := ScanField(s, data8);
    }
  }

  /** One pass of the `while` body: decode the header, dispatch on type and
      tag. */
  method ScanItem(s0: Scan, header: byte, data8: byte) returns (s: Scan)
    requires Assigned(s0.def)
    ensures s == Item(s0, header, data8)
  {
    s := s0;
    var h := DecodeHeader(header);
    if h.typ == TYPE_GLOBAL {
      if h.tag == GLOBAL_USAGE_PAGE {
        if data8 == USAGE_PAGE_BUTTON {
          s := s.(usage := USAGE_PAGE_BUTTON);
        }
      } else if h.tag == GLOBAL_LOGICAL_MIN {
        s := s.(min := data8);
      } else if h.tag == GLOBAL_LOGICAL_MAX {
        s := s.(max := data8);
      } else if h.tag == GLOBAL_REPORT_ID {
        if !s.def.hasReportId {
          s := s.(def := s.def.(hasReportId := true, reportId := data8));
        }
        s := s.(bitCounter := s.bitCounter + 8);
      } else if h.tag == GLOBAL_REPORT_SIZE {
        s := s.(size := data8);
      } else if h.tag == GLOBAL_REPORT_COUNT {
        s := s.(count := data8);
      }
    } else if h.typ == TYPE_LOCAL {
      if h.tag == LOCAL_USAGE && data8 == USAGE_DESKTOP_X {
        s := s.(usage := data8);
      }
    } else if h.typ == TYPE_MAIN {
      if h.tag == MAIN_INPUT {
        s := ScanInput(s, data8);
      }
    }
  }

  /** parse_report_descriptor: the cursor loop over the items after the
      first four bytes. */
  method ParseReportDescriptor(pid: int, desc: seq<byte>, past: byte) returns (def: JoystickBytes, ok: bool)
    requires |desc| >= 4 && Framed(desc, 4)
    ensures (def, ok) == Parse(pid, desc, past)
  {
    var skip := SkipButtons(pid);
    var s := Scan(ZEROED, 0, skip, 0, 0, 0, 0, 0);
    var pos := 4;
    var len := |desc| - 4;
    while len > 0
      invariant 4 <= pos <= |desc| && len == |desc| - pos
      invariant Framed(desc, pos) && Assigned(s.def)
      invariant Items(s, desc, pos, past) == Items(Start(pid), desc, 4, past)
      decreases len
    {
      var header := desc[pos];
      pos, len := pos + 1, len - 1;
      var data8 := if pos < |desc| then desc[pos] else past;
      s := ScanItem(s, header, data8);
      var size := DecodeHeader(header).size;
      pos, len := pos + size, len - size;
    }
    def := s.def;
    ok := def.xySet && def.b1Set && def.b2Set && def.b3Set && def.b4Set;
  }
}
