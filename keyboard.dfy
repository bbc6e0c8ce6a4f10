/** The boot-keyboard report differ (usb_kbd.c).

    Each boot keyboard report (Appendix B.1 of the Device Class Definition for
    HID 1.11: a modifier byte, a reserved byte and six keycode slots) is
    compared with the previous one; every newly pressed key is sent to the
    Altair as the two bytes DAZ_KEY, ascii. The ascii value comes from a
    US-layout table indexed by keycode (Keyboard/Keypad page, section 10 of the
    HID Usage Tables 1.12) and by a column chosen from the modifiers. */
module Keyboard {
  import opened Bytes

  /** Header of a key message to the Altair. */
  const DAZ_KEY: byte := 0x30

  // Modifier bits of a boot keyboard report (HID 1.11 Appendix B.1).
  const MOD_LEFTCTRL: bv8 := 0x01
  const MOD_LEFTSHIFT: bv8 := 0x02
  const MOD_RIGHTCTRL: bv8 := 0x10
  const MOD_RIGHTSHIFT: bv8 := 0x20

  /** The six keycode slots of a boot keyboard report. */
  type Keycodes = s: seq<byte> | |s| == 6 witness [0, 0, 0, 0, 0, 0]

  /** `hid_keyboard_report_t`. */
  datatype KeyboardReport = KeyboardReport(modifier: byte, reserved: byte, keycode: Keycodes)

  /** The all-zero report `prev_kb_report` starts as. */
  const NO_KEYS := KeyboardReport(0, 0, [0, 0, 0, 0, 0, 0])

  /** One row of `keycode2ascii`: the character without modifier, with Shift
      and with Ctrl. */
  datatype Row = Row(plain: byte, shift: byte, ctrl: byte)

  /** A character of the table as its byte value. */
  function C(c: char): (b: byte)
    requires c as int < 256
    ensures b == c as int
  {
    c as int
  }

  /** The rows of `keycode2ascii` that the initializer lists (keycodes 0x00 to
      0x67), in blocks of sixteen keycodes; the declared table has 128 rows
      and the C zero-fills the rest. */
  const KEYCODE2ASCII: seq<Row> :=
    KEYS_0X + KEYS_1X + KEYS_2X + KEYS_3X + KEYS_4X + KEYS_5X + KEYS_6X

  const KEYS_0X: seq<Row> := [
    Row(0, 0, 0),  // 0x00
    Row(0, 0, 0),  // 0x01
    Row(0, 0, 0),  // 0x02
    Row(0, 0, 0),  // 0x03
    Row(C('a'), C('A'), 1),  // 0x04
    Row(C('b'), C('B'), 2),  // 0x05
    Row(C('c'), C('C'), 3),  // 0x06
    Row(C('d'), C('D'), 4),  // 0x07
    Row(C('e'), C('E'), 5),  // 0x08
    Row(C('f'), C('F'), 6),  // 0x09
    Row(C('g'), C('G'), 7),  // 0x0a
    Row(C('h'), C('H'), 8),  // 0x0b
    Row(C('i'), C('I'), 9),  // 0x0c
    Row(C('j'), C('J'), 10),  // 0x0d
    Row(C('k'), C('K'), 11),  // 0x0e
    Row(C('l'), C('L'), 12)   // 0x0f
  ]

  const KEYS_1X: seq<Row> := [
    Row(C('m'), C('M'), 13),  // 0x10
    Row(C('n'), C('N'), 14),  // 0x11
    Row(C('o'), C('O'), 15),  // 0x12
    Row(C('p'), C('P'), 16),  // 0x13
    Row(C('q'), C('Q'), 17),  // 0x14
    Row(C('r'), C('R'), 18),  // 0x15
    Row(C('s'), C('S'), 19),  // 0x16
    Row(C('t'), C('T'), 20),  // 0x17
    Row(C('u'), C('U'), 21),  // 0x18
    Row(C('v'), C('V'), 22),  // 0x19
    Row(C('w'), C('W'), 23),  // 0x1a
    Row(C('x'), C('X'), 24),  // 0x1b
    Row(C('y'), C('Y'), 25),  // 0x1c
    Row(C('z'), C('Z'), 26),  // 0x1d
    Row(C('1'), C('!'), 0),  // 0x1e
    Row(C('2'), C('@'), 0)   // 0x1f
  ]

  const KEYS_2X: seq<Row> := [
    Row(C('3'), C('#'), 0),  // 0x20
    Row(C('4'), C('$'), 0),  // 0x21
    Row(C('5'), C('%'), 0),  // 0x22
    Row(C('6'), C('^'), 0),  // 0x23
    Row(C('7'), C('&'), 0),  // 0x24
    Row(C('8'), C('*'), 0),  // 0x25
    Row(C('9'), C('('), 0),  // 0x26
    Row(C('0'), C(')'), 0),  // 0x27
    Row(C('\r'), C('\r'), 0),  // 0x28
    Row(C('\U{1b}'), C('\U{1b}'), 0),  // 0x29
    Row(C('\U{8}'), C('\U{8}'), 0),  // 0x2a
    Row(C('\t'), C('\t'), 0),  // 0x2b
    Row(C(' '), C(' '), 0),  // 0x2c
    Row(C('-'), C('_'), 0),  // 0x2d
    Row(C('='), C('+'), 0),  // 0x2e
    Row(C('['), C('{'), 0)   // 0x2f
  ]

  const KEYS_3X: seq<Row> := [
    Row(C(']'), C('}'), 0),  // 0x30
    Row(C('\\'), C('|'), 0),  // 0x31
    Row(C('#'), C('~'), 0),  // 0x32
    Row(C(';'), C(':'), 0),  // 0x33
    Row(C('\''), C('"'), 0),  // 0x34
    Row(C('`'), C('~'), 0),  // 0x35
    Row(C(','), C('<'), 0),  // 0x36
    Row(C('.'), C('>'), 0),  // 0x37
    Row(C('/'), C('?'), 0),  // 0x38
    Row(0, 0, 0),  // 0x39
    Row(0, 0, 0),  // 0x3a
    Row(0, 0, 0),  // 0x3b
    Row(0, 0, 0),  // 0x3c
    Row(0, 0, 0),  // 0x3d
    Row(0, 0, 0),  // 0x3e
    Row(0, 0, 0)   // 0x3f
  ]

  const KEYS_4X: seq<Row> := [
    Row(0, 0, 0),  // 0x40
    Row(0, 0, 0),  // 0x41
    Row(0, 0, 0),  // 0x42
    Row(0, 0, 0),  // 0x43
    Row(0, 0, 0),  // 0x44
    Row(0, 0, 0),  // 0x45
    Row(0, 0, 0),  // 0x46
    Row(0, 0, 0),  // 0x47
    Row(0, 0, 0),  // 0x48
    Row(0, 0, 0),  // 0x49
    Row(0, 0, 0),  // 0x4a
    Row(0, 0, 0),  // 0x4b
    Row(0, 0, 0),  // 0x4c
    Row(0, 0, 0),  // 0x4d
    Row(0, 0, 0),  // 0x4e
    Row(0, 0, 0)   // 0x4f
  ]

  const KEYS_5X: seq<Row> := [
    Row(0, 0, 0),  // 0x50
    Row(0, 0, 0),  // 0x51
    Row(0, 0, 0),  // 0x52
    Row(0, 0, 0),  // 0x53
    Row(C('/'), C('/'), 0),  // 0x54
    Row(C('*'), C('*'), 0),  // 0x55
    Row(C('-'), C('-'), 0),  // 0x56
    Row(C('+'), C('+'), 0),  // 0x57
    Row(C('\r'), C('\r'), 0),  // 0x58
    Row(C('1'), 0, 0),  // 0x59
    Row(C('2'), 0, 0),  // 0x5a
    Row(C('3'), 0, 0),  // 0x5b
    Row(C('4'), 0, 0),  // 0x5c
    Row(C('5'), C('5'), 0),  // 0x5d
    Row(C('6'), 0, 0),  // 0x5e
    Row(C('7'), 0, 0)   // 0x5f
  ]

  const KEYS_6X: seq<Row> := [
    Row(C('8'), 0, 0),  // 0x60
    Row(C('9'), 0, 0),  // 0x61
    Row(C('0'), 0, 0),  // 0x62
    Row(C('.'), 0, 0),  // 0x63
    Row(0, 0, 0),  // 0x64
    Row(0, 0, 0),  // 0x65
    Row(0, 0, 0),  // 0x66
    Row(C('='), C('='), 0)   // 0x67
  ]

  /** Rows the C table is declared with. */
  const TABLE_ROWS := 128

  /** The column of the table: either Shift selects 1, otherwise either Ctrl
      selects 2, otherwise 0. */
  function Column(modifier: byte): (col: int)
    ensures 0 <= col < 3
    ensures col == 1 <==> Bit(modifier, 1) || Bit(modifier, 5)
    ensures col == 2 <==> !(Bit(modifier, 1) || Bit(modifier, 5)) && (Bit(modifier, 0) || Bit(modifier, 4))
  {
    var m := modifier as bv8;
    BitOfMask(modifier);
    if m & (MOD_LEFTSHIFT | MOD_RIGHTSHIFT) != 0 then 1
    else if m & (MOD_LEFTCTRL | MOD_RIGHTCTRL) != 0 then 2
    else 0
  }

  /** The C masks on the modifier byte agree with its arithmetic bits. */
  lemma BitOfMask(v: byte)
    ensures ((v as bv8) & (MOD_LEFTSHIFT | MOD_RIGHTSHIFT) != 0) <==> Bit(v, 1) || Bit(v, 5)
    ensures ((v as bv8) & (MOD_LEFTCTRL | MOD_RIGHTCTRL) != 0) <==> Bit(v, 0) || Bit(v, 4)
  {
    assert Pow2(1) == 2 && Pow2(5) == 32 && Pow2(0) == 1 && Pow2(4) == 16;
  }

  /** `keycode2ascii` as declared: the listed rows, then the zero rows the
      C fills in up to the 128 declared rows. */
  const DECLARED_TABLE: seq<Row> := KEYCODE2ASCII + ZeroRows(TABLE_ROWS - |KEYCODE2ASCII|)

  /** n rows with no character in any column. */
  function ZeroRows(n: nat): (rows: seq<Row>)
    ensures |rows| == n && forall i | 0 <= i < n :: rows[i] == Row(0, 0, 0)
  {
    if n == 0 then [] else ZeroRows(n - 1) + [Row(0, 0, 0)]
  }

  /** `keycode2ascii[keycode][column]` as the C indexes it: defined only for
      a keycode inside the 128 declared rows. */
  function KeycodeToAsciiAsWritten(k: byte, col: int): (ch: byte)
    requires k < |DECLARED_TABLE| && 0 <= col < 3
    ensures |KEYCODE2ASCII| <= k ==> ch == 0
  {
    Cell(DECLARED_TABLE[k], col)
  }

  /** The declared table has 128 rows and, inside them, gives what the
      corrected lookup gives: the zero fill is the "no character" answer. */
  lemma {:induction false} DeclaredTableAgrees(k: byte, col: int)
    requires 0 <= col < 3
    ensures |DECLARED_TABLE| == TABLE_ROWS
    ensures k < TABLE_ROWS ==> KeycodeToAsciiAsWritten(k, col) == KeycodeToAscii(k, col)
  {
    if |KEYCODE2ASCII| <= k < TABLE_ROWS {
      assert DECLARED_TABLE[k] == Row(0, 0, 0);
    }
  }

  function Cell(row: Row, col: int): byte
    requires 0 <= col < 3
  {
    if col == 0 then row.plain else if col == 1 then row.shift else row.ctrl
  }

  /** The lookup over every keycode: a keycode with no listed row, including
      those at or above the 128 declared rows, has no character. */
  function KeycodeToAscii(k: byte, col: int): (ch: byte)
    requires 0 <= col < 3
    ensures k >= |KEYCODE2ASCII| ==> ch == 0
  {
    if k < |KEYCODE2ASCII| then Cell(KEYCODE2ASCII[k], col) else 0
  }

  /** A keycode at or above 128 (International1, 0x87, on a Japanese
      keyboard) pressed after an empty report reaches the table lookup with a
      row index outside the declared 128 rows. */
  lemma KeycodeBeyondTable()
    ensures var report := KeyboardReport(0, 0, [0x87, 0, 0, 0, 0, 0]);
      IsNewKey(NO_KEYS, report, 0) && !(report.keycode[0] < |DECLARED_TABLE|) &&
      KeycodeToAscii(report.keycode[0], 0) == 0
  {
    DeclaredTableAgrees(0x87, 0);
  }

  /** Letter keys: keycodes 0x04 to 0x1D give the lower-case letter, the
      upper-case letter with Shift and the control code 1 to 26 with Ctrl. */
  lemma LetterKeys(k: byte)
    requires 0x04 <= k <= 0x1D
    ensures KeycodeToAscii(k, 0) == 'a' as int + (k - 4)
    ensures KeycodeToAscii(k, 1) == 'A' as int + (k - 4)
    ensures KeycodeToAscii(k, 2) == k - 3
  {
    if k == 4 {
      assert KEYCODE2ASCII[4] == Row(97, 65, 1);
    } else if k == 5 {
      assert KEYCODE2ASCII[5] == Row(98, 66, 2);
    } else if k == 6 {
      assert KEYCODE2ASCII[6] == Row(99, 67, 3);
    } else if k == 7 {
      assert KEYCODE2ASCII[7] == Row(100, 68, 4);
    } else if k == 8 {
      assert KEYCODE2ASCII[8] == Row(101, 69, 5);
    } else if k == 9 {
      assert KEYCODE2ASCII[9] == Row(102, 70, 6);
    } else if k == 10 {
      assert KEYCODE2ASCII[10] == Row(103, 71, 7);
    } else if k == 11 {
      assert KEYCODE2ASCII[11] == Row(104, 72, 8);
    } else if k == 12 {
      assert KEYCODE2ASCII[12] == Row(105, 73, 9);
    } else if k == 13 {
      assert KEYCODE2ASCII[13] == Row(106, 74, 10);
    } else if k == 14 {
      assert KEYCODE2ASCII[14] == Row(107, 75, 11);
    } else if k == 15 {
      assert KEYCODE2ASCII[15] == Row(108, 76, 12);
    } else if k == 16 {
      assert KEYCODE2ASCII[16] == Row(109, 77, 13);
    } else if k == 17 {
      assert KEYCODE2ASCII[17] == Row(110, 78, 14);
    } else if k == 18 {
      assert KEYCODE2ASCII[18] == Row(111, 79, 15);
    } else if k == 19 {
      assert KEYCODE2ASCII[19] == Row(112, 80, 16);
    } else if k == 20 {
      assert KEYCODE2ASCII[20] == Row(113, 81, 17);
    } else if k == 21 {
      assert KEYCODE2ASCII[21] == Row(114, 82, 18);
    } else if k == 22 {
      assert KEYCODE2ASCII[22] == Row(115, 83, 19);
    } else if k == 23 {
      assert KEYCODE2ASCII[23] == Row(116, 84, 20);
    } else if k == 24 {
      assert KEYCODE2ASCII[24] == Row(117, 85, 21);
    } else if k == 25 {
      assert KEYCODE2ASCII[25] == Row(118, 86, 22);
    } else if k == 26 {
      assert KEYCODE2ASCII[26] == Row(119, 87, 23);
    } else if k == 27 {
      assert KEYCODE2ASCII[27] == Row(120, 88, 24);
    } else if k == 28 {
      assert KEYCODE2ASCII[28] == Row(121, 89, 25);
    } else if k == 29 {
      assert KEYCODE2ASCII[29] == Row(122, 90, 26);
    }
  }

  /** A slot of `cur` that holds a key absent from the previous report. */
  predicate IsNewKey(prev: KeyboardReport, cur: KeyboardReport, i: int)
    requires 0 <= i < 6
  {
    cur.keycode[i] != 0 && cur.keycode[i] !in prev.keycode
  }

  /** The message for the key in slot `i`. */
  function KeyMessage(cur: KeyboardReport, i: int): (m: seq<byte>)
    requires 0 <= i < 6
    ensures |m| == 2 && m[0] == DAZ_KEY
  {
    [DAZ_KEY, KeycodeToAscii(cur.keycode[i], Column(cur.modifier))]
  }

  /** The bytes sent for slots 0 to n-1, in slot order. */
  function Messages(prev: KeyboardReport, cur: KeyboardReport, n: int): (m: seq<byte>)
    requires 0 <= n <= 6
  {
    if n == 0 then []
    else Messages(prev, cur, n - 1) + (if IsNewKey(prev, cur, n - 1) then KeyMessage(cur, n - 1) else [])
  }

  /** The slots below n that hold new keys, in increasing order. */
  function NewSlots(prev: KeyboardReport, cur: KeyboardReport, n: int): (s: seq<int>)
    requires 0 <= n <= 6
    ensures forall j :: 0 <= j < |s| ==> 0 <= s[j] < n
    ensures forall i :: i in s <==> 0 <= i < n && IsNewKey(prev, cur, i)
    ensures forall j, k :: 0 <= j < k < |s| ==> s[j] < s[k]
  {
    if n == 0 then []
    else NewSlots(prev, cur, n - 1) + (if IsNewKey(prev, cur, n - 1) then [n - 1] else [])
  }

  /** Exactly one two-byte message per new key, in slot order: key j of the
      new keys is sent as the bytes at 2j and 2j+1. */
  lemma {:induction false} OneMessagePerNewKey(prev: KeyboardReport, cur: KeyboardReport, n: int)
    requires 0 <= n <= 6
    ensures var m, s := Messages(prev, cur, n), NewSlots(prev, cur, n);
      |m| == 2 * |s| && forall j :: 0 <= j < |s| ==> m[2 * j..2 * j + 2] == KeyMessage(cur, s[j])
  {
    if n > 0 {
      OneMessagePerNewKey(prev, cur, n - 1);
      var m, s := Messages(prev, cur, n - 1), NewSlots(prev, cur, n - 1);
      if IsNewKey(prev, cur, n - 1) {
        var m', s' := m + KeyMessage(cur, n - 1), s + [n - 1];
        assert Messages(prev, cur, n) == m' && NewSlots(prev, cur, n) == s';
        forall j | 0 <= j < |s'|
          ensures m'[2 * j..2 * j + 2] == KeyMessage(cur, s'[j])
        {
          if j < |s| {
            assert m'[2 * j..2 * j + 2] == m[2 * j..2 * j + 2];
          } else {
            assert m'[2 * j..2 * j + 2] == KeyMessage(cur, n - 1);
          }
        }
      } else {
        assert Messages(prev, cur, n) == m && NewSlots(prev, cur, n) == s;
      }
    }
  }

  /** Keys that were already down send nothing: a report whose keys all appear
      in the previous report produces no message. */
  lemma {:induction false} HeldKeysSilent(prev: KeyboardReport, cur: KeyboardReport, n: int)
    requires 0 <= n <= 6
    requires forall i :: 0 <= i < 6 ==> cur.keycode[i] == 0 || cur.keycode[i] in prev.keycode
    ensures Messages(prev, cur, n) == []
  {
    if n > 0 {
      HeldKeysSilent(prev, cur, n - 1);
    }
  }

  /** The same report twice in a row sends nothing the second time. */
  lemma RepeatedReportSilent(r: KeyboardReport)
    ensures Messages(r, r, 6) == []
  {
    HeldKeysSilent(r, r, 6);
  }

  /** `keyboard_device`: the one keyboard being listened to. */
  datatype KeyboardDevice = KeyboardDevice(devAddr: byte, instance: byte, connected: bool)

  /** kbd_hid_mount_cb on the device record. */
  function Mounted(d: KeyboardDevice, addr: byte, inst: byte): (e: KeyboardDevice)
    ensures e.connected
    ensures d.connected ==> e == d
    ensures !d.connected ==> e.devAddr == addr && e.instance == inst
  {
    if !d.connected then KeyboardDevice(addr, inst, true) else d
  }

  /** kbd_hid_unmount_cb on the device record. */
  function Unmounted(d: KeyboardDevice, addr: byte, inst: byte): (e: KeyboardDevice)
    ensures e.devAddr == d.devAddr && e.instance == d.instance
    ensures e.connected <==> d.connected && !(d.devAddr == addr && d.instance == inst)
  {
    if d.connected && d.devAddr == addr && d.instance == inst then d.(connected := false) else d
  }

  /** Mounting a keyboard while none is connected and unmounting the same
      keyboard leaves none connected; a second keyboard neither replaces the
      first on mount nor disconnects it on unmount. */
  lemma MountUnmount(d: KeyboardDevice, addr: byte, inst: byte, addr2: byte, inst2: byte)
    requires !d.connected
    ensures !Unmounted(Mounted(d, addr, inst), addr, inst).connected
    ensures (addr2, inst2) != (addr, inst) ==>
      var e := Mounted(Mounted(d, addr, inst), addr2, inst2);
      e == Mounted(d, addr, inst) && Unmounted(e, addr2, inst2).connected
  {
  }

  /** The keyboard side of the USB host: the device record, the previous
      report and the bytes sent to the Altair. */
  class KeyboardState {
    var device: KeyboardDevice
    var prevReport: KeyboardReport
    var sent: seq<byte>

    constructor()
      ensures device == KeyboardDevice(0, 0, false) && prevReport == NO_KEYS && sent == []
    {
      device := KeyboardDevice(0, 0, false);
      prevReport := NO_KEYS;
      sent := [];
    }

    /** kbd_hid_mount_cb. */
    method Mount(addr: byte, inst: byte)
      modifies this`device
      ensures device == Mounted(old(device), addr, inst)
    {
      if !device.connected {
        device := KeyboardDevice(addr, inst, true);
      }
    }

    /** kbd_hid_unmount_cb. */
    method Unmount(addr: byte, inst: byte)
      modifies this`device
      ensures device == Unmounted(old(device), addr, inst)
    {
      if device.connected && device.devAddr == addr && device.instance == inst {
        device := device.(connected := false);
      }
    }

    /** kbd_process_hid_report: sends one message per newly pressed key and
        remembers the report. */
    method ProcessReport(cur: KeyboardReport)
      modifies this`prevReport, this`sent
      ensures sent == old(sent) + Messages(old(prevReport), cur, 6)
      ensures prevReport == cur
    {
      var prev := prevReport;
      for i := 0 to 6
        invariant sent == old(sent) + Messages(prev, cur, i)
      {
        if cur.keycode[i] != 0 {
          var held := FindKeyInReport(prev, cur.keycode[i]);
          if !held {
            var ch := KeycodeToAscii(cur.keycode[i], Column(cur.modifier));
            sent := sent + [DAZ_KEY, ch];
          }
        }
      }
      prevReport := cur;
    }
  }

  /** find_key_in_report. */
  method FindKeyInReport(report: KeyboardReport, keycode: byte) returns (found: bool)
    ensures found <==> keycode in report.keycode
  {
    for i := 0 to 6
      invariant keycode !in report.keycode[..i]
    {
      if report.keycode[i] == keycode {
        return true;
      }
    }
    return false;
  }
}
