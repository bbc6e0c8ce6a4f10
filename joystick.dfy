/** Joystick message packing and the two joystick slots (usb_joystick.c).

    A joystick report (usb_joystick.h, laid out for a USB SNES pad) that
    differs from the slot's previous report is sent to the Altair as three
    bytes: a header naming the joystick with one bit per released button,
    then the X and Y positions as signed bytes. Bit fields are taken in the
    order the compiler for the target allocates them, from the least
    significant bit up. */
module Joystick {
  import opened Bytes

  /** Headers of the joystick messages to the Altair. */
  const DAZ_JOY1: byte := 0x10
  const DAZ_JOY2: byte := 0x20

  /** The seven bytes of `joystick_report`: x, y, three unused bytes, the
      byte whose bits 4 to 7 are btn1 to btn4, and the shoulder/select/start
      byte. */
  type JoystickReport = s: seq<byte> | |s| == 7 witness [0, 0, 0, 0, 0, 0, 0]

  const ZERO_REPORT: JoystickReport := [0, 0, 0, 0, 0, 0, 0]

  /** Button k (1 to 4) of a report is pressed. */
  predicate Pressed(report: JoystickReport, k: int)
    requires 1 <= k <= 4
  {
    Bit(report[5], 3 + k)
  }

  /** The only stick positions a digital pad reports: left/up, centre,
      right/down. */
  predicate IsAxisValue(v: byte)
  {
    v == 0 || v == 127 || v == 255
  }

  /** A byte read as a two's complement `int8_t`. */
  function Signed(b: byte): (v: int)
    ensures -128 <= v < 128 && (v - b) % 256 == 0
  {
    if b < 128 then b else b - 256
  }

  /** get_joy_value_x: left is -127, centre 0, right +127. */
  function JoyValueX(value: byte): (r: byte)
    requires IsAxisValue(value)
    ensures Signed(r) == (if value == 0 then -127 else if value == 255 then 127 else 0)
  {
    if value == 127 then 0
    else if value == 0 then 0x81
    else 127
  }

  /** get_joy_value_y: up is +127, centre 0, down -127. */
  function JoyValueY(value: byte): (r: byte)
    requires IsAxisValue(value)
    ensures Signed(r) == (if value == 0 then 127 else if value == 255 then -127 else 0)
  {
    if value == 127 then 0
    else if value == 0 then 127
    else 0x81
  }

  /** The Y axis is the X axis mirrored: the same raw value gives the opposite
      signed position. */
  lemma AxisMirror(value: byte)
    requires IsAxisValue(value)
    ensures Signed(JoyValueY(value)) == -Signed(JoyValueX(value))
  {
  }

  /** The header byte: 0x10 for joystick 0, 0x20 for any other, with bit k
      (k = 0 to 3) set when button k+1 is released. */
  function JoyHeader(joynum: byte, report: JoystickReport): (h: byte)
    ensures h / 16 == (if joynum == 0 then 1 else 2)
    ensures Bit(h, 0) <==> !Pressed(report, 1)
    ensures Bit(h, 1) <==> !Pressed(report, 2)
    ensures Bit(h, 2) <==> !Pressed(report, 3)
    ensures Bit(h, 3) <==> !Pressed(report, 4)
  {
    (if joynum == 0 then DAZ_JOY1 else DAZ_JOY2) +
    (if Pressed(report, 1) then 0 else 1) +
    (if Pressed(report, 2) then 0 else 2) +
    (if Pressed(report, 3) then 0 else 4) +
    (if Pressed(report, 4) then 0 else 8)
  }

  /** The three-byte message for a report. */
  function JoyMessage(joynum: byte, report: JoystickReport): (m: seq<byte>)
    requires IsAxisValue(report[0]) && IsAxisValue(report[1])
    ensures |m| == 3 && m[0] == JoyHeader(joynum, report)
    ensures Signed(m[2]) == -Signed(JoyValueX(report[1]))
  {
    AxisMirror(report[1]);
    [JoyHeader(joynum, report), JoyValueX(report[0]), JoyValueY(report[1])]
  }

  /** `usb_joystick`: one slot of the joystick table. */
  datatype JoystickSlot = JoystickSlot(connected: bool, devAddr: byte, instance: byte, prevReport: JoystickReport)

  const EMPTY_SLOT := JoystickSlot(false, 0, 0, ZERO_REPORT)

  /** A report descriptor that opens with Usage Page (Generic Desktop) and
      Usage (Joystick) or Usage (Game Pad). */
  predicate IsJoystickDescriptor(desc: seq<byte>)
    requires |desc| >= 4
  {
    desc[..4] == [0x05, 0x01, 0x09, 0x04] || desc[..4] == [0x05, 0x01, 0x09, 0x05]
  }

  /** The index of the first slot not connected, or |slots| when all are. */
  function FirstFree(slots: seq<JoystickSlot>): (k: int)
    ensures 0 <= k <= |slots|
    ensures k < |slots| ==> !slots[k].connected
    ensures forall j :: 0 <= j < k ==> slots[j].connected
  {
    if slots == [] then 0
    else if !slots[0].connected then 0
    else 1 + FirstFree(slots[1..])
  }

  /** The index of the first slot recorded for this device, connected or
      not, or |slots| when there is none. */
  function FirstMatch(slots: seq<JoystickSlot>, addr: byte, inst: byte): (k: int)
    ensures 0 <= k <= |slots|
    ensures k < |slots| ==> slots[k].devAddr == addr && slots[k].instance == inst
    ensures forall j :: 0 <= j < k ==> !(slots[j].devAddr == addr && slots[j].instance == inst)
  {
    if slots == [] then 0
    else if slots[0].devAddr == addr && slots[0].instance == inst then 0
    else 1 + FirstMatch(slots[1..], addr, inst)
  }

  /** tuh_hid_mount_cb on the slot table. */
  function Mounted(slots: seq<JoystickSlot>, addr: byte, inst: byte, desc: seq<byte>): seq<JoystickSlot>
    requires |desc| >= 4
  {
    var k := FirstFree(slots);
    if IsJoystickDescriptor(desc) && k < |slots| then slots[k := JoystickSlot(true, addr, inst, ZERO_REPORT)]
    else slots
  }

  /** tuh_hid_umount_cb on the slot table. */
  function Unmounted(slots: seq<JoystickSlot>, addr: byte, inst: byte): seq<JoystickSlot>
  {
    var k := FirstMatch(slots, addr, inst);
    if k < |slots| then slots[k := slots[k].(connected := false)] else slots
  }

  /** Mounting takes the first free slot for a joystick or game pad and
      nothing else; with every slot taken, or for another device, nothing
      changes. */
  lemma MountTakesFirstFree(slots: seq<JoystickSlot>, addr: byte, inst: byte, desc: seq<byte>)
    requires |desc| >= 4
    ensures var t := Mounted(slots, addr, inst, desc);
      |t| == |slots| &&
      (if IsJoystickDescriptor(desc) && exists j :: 0 <= j < |slots| && !slots[j].connected
       then t[FirstFree(slots)] == JoystickSlot(true, addr, inst, ZERO_REPORT) &&
            forall j :: 0 <= j < |slots| && j != FirstFree(slots) ==> t[j] == slots[j]
       else t == slots)
  {
  }

  /** Unmounting clears `connected` on the first slot recorded for the device
      (whether or not it was connected) and on no other. */
  lemma UnmountClearsFirstMatch(slots: seq<JoystickSlot>, addr: byte, inst: byte)
    ensures var t := Unmounted(slots, addr, inst);
      |t| == |slots| &&
      forall j :: 0 <= j < |slots| ==>
        if j == FirstMatch(slots, addr, inst)
        then t[j] == slots[j].(connected := false)
        else t[j] == slots[j]
  {
  }

  /** A joystick mounted while no connected slot holds the same device is
      disconnected again by its unmount. */
  lemma MountThenUnmount(slots: seq<JoystickSlot>, addr: byte, inst: byte, desc: seq<byte>)
    requires |desc| >= 4 && IsJoystickDescriptor(desc) && FirstFree(slots) < |slots|
    requires forall j :: 0 <= j < |slots| && slots[j].connected ==> !(slots[j].devAddr == addr && slots[j].instance == inst)
    ensures var k, u := FirstFree(slots), Unmounted(Mounted(slots, addr, inst, desc), addr, inst);
      |u| == |slots| && u[k] == JoystickSlot(false, addr, inst, ZERO_REPORT) &&
      forall j :: 0 <= j < |slots| && j != k ==> u[j] == slots[j]
  {
    var k := FirstFree(slots);
    var t := slots[k := JoystickSlot(true, addr, inst, ZERO_REPORT)];
    assert Mounted(slots, addr, inst, desc) == t;
    FreeSlotFirstMatch(slots, addr, inst, k);
    ClearFirstMatch(t, addr, inst, k);
  }

  /** Taking the first free slot for a device no connected slot holds makes
      that slot the device's first match. */
  lemma FreeSlotFirstMatch(slots: seq<JoystickSlot>, addr: byte, inst: byte, k: int)
    requires 0 <= k < |slots| && k == FirstFree(slots)
    requires forall j :: 0 <= j < |slots| && slots[j].connected ==> !(slots[j].devAddr == addr && slots[j].instance == inst)
    ensures var t := slots[k := JoystickSlot(true, addr, inst, ZERO_REPORT)];
      forall j :: 0 <= j < k ==> !(t[j].devAddr == addr && t[j].instance == inst)
  {
  }

  lemma ClearFirstMatch(t: seq<JoystickSlot>, addr: byte, inst: byte, k: int)
    requires 0 <= k < |t| && t[k].devAddr == addr && t[k].instance == inst
    requires forall j :: 0 <= j < k ==> !(t[j].devAddr == addr && t[j].instance == inst)
    ensures Unmounted(t, addr, inst) == t[k := t[k].(connected := false)]
  {
    assert FirstMatch(t, addr, inst) == k;
  }

  /** process_joy_input on one slot: a report equal to the previous one sends
      nothing; any other is stored and sent. */
  function JoyInput(slot: JoystickSlot, joynum: byte, report: JoystickReport): (r: (JoystickSlot, seq<byte>))
    requires report != slot.prevReport ==> IsAxisValue(report[0]) && IsAxisValue(report[1])
  {
    if report == slot.prevReport then (slot, [])
    else (slot.(prevReport := report), JoyMessage(joynum, report))
  }

  /** A report is sent once: the same report again sends nothing. */
  lemma RepeatedReportSilent(slot: JoystickSlot, joynum: byte, report: JoystickReport)
    requires IsAxisValue(report[0]) && IsAxisValue(report[1])
    ensures var s := JoyInput(slot, joynum, report).0;
      s.prevReport == report && JoyInput(s, joynum, report).1 == []
  {
  }

  /** The joystick side of the USB host: `joysticks[2]`, `joy_mounted` and the
      bytes sent to the Altair. */
  class Joysticks {
    const slots: array<JoystickSlot>
    var mounted: bool
    var sent: seq<byte>

    ghost predicate Valid()
      reads this
    {
      slots.Length == 2
    }

    constructor()
      ensures Valid() && fresh(slots) && slots[..] == [EMPTY_SLOT, EMPTY_SLOT]
      ensures !mounted && sent == []
    {
      slots := new JoystickSlot[2](_ => EMPTY_SLOT);
      mounted := false;
      sent := [];
    }

    /** tuh_hid_mount_cb: a joystick or game pad takes the first free slot;
        `joy_mounted` records that one did. */
    method Mount(addr: byte, inst: byte, desc: seq<byte>)
      requires Valid() && |desc| >= 4
      modifies slots, this`mounted
      ensures Valid()
      ensures slots[..] == Mounted(old(slots[..]), addr, inst, desc)
      ensures mounted == (old(mounted) || (IsJoystickDescriptor(desc) && FirstFree(old(slots[..])) < 2))
    {
      if desc[..4] == [0x05, 0x01, 0x09, 0x04] || desc[..4] == [0x05, 0x01, 0x09, 0x05] {
        for i := 0 to 2
          invariant slots[..] == old(slots[..])
          invariant forall j :: 0 <= j < i ==> slots[j].connected
          invariant mounted == old(mounted)
        {
          if !slots[i].connected {
            slots[i] := JoystickSlot(true, addr, inst, ZERO_REPORT);
            mounted := true;
            return;
          }
        }
      }
    }

    /** tuh_hid_umount_cb: the first slot recorded for the device is marked
        disconnected. */
    method Unmount(addr: byte, inst: byte)
      requires Valid()
      modifies slots
      ensures Valid()
      ensures slots[..] == Unmounted(old(slots[..]), addr, inst)
    {
      for i := 0 to 2
        invariant slots[..] == old(slots[..])
        invariant forall j :: 0 <= j < i ==> !(slots[j].devAddr == addr && slots[j].instance == inst)
      {
        if slots[i].devAddr == addr && slots[i].instance == inst {
          slots[i] := slots[i].(connected := false);
          return;
        }
      }
    }

    /** process_joy_input: joystick `joynum`'s report is compared with the one
        it sent last and, when it differs, stored and sent. The C sets the
        button bits with `|=`; they are distinct, so adding them is the same. */
    method ProcessJoyInput(joynum: byte, report: JoystickReport)
      requires Valid() && joynum < 2
      requires report != slots[joynum].prevReport ==> IsAxisValue(report[0]) && IsAxisValue(report[1])
      modifies slots, this`sent
      ensures Valid()
      ensures var r := JoyInput(old(slots[joynum]), joynum, report);
        slots[..] == old(slots[..])[joynum := r.0] && sent == old(sent) + r.1
    {
      if report != slots[joynum].prevReport {
        slots[joynum] := slots[joynum].(prevReport := report);
        var header := if joynum == 0 then DAZ_JOY1 else DAZ_JOY2;
        if !Pressed(report, 1) { header := header + 1; }
        if !Pressed(report, 2) { header := header + 2; }
        if !Pressed(report, 3) { header := header + 4; }
        if !Pressed(report, 4) { header := header + 8; }
        sent := sent + [header, JoyValueX(report[0]), JoyValueY(report[1])];
      }
    }
  }
}
