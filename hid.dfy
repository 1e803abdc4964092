/**
 * The actuator side of the latency tester: USB HID boot-protocol reports written to the
 * keyboard gadget (/dev/hidg0, 8-byte reports) and the mouse gadget (/dev/hidg1, 6-byte
 * reports). Every device write is recorded, in order, in a trace of `HidWrite`s.
 */
module Hid {
  import opened Wrappers

  type Byte = x: int | 0 <= x < 256

  datatype Device = Keyboard | Mouse

  /** One `fd.write(report)` to the gadget file of `device`. */
  datatype HidWrite = HidWrite(device: Device, report: seq<Byte>)

  function Zeros(n: nat): (r: seq<Byte>)
    ensures |r| == n
    ensures forall i :: 0 <= i < n ==> r[i] == 0
  {
    seq(n, _ => 0)
  }

  /** Left button down, relative motion and wheel zero. */
  const MousePress: seq<Byte> := [0x10, 0x01, 0x00, 0x01, 0x00, 0x00]

  /** The all-zero report that releases every key or button of a device. */
  function ReleaseReport(d: Device): (r: seq<Byte>)
    ensures |r| == (if d == Keyboard then 8 else 6)
    ensures forall i :: 0 <= i < |r| ==> r[i] == 0
  {
    match d
    case Keyboard => Zeros(8)
    case Mouse => Zeros(6)
  }

  /**
   * Keyboard usage IDs (USB HID Usage Tables, Keyboard/Keypad page 0x07), computed from the
   * table's layout: letters a..z are 0x04..0x1d, digits 1..9 are 0x1e..0x26, 0 is 0x27.
   */
  function StandardUsage(c: char): Option<Byte>
  {
    if 'a' <= c <= 'z' then Some(0x04 + (c as int - 'a' as int))
    else if '1' <= c <= '9' then Some(0x1e + (c as int - '1' as int))
    else if c == '0' then Some(0x27)
    else None
  }

  /** The usage ID press_key's table gives a key; a key missing from the table gives 0. */
  function KeyUsage(key: char): (u: Byte)
    ensures u != 0 <==> key in "123r"
    ensures u != 0 ==> StandardUsage(key) == Some(u)
  {
    match key
    case '1' => 0x1e
    case '2' => 0x1f
    case '3' => 0x20
    case 'r' => 0x15
    case _ => 0
  }

  /** The 8-byte keyboard report press_key sends for `key`: the usage ID at index 2. */
  function KeyReport(key: char): (r: seq<Byte>)
    ensures |r| == 8 && r[2] == KeyUsage(key)
    ensures forall i :: 0 <= i < 8 && i != 2 ==> r[i] == 0
    ensures key !in "123r" <==> r == ReleaseReport(Keyboard)
  {
    [0x00, 0x00, KeyUsage(key), 0x00, 0x00, 0x00, 0x00, 0x00]
  }

  /** The key that `str(weapon_slot)` names for a weapon slot 1..3. */
  function SlotKey(slot: int): (c: char)
    requires 1 <= slot <= 3
    ensures KeyUsage(c) == 0x1d + slot
  {
    (('0' as int) + slot) as char
  }

  /**
   * A trace is a sequence of pulses: every report is immediately followed by the
   * all-zero release report of the same device.
   */
  predicate Pulses(w: seq<HidWrite>)
    decreases |w|
  {
    if w == [] then true
    else |w| >= 2 && w[1] == HidWrite(w[0].device, ReleaseReport(w[0].device)) && Pulses(w[2..])
  }

  lemma {:induction false} PulsesAppend(a: seq<HidWrite>, b: seq<HidWrite>)
    requires Pulses(a) && Pulses(b)
    ensures Pulses(a + b)
    decreases |a|
  {
    if a == [] {
      assert a + b == b;
    } else {
      assert (a + b)[2..] == a[2..] + b;
      PulsesAppend(a[2..], b);
    }
  }

  /** The last report written to device `d`, which the device then holds. */
  function LastReport(w: seq<HidWrite>, d: Device): Option<seq<Byte>>
    decreases |w|
  {
    if w == [] then None
    else
      var rest := LastReport(w[1..], d);
      if rest.Some? then rest
      else if w[0].device == d then Some(w[0].report)
      else None
  }

  /** A trace made of pulses leaves every device with no key or button held. */
  lemma {:induction false} PulsesLeaveReleased(w: seq<HidWrite>, d: Device)
    requires Pulses(w)
    ensures LastReport(w, d) == None || LastReport(w, d) == Some(ReleaseReport(d))
    decreases |w|
  {
    if w != [] {
      PulsesLeaveReleased(w[2..], d);
      assert w[1..][1..] == w[2..];
    }
  }

  /** The writes of press_key: in mock mode none, otherwise one key pulse. */
  function PressWrites(key: char, mock: bool): (w: seq<HidWrite>)
    ensures Pulses(w)
    ensures mock <==> w == []
    ensures !mock ==> |w| == 2 && w[0] == HidWrite(Keyboard, KeyReport(key))
  {
    if mock then []
    else [HidWrite(Keyboard, KeyReport(key)), HidWrite(Keyboard, ReleaseReport(Keyboard))]
  }

  /** The writes of fire_weapon: in mock mode none, otherwise one left-button pulse. */
  function ClickWrites(mock: bool): (w: seq<HidWrite>)
    ensures Pulses(w)
    ensures mock <==> w == []
    ensures !mock ==> |w| == 2 && w[0] == HidWrite(Mouse, MousePress)
  {
    if mock then [] else [HidWrite(Mouse, MousePress), HidWrite(Mouse, ReleaseReport(Mouse))]
  }

  /** The writes of `n` consecutive fire_weapon calls. */
  function Clicks(n: nat, mock: bool): (w: seq<HidWrite>)
    ensures Pulses(w)
    ensures |w| == (if mock then 0 else 2 * n)
    ensures forall k :: 0 <= k < n && !mock ==> w[2 * k] == HidWrite(Mouse, MousePress)
  {
    if n == 0 then []
    else
      var w := Clicks(n - 1, mock) + ClickWrites(mock);
      PulsesAppend(Clicks(n - 1, mock), ClickWrites(mock));
      w
  }

  /** The writes of prep_cycle: select the weapon, three throwaway shots, reload. */
  function PrepWrites(slot: int, mock: bool): (w: seq<HidWrite>)
    requires 1 <= slot <= 3
    ensures Pulses(w)
    ensures |w| == if mock then 0 else 10
  {
    var sel, cl, rel := PressWrites(SlotKey(slot), mock), Clicks(3, mock), PressWrites('r', mock);
    PulsesAppend(sel, cl);
    PulsesAppend(sel + cl, rel);
    sel + cl + rel
  }

  /** prep_cycle is five pulses in order: select(slot), click, click, click, reload; nothing in mock mode. */
  lemma PrepWritesOrder(slot: int, mock: bool)
    requires 1 <= slot <= 3
    ensures Pulses(PrepWrites(slot, mock))
    ensures mock ==> PrepWrites(slot, mock) == []
    ensures !mock ==> |PrepWrites(slot, mock)| == 10
    ensures !mock ==>
      var w := PrepWrites(slot, mock);
      w[0] == HidWrite(Keyboard, KeyReport(SlotKey(slot))) &&
      w[2] == HidWrite(Mouse, MousePress) && w[4] == HidWrite(Mouse, MousePress) &&
      w[6] == HidWrite(Mouse, MousePress) && w[8] == HidWrite(Keyboard, KeyReport('r'))
  {
    var cl := Clicks(3, mock);
    if !mock {
      assert cl[0] == cl[2] == cl[4] == HidWrite(Mouse, MousePress) by {
        assert cl[2 * 0] == cl[2 * 1] == cl[2 * 2] == HidWrite(Mouse, MousePress);
      }
    }
  }

  /**
   * The two HID gadget files. `mock` is the program-wide mock flag: in mock mode no report
   * is written.
   */
  class Actuator {
    const mock: bool
    var writes: seq<HidWrite>

    constructor (mock: bool)
      ensures this.mock == mock && writes == []
    {
      this.mock := mock;
      writes := [];
    }

    /** send_keyboard_command: the report, a short settle, then the all-zero release. */
    method SendKeyboardCommand(report: seq<Byte>)
      modifies this
      ensures writes == old(writes) +
        (if mock then [] else [HidWrite(Keyboard, report), HidWrite(Keyboard, ReleaseReport(Keyboard))])
    {
      if !mock {
        writes := writes + [HidWrite(Keyboard, report)];
      }
      if !mock {
        writes := writes + [HidWrite(Keyboard, Zeros(8))];
      }
    }

    /** send_mouse_command: one mouse report. */
    method SendMouseCommand(report: seq<Byte>)
      modifies this
      ensures writes == old(writes) + (if mock then [] else [HidWrite(Mouse, report)])
    {
      if !mock {
        writes := writes + [HidWrite(Mouse, report)];
      }
    }

    method PressKey(key: char)
      modifies this
      ensures writes == old(writes) + PressWrites(key, mock)
    {
      var keyPress := KeyReport(key);
      if !mock {
        SendKeyboardCommand(keyPress);
      }
    }

    method FireWeapon()
      modifies this
      ensures writes == old(writes) + ClickWrites(mock)
    {
      if !mock {
        SendMouseCommand(MousePress);
        SendMouseCommand(Zeros(6));
      }
    }

    method SelectWeapon(slot: int)
      requires 1 <= slot <= 3
      modifies this
      ensures writes == old(writes) + PressWrites(SlotKey(slot), mock)
    {
      PressKey(SlotKey(slot));
    }

    method ReloadWeapon()
      modifies this
      ensures writes == old(writes) + PressWrites('r', mock)
    {
      PressKey('r');
    }

    method PrepCycle(slot: int)
      requires 1 <= slot <= 3
      modifies this
      ensures writes == old(writes) + PrepWrites(slot, mock)
    {
      SelectWeapon(slot);
      for i := 0 to 3
        invariant writes == old(writes) + PressWrites(SlotKey(slot), mock) + Clicks(i, mock)
      {
        FireWeapon();
      }
      ReloadWeapon();
    }
  }
}
