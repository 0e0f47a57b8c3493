/** The Linux backend (powermate/linux.py): the device is an evdev input
    device. The LED is driven by writing one MSC_PULSELED value, either a
    plain brightness or a word packing pulse speed, table and enable code;
    input arrives as (type, code, value) events, of which only the dial and
    the first button are recognised. */
module Linux {
  import opened Common

  // The source takes these from evdev's `ecodes`; the values are the Linux
  // kernel's input-event codes.
  const EV_KEY := 0x01
  const EV_REL := 0x02
  const EV_MSC := 0x04
  const REL_DIAL := 0x07
  const BTN_0 := 0x100
  const MSC_PULSELED := 0x01

  // The source imports these from powermate/base.py, which is not part of
  // this model; the values are the knob's USB vendor and product IDs.
  const VENDOR_ID := 0x077d
  const PRODUCT_ID := 0x0410

  /** An input event as read from, or written to, an evdev device. */
  datatype InputEvent = InputEvent(evType: int, code: int, value: int)

  // ---------------------------------------------------------------------
  // LED encoding

  /** 2 to the power n. */
  function Pow2(n: nat): (r: nat)
    ensures r >= 1
  {
    if n == 0 then 1 else 2 * Pow2(n - 1)
  }

  /** Python's `x << n` on a non-negative integer. Shifting never makes a
      value smaller, and only 0 shifts to 0. */
  function Shl(x: nat, n: nat): (r: nat)
    ensures x <= r
    ensures r == 0 <==> x == 0
  {
    x * Pow2(n)
  }

  /** Each place of a left shift doubles the value. */
  lemma ShlStep(q: nat, k: nat)
    requires k > 0
    ensures Shl(q, k) == 2 * Shl(q, k - 1)
  {
    assert Pow2(k) == 2 * Pow2(k - 1);
    assert q * (2 * Pow2(k - 1)) == 2 * (q * Pow2(k - 1));
  }

  /** Python's bitwise `a | b` on non-negative integers, bit by bit from the
      lowest. */
  function Or(a: nat, b: nat): (r: nat)
    ensures a <= r && b <= r && r <= a + b
    ensures r % 2 == 1 <==> a % 2 == 1 || b % 2 == 1
    decreases a + b
  {
    if a == 0 then b
    else if b == 0 then a
    else
      var high, bit := Or(a / 2, b / 2), if a % 2 == 1 || b % 2 == 1 then 1 else 0;
      2 * high + bit
  }

  lemma {:induction false} OrCommutes(a: nat, b: nat)
    ensures Or(a, b) == Or(b, a)
    decreases a + b
  {
    if a != 0 && b != 0 {
      OrCommutes(a / 2, b / 2);
    }
  }

  /** Or-ing a value below 2^k into one shifted left by k adds them: the two
      occupy disjoint bits. */
  lemma {:induction false} OrDisjoint(low: nat, q: nat, k: nat)
    requires low < Pow2(k)
    ensures Or(low, Shl(q, k)) == low + Shl(q, k)
  {
    var high := Shl(q, k);
    OrCommutes(low, high);
    if k == 0 {
      assert low == 0;
    } else if high != 0 && low != 0 {
      var half := Shl(q, k - 1);
      ShlStep(q, k);
      assert high / 2 == half && high % 2 == 0;
      assert low / 2 < Pow2(k - 1);
      OrDisjoint(low / 2, q, k - 1);
      OrCommutes(low / 2, half);
      assert Or(high, low) == 2 * Or(half, low / 2) + low % 2;
    }
  }

  /** The fields of an MSC_PULSELED value, read back with `>>` and a mask:
      static brightness in bits 0-7, pulse speed in bits 8-16, pulse table in
      bits 17-18 and the enable code from bit 19 up. */
  datatype LedFields = LedFields(brightness: int, speed: int, table: int, enable: int)

  function Unpack(w: nat): LedFields
  {
    LedFields(w % 0x100, (w / 0x100) % 0x200, (w / 0x2_0000) % 4, w / 0x8_0000)
  }

  /** The value `set_led_solid` writes: the clamped brightness, alone in the
      brightness field. */
  function SolidValue(brightness: int): (w: nat)
    ensures Unpack(w) == LedFields(Clamp(brightness, 0, 255), 0, 0, 0)
  {
    Clamp(brightness, 0, 255)
  }

  /** The value `set_led_pulse` writes: `(speed + 255) << 8 | table << 17 |
      enable << 19` for the clamped speed and table, enable 3 when the LED
      pulses while the host sleeps and 2 otherwise. Each shift is written as
      the multiplication `Shl` stands for. */
  function PulseWord(speed: int, table: int, whenSleeping: bool): (w: nat)
    ensures var c := ClampPulse(speed, table, whenSleeping);
      w == (c.speed + 255) * 0x100 + c.table * 0x2_0000 + (if whenSleeping then 3 else 2) * 0x8_0000
  {
    var s := Clamp(speed, -255, 255) + 255;
    var t := Clamp(table, 0, 2);
    var enable := if whenSleeping then 3 else 2;
    PackDisjoint(s, t, enable);
    Or(Or(s * 0x100, t * 0x2_0000), enable * 0x8_0000)
  }

  /** The pulse fields do not overlap, so the word is their sum, each field
      comes back unchanged and the low byte is zero. */
  lemma PulseWordFields(speed: int, table: int, whenSleeping: bool)
    ensures var c := ClampPulse(speed, table, whenSleeping);
      Unpack(PulseWord(speed, table, whenSleeping)) == LedFields(0, c.speed + 255, c.table, if whenSleeping then 3 else 2)
  {
    var c := ClampPulse(speed, table, whenSleeping);
    var enable := if whenSleeping then 3 else 2;
    UnpackSum(c.speed + 255, c.table, enable);
  }

  /** `s << 8 | t << 17 | e << 19` for fields that fit their slots. */
  lemma PackDisjoint(s: nat, t: nat, e: nat)
    requires s < 0x200 && t < 4
    ensures Or(Or(s * 0x100, t * 0x2_0000), e * 0x8_0000) == s * 0x100 + t * 0x2_0000 + e * 0x8_0000
  {
    Pow2Values();
    var low, mid, high := s * 0x100, t * 0x2_0000, e * 0x8_0000;
    assert Shl(t, 17) == mid && Shl(e, 19) == high;
    OrDisjoint(low, t, 17);
    OrDisjoint(low + mid, e, 19);
  }

  lemma Pow2Values()
    ensures Pow2(8) == 0x100 && Pow2(17) == 0x2_0000 && Pow2(19) == 0x8_0000
  {
  }

  /** Each field of a packed sum comes back from its slot. */
  lemma UnpackSum(s: nat, t: nat, e: nat)
    requires s < 0x200 && t < 4
    ensures Unpack(s * 0x100 + t * 0x2_0000 + e * 0x8_0000) == LedFields(0, s, t, e)
  {
    var w := s * 0x100 + t * 0x2_0000 + e * 0x8_0000;
    assert w / 0x100 == s + t * 0x200 + e * 0x800;
    assert w / 0x2_0000 == t + e * 4;
  }

  /** The pulse command a written value stands for, if it is a pulse value:
      no static brightness and an enable code of 2 or 3. */
  function ReadPulse(f: LedFields): Option<PulseCommand>
  {
    if f.brightness == 0 && (f.enable == 2 || f.enable == 3)
    then Some(PulseCommand(f.speed - 255, f.table, f.enable == 3))
    else None
  }

  /** The pulse word carries exactly the clamped command, so (-300, 5, false)
      writes what (-255, 2, false) writes. */
  lemma PulseRoundTrip(speed: int, table: int, whenSleeping: bool)
    ensures ReadPulse(Unpack(PulseWord(speed, table, whenSleeping))) == Some(ClampPulse(speed, table, whenSleeping))
    ensures var c := ClampPulse(speed, table, whenSleeping);
      PulseWord(speed, table, whenSleeping) == PulseWord(c.speed, c.table, whenSleeping)
  {
    var c := ClampPulse(speed, table, whenSleeping);
    PulseWordFields(speed, table, whenSleeping);
    PulseWordFields(c.speed, c.table, whenSleeping);
    assert ClampPulse(c.speed, c.table, whenSleeping) == c;
  }

  /** Distinct in-range pulse commands are written as distinct values. */
  lemma PulseWordInjective(s1: int, t1: int, w1: bool, s2: int, t2: int, w2: bool)
    requires -255 <= s1 <= 255 && 0 <= t1 <= 2
    requires -255 <= s2 <= 255 && 0 <= t2 <= 2
    requires PulseWord(s1, t1, w1) == PulseWord(s2, t2, w2)
    ensures s1 == s2 && t1 == t2 && w1 == w2
  {
    PulseWordFields(s1, t1, w1);
    PulseWordFields(s2, t2, w2);
  }

  // ---------------------------------------------------------------------
  // Input classification

  /** The event an input event stands for: the dial's relative motion is a
      turn by the event's value, the first button's key event a button
      state; every other event stands for nothing. */
  function Classify(e: InputEvent): (r: Option<Event>)
    ensures r.Some? && r.value.Turn? <==> e.evType == EV_REL && e.code == REL_DIAL
    ensures r.Some? && r.value.Button? <==> e.evType == EV_KEY && e.code == BTN_0
    ensures r.Some? && r.value.Turn? ==> r.value.amount == e.value
    ensures r.Some? && r.value.Button? ==> r.value.pressed == Truthy(e.value)
  {
    if e.evType == EV_REL && e.code == REL_DIAL then Some(Turn(e.value))
    else if e.evType == EV_KEY && e.code == BTN_0 then Some(Button(Truthy(e.value)))
    else None
  }

  function AsSeq(o: Option<Event>): seq<Event>
  {
    if o.Some? then [o.value] else []
  }

  /** The events a stream of input events stands for, in stream order. */
  function Decode(es: seq<InputEvent>): (r: seq<Event>)
    ensures |r| <= |es|
  {
    if es == [] then []
    else Decode(es[..|es| - 1]) + AsSeq(Classify(es[|es| - 1]))
  }

  /** Decoding keeps stream order: a stream decodes to its parts' decodings
      one after the other. */
  lemma {:induction false} DecodeAppend(a: seq<InputEvent>, b: seq<InputEvent>)
    ensures Decode(a + b) == Decode(a) + Decode(b)
    decreases |b|
  {
    if b == [] {
      assert a + b == a;
    } else {
      var front, last := b[..|b| - 1], b[|b| - 1];
      assert (a + b)[..|a + b| - 1] == a + front;
      assert (a + b)[|a + b| - 1] == last;
      DecodeAppend(a, front);
    }
  }

  /** What the read loop schedules for one input event: a dial event's value
      for the turn callback, the first button's state for the button
      callback, each only when that callback is registered. */
  function Step(cb: Callbacks, e: InputEvent): (r: seq<Event>)
    ensures r == if Classify(e).Some? && Accepts(cb, Classify(e).value) then [Classify(e).value] else []
  {
    if e.evType == EV_REL && e.code == REL_DIAL then (if cb.onTurn then [Turn(e.value)] else [])
    else if e.evType == EV_KEY && e.code == BTN_0 then (if cb.onButton then [Button(e.value != 0)] else [])
    else []
  }

  /** What the read loop schedules for a stream of input events. */
  function Dispatch(cb: Callbacks, es: seq<InputEvent>): (r: seq<Event>)
    ensures |r| <= |es|
  {
    if es == [] then [] else Dispatch(cb, es[..|es| - 1]) + Step(cb, es[|es| - 1])
  }

  /** The read loop schedules exactly the decoded events whose callbacks are
      registered, in stream order. */
  lemma {:induction false} DispatchDelivers(cb: Callbacks, es: seq<InputEvent>)
    ensures Dispatch(cb, es) == Deliver(cb, Decode(es))
  {
    if es == [] {
      assert Deliver(cb, []) == [];
    } else {
      var front := es[..|es| - 1];
      DispatchDelivers(cb, front);
      DecodeStep(cb, es, |es| - 1);
      assert es[..|es|] == es;
      assert es[..|es| - 1] == front;
    }
  }

  /** Delivering one more event of a stream appends what that event alone
      delivers: a dial event its turn, the first button's event its state,
      each only when its callback is registered. */
  lemma DecodeStep(cb: Callbacks, events: seq<InputEvent>, i: nat)
    requires i < |events|
    ensures Deliver(cb, Decode(events[..i + 1])) == Deliver(cb, Decode(events[..i])) + Step(cb, events[i])
  {
    assert events[..i + 1][..i] == events[..i];
    DeliverAppend(cb, Decode(events[..i]), AsSeq(Classify(events[i])));
    assert Deliver(cb, []) == [];
    if Classify(events[i]).Some? {
      DeliverOne(cb, Classify(events[i]).value);
    }
  }

  /** Every decoded turn is the value of a dial event of the stream, and every
      dial event's value is decoded as a turn. */
  lemma {:induction false} DecodeTurns(es: seq<InputEvent>, v: int)
    ensures Turn(v) in Decode(es) <==>
      exists k :: 0 <= k < |es| && es[k] == InputEvent(EV_REL, REL_DIAL, v)
  {
    if es != [] {
      var front, last := es[..|es| - 1], es[|es| - 1];
      DecodeTurns(front, v);
      if Turn(v) in Decode(es) && Turn(v) !in Decode(front) {
        assert es[|es| - 1] == InputEvent(EV_REL, REL_DIAL, v);
      }
      if exists k :: 0 <= k < |es| && es[k] == InputEvent(EV_REL, REL_DIAL, v) {
        var k :| 0 <= k < |es| && es[k] == InputEvent(EV_REL, REL_DIAL, v);
        if k < |es| - 1 {
          assert front[k] == es[k];
        }
      }
    }
  }

  /** Every decoded button state is that of a BTN_0 key event of the
      stream, and every such event's state is decoded. */
  lemma {:induction false} DecodeButtons(es: seq<InputEvent>, b: bool)
    ensures Button(b) in Decode(es) <==>
      exists k :: 0 <= k < |es| && es[k].evType == EV_KEY && es[k].code == BTN_0 && Truthy(es[k].value) == b
  {
    if es != [] {
      var front, last := es[..|es| - 1], es[|es| - 1];
      DecodeButtons(front, b);
      if Button(b) in Decode(es) && Button(b) !in Decode(front) {
        assert last.evType == EV_KEY && last.code == BTN_0 && Truthy(last.value) == b;
      }
      if exists k :: 0 <= k < |es| && es[k].evType == EV_KEY && es[k].code == BTN_0 && Truthy(es[k].value) == b {
        var k :| 0 <= k < |es| && es[k].evType == EV_KEY && es[k].code == BTN_0 && Truthy(es[k].value) == b;
        if k < |es| - 1 {
          assert front[k] == es[k];
        }
      }
    }
  }

  // ---------------------------------------------------------------------
  // Enumeration

  /** An evdev device as the enumeration inspects it: its path and the
      vendor and product its info reports. */
  datatype DeviceInfo = DeviceInfo(path: string, vendor: int, product: int)

  predicate IsPowerMate(d: DeviceInfo)
  {
    d.vendor == VENDOR_ID && d.product == PRODUCT_ID
  }

  /** The paths of the PowerMates among the devices, in list order. */
  function Matching(devices: seq<DeviceInfo>): (r: seq<string>)
    ensures |r| <= |devices|
  {
    if devices == [] then []
    else
      var last := devices[|devices| - 1];
      Matching(devices[..|devices| - 1]) + (if IsPowerMate(last) then [last.path] else [])
  }

  /** The filter keeps list order. */
  lemma {:induction false} MatchingAppend(a: seq<DeviceInfo>, b: seq<DeviceInfo>)
    ensures Matching(a + b) == Matching(a) + Matching(b)
    decreases |b|
  {
    if b == [] {
      assert a + b == a;
    } else {
      var front, last := b[..|b| - 1], b[|b| - 1];
      assert (a + b)[..|a + b| - 1] == a + front;
      assert (a + b)[|a + b| - 1] == last;
      MatchingAppend(a, front);
    }
  }

  /** A path is returned exactly when some listed device with that path has
      both the vendor and the product of a PowerMate. */
  lemma {:induction false} MatchingMembers(devices: seq<DeviceInfo>, p: string)
    ensures p in Matching(devices) <==>
      exists k :: 0 <= k < |devices| && devices[k].path == p && IsPowerMate(devices[k])
  {
    if devices != [] {
      var front, last := devices[..|devices| - 1], devices[|devices| - 1];
      MatchingMembers(front, p);
      if exists k :: 0 <= k < |devices| && devices[k].path == p && IsPowerMate(devices[k]) {
        var k :| 0 <= k < |devices| && devices[k].path == p && IsPowerMate(devices[k]);
        if k < |devices| - 1 {
          assert front[k] == devices[k];
        }
      }
    }
  }

  // ---------------------------------------------------------------------
  // The session

  class PowerMate {
    const callbacks: Callbacks
    /** The events written to the device, in order. */
    ghost var written: seq<InputEvent>
    /** The callback invocations scheduled on the event loop, in order. */
    ghost var dispatched: seq<Event>

    constructor (callbacks: Callbacks)
      ensures this.callbacks == callbacks
      ensures written == [] && dispatched == []
    {
      this.callbacks := callbacks;
      written := [];
      dispatched := [];
    }

    /** Lists the device paths and keeps those whose vendor and product are
        the PowerMate's; every device opened for inspection is closed again. */
    static method Enumerate(devices: seq<DeviceInfo>) returns (paths: seq<string>, ghost closed: seq<string>)
      ensures paths == Matching(devices)
      ensures |closed| == |devices| && forall k :: 0 <= k < |devices| ==> closed[k] == devices[k].path
    {
      paths := [];
      closed := [];
      for i := 0 to |devices|
        invariant paths == Matching(devices[..i])
        invariant |closed| == i && forall k :: 0 <= k < i ==> closed[k] == devices[k].path
      {
        var device := devices[i];
        if device.vendor == VENDOR_ID && device.product == PRODUCT_ID {
          paths := paths + [device.path];
        }
        closed := closed + [device.path];
        assert devices[..i + 1][..i] == devices[..i];
      }
      assert devices[..|devices|] == devices;
    }

    /** The read loop: each recognised event whose callback is registered is
        scheduled, in stream order; everything else is dropped. */
    method Run(events: seq<InputEvent>)
      modifies this`dispatched
      ensures dispatched == old(dispatched) + Dispatch(callbacks, events)
    {
      for i := 0 to |events|
        invariant dispatched == old(dispatched) + Dispatch(callbacks, events[..i])
      {
        var event := events[i];
        assert events[..i + 1][..i] == events[..i];
        if event.evType == EV_REL && event.code == REL_DIAL {
          if callbacks.onTurn {
            dispatched := dispatched + [Turn(event.value)];
          }
        } else if event.evType == EV_KEY && event.code == BTN_0 {
          if callbacks.onButton {
            dispatched := dispatched + [Button(event.value != 0)];
          }
        }
      }
      assert events[..|events|] == events;
    }

    /** `set_led_solid`; the brightness defaults to 128. */
    method SetLedSolid(brightness: int := 128)
      modifies this`written
      ensures written == old(written) + [InputEvent(EV_MSC, MSC_PULSELED, SolidValue(brightness))]
    {
      var b := Clamp(brightness, 0, 255);
      written := written + [InputEvent(EV_MSC, MSC_PULSELED, b)];
    }

    /** `set_led_pulse`; by default the LED pulses at normal speed, with
        table 0, also while the host sleeps. */
    method SetLedPulse(speed: int := 0, table: int := 0, whenSleeping: bool := true)
      modifies this`written
      ensures written == old(written) + [InputEvent(EV_MSC, MSC_PULSELED, PulseWord(speed, table, whenSleeping))]
    {
      var s := Clamp(speed, -255, 255) + 255;
      var t := Clamp(table, 0, 2);
      var enable := if whenSleeping then 3 else 2;
      written := written + [InputEvent(EV_MSC, MSC_PULSELED, Or(Or(s * 0x100, t * 0x2_0000), enable * 0x8_0000))];
    }
  }
}
