/** The Windows backend (powermate/win.py): the LED is driven by 9-byte HID
    feature reports, and input arrives as raw reports whose byte 1 is the
    button state and byte 2 the turn amount. The session keeps the last
    button byte it saw and reports a button event only when it changes. */
module Win {
  import opened Common

  /** A feature report as handed to the HID library: a list of integers. */
  type Report = seq<int>

  // The command byte (offset 3) of the feature reports the session sends.
  const SetStaticBrightness := 1
  const SetPulseAsleep := 2
  const SetPulseAwake := 3
  const SetPulseMode := 4

  /** The fixed envelope every LED report has: report id 0, bytes 0x41 and 1,
      a command at offset 3, three argument bytes, two zero bytes; 9 bytes in
      all, each of which fits in a byte. */
  predicate WellFormed(r: Report)
  {
    |r| == 9 && r[0] == 0 && r[1] == 0x41 && r[2] == 1 && r[7] == 0 && r[8] == 0 &&
    forall i :: 0 <= i < 9 ==> 0 <= r[i] < 256
  }

  /** The report `[0, 0x41, 1, command, a, b, c, 0, 0]`. */
  function FeatureReport(command: Byte, a: Byte, b: Byte, c: Byte): (r: Report)
    ensures WellFormed(r)
    ensures r[3] == command && r[4] == a && r[5] == b && r[6] == c
  {
    [0, 0x41, 1, command, a, b, c, 0, 0]
  }

  // ---------------------------------------------------------------------
  // LED encoding

  /** The reports `set_led_solid` sends: pulsing switched off, then the
      clamped brightness. */
  function SolidReports(brightness: int): (r: seq<Report>)
    ensures |r| == 2 && WellFormed(r[0]) && WellFormed(r[1])
    ensures r[0][3] == SetPulseAwake && r[1][3] == SetStaticBrightness
  {
    [FeatureReport(SetPulseAwake, 0, 0, 0),
     FeatureReport(SetStaticBrightness, 0, Clamp(brightness, 0, 255), 0)]
  }

  /** The speed-scale byte of the pulse-mode report, for a clamped speed:
      0 when the speed is negative (slower), 1 when it is zero, 2 when it is
      positive (faster). */
  function SpeedScale(speed: int): (k: Byte)
    ensures k == 0 <==> speed < 0
    ensures k == 1 <==> speed == 0
    ensures k == 2 <==> speed > 0
  {
    if speed != 0 then (if speed > 0 then 2 else 0) else 1
  }

  /** The signed speed a (speed scale, magnitude) pair stands for. */
  function SignedSpeed(scale: int, magnitude: int): int
  {
    if scale == 0 then -magnitude else magnitude
  }

  /** The scale byte and the magnitude byte together keep the whole speed. */
  lemma SpeedScaleRoundTrip(speed: int)
    requires -255 <= speed <= 255
    ensures 0 <= Abs(speed) <= 255
    ensures SignedSpeed(SpeedScale(speed), Abs(speed)) == speed
  {
  }

  /** The reports `set_led_pulse` sends: pulse-while-asleep flag, pulsing
      switched on, then table, speed scale and speed magnitude. */
  function PulseReports(speed: int, table: int, whenSleeping: bool): (r: seq<Report>)
    ensures |r| == 3 && WellFormed(r[0]) && WellFormed(r[1]) && WellFormed(r[2])
    ensures r[0][3] == SetPulseAsleep && r[1][3] == SetPulseAwake && r[2][3] == SetPulseMode
  {
    var c := ClampPulse(speed, table, whenSleeping);
    [FeatureReport(SetPulseAsleep, 0, if c.whenSleeping then 1 else 0, 0),
     FeatureReport(SetPulseAwake, 0, 1, 0),
     FeatureReport(SetPulseMode, c.table, SpeedScale(c.speed), Abs(c.speed))]
  }

  /** The static brightness a report sequence encodes, if it is exactly
      pulsing switched off followed by a static brightness, every unused
      argument byte zero. */
  function ReadSolid(rs: seq<Report>): Option<int>
  {
    if |rs| == 2 && WellFormed(rs[0]) && WellFormed(rs[1]) &&
       rs[0][3] == SetPulseAwake && rs[0][4] == 0 && rs[0][5] == 0 && rs[0][6] == 0 &&
       rs[1][3] == SetStaticBrightness && rs[1][4] == 0 && rs[1][6] == 0
    then Some(rs[1][5])
    else None
  }

  /** The pulse command a report sequence encodes, if it is exactly an
      asleep flag of 0 or 1, pulsing switched on, then the pulse parameters
      with a table of at most 2 and the scale byte that belongs to the signed
      speed; every unused
      argument byte zero. */
  function ReadPulse(rs: seq<Report>): Option<PulseCommand>
  {
    if |rs| == 3 && WellFormed(rs[0]) && WellFormed(rs[1]) && WellFormed(rs[2]) &&
       rs[0][3] == SetPulseAsleep && rs[0][4] == 0 && rs[0][5] <= 1 && rs[0][6] == 0 &&
       rs[1][3] == SetPulseAwake && rs[1][4] == 0 && rs[1][5] == 1 && rs[1][6] == 0 &&
       rs[2][3] == SetPulseMode && rs[2][4] <= 2 && rs[2][5] == SpeedScale(SignedSpeed(rs[2][5], rs[2][6]))
    then Some(PulseCommand(SignedSpeed(rs[2][5], rs[2][6]), rs[2][4], rs[0][5] != 0))
    else None
  }

  /** `set_led_solid` sends two well-formed reports, mode first, and the
      brightness they carry is the clamped argument. */
  lemma SolidRoundTrip(brightness: int)
    ensures |SolidReports(brightness)| == 2
    ensures forall k :: 0 <= k < 2 ==> WellFormed(SolidReports(brightness)[k])
    ensures ReadSolid(SolidReports(brightness)) == Some(Clamp(brightness, 0, 255))
  {
  }

  /** A sequence that encodes a brightness is exactly the sequence
      `set_led_solid` sends for it: no other bytes encode the same value. */
  lemma SolidReadExact(rs: seq<Report>, b: int)
    requires ReadSolid(rs) == Some(b)
    ensures rs == SolidReports(b)
  {
    var expected := SolidReports(b);
    assert rs[0] == expected[0];
    assert rs[1] == expected[1];
  }

  /** Out-of-range brightness is clamped, never rejected: -5 sends what 0
      sends and 999 what 255 sends. */
  lemma SolidClamps(brightness: int)
    ensures SolidReports(brightness) == SolidReports(Clamp(brightness, 0, 255))
    ensures brightness <= 0 ==> SolidReports(brightness) == SolidReports(0)
    ensures 255 <= brightness ==> SolidReports(brightness) == SolidReports(255)
  {
  }

  /** `set_led_pulse` sends three well-formed reports whose content is the
      clamped pulse command. */
  lemma PulseRoundTrip(speed: int, table: int, whenSleeping: bool)
    ensures |PulseReports(speed, table, whenSleeping)| == 3
    ensures forall k :: 0 <= k < 3 ==> WellFormed(PulseReports(speed, table, whenSleeping)[k])
    ensures ReadPulse(PulseReports(speed, table, whenSleeping)) == Some(ClampPulse(speed, table, whenSleeping))
  {
    SpeedScaleRoundTrip(ClampPulse(speed, table, whenSleeping).speed);
  }

  /** A sequence that encodes a pulse command is exactly the sequence
      `set_led_pulse` sends for it: no other bytes encode the same command. */
  lemma PulseReadExact(rs: seq<Report>, c: PulseCommand)
    requires ReadPulse(rs) == Some(c)
    ensures rs == PulseReports(c.speed, c.table, c.whenSleeping)
  {
    var expected := PulseReports(c.speed, c.table, c.whenSleeping);
    assert rs[0] == expected[0];
    assert rs[1] == expected[1];
    assert rs[2] == expected[2];
  }

  /** The reports depend only on the clamped command: (-300, 5, false) sends
      what (-255, 2, false) sends, and a zero speed sends magnitude 0. */
  lemma PulseClamps(speed: int, table: int, whenSleeping: bool)
    ensures var c := ClampPulse(speed, table, whenSleeping);
      PulseReports(speed, table, whenSleeping) == PulseReports(c.speed, c.table, whenSleeping)
    ensures speed == 0 ==> PulseReports(speed, table, whenSleeping)[2][5] == 1
    ensures speed == 0 ==> PulseReports(speed, table, whenSleeping)[2][6] == 0
  {
  }

  // ---------------------------------------------------------------------
  // Input decoding

  /** A raw input report long enough to hold the button and turn bytes. */
  predicate IsInput(data: seq<Byte>)
  {
    |data| >= 3
  }

  /** The turn byte as a signed amount: values above 128 wrap to negative. */
  function SignedTurn(value: Byte): (t: int)
    ensures -127 <= t <= 128
    ensures t == value || t == value - 256
    ensures t % 256 == value
    ensures t == 0 <==> value == 0
  {
    if value > 128 then value - 256 else value
  }

  /** Re-encoding a turn amount in [-127, 128] as a byte undoes SignedTurn. */
  lemma SignedTurnRoundTrip(t: int)
    requires -127 <= t <= 128
    ensures SignedTurn(t % 256) == t
  {
  }

  /** The button event a raw report yields, given the button byte seen before
      it: one exactly when the button byte changed. */
  function ButtonPart(prev: Byte, data: seq<Byte>): (r: seq<Event>)
    requires IsInput(data)
    ensures |r| <= 1
    ensures |r| == 1 <==> data[1] != prev
    ensures |r| == 1 ==> r[0].Button? && (r[0].pressed <==> data[1] != 0)
  {
    if data[1] != prev then [Button(Truthy(data[1]))] else []
  }

  /** The turn event a raw report yields: one exactly when the turn byte is
      nonzero. */
  function TurnPart(data: seq<Byte>): (r: seq<Event>)
    requires IsInput(data)
    ensures |r| <= 1
    ensures |r| == 1 <==> data[2] != 0
    ensures |r| == 1 ==> r[0].Turn? && r[0].amount != 0 && -127 <= r[0].amount <= 128
    ensures |r| == 1 ==> r[0].amount % 256 == data[2]
  {
    if data[2] != 0 then [Turn(SignedTurn(data[2]))] else []
  }

  /** The events one raw report yields: a button event exactly when the
      button byte differs from the one seen before, ahead of a turn event
      exactly when the turn byte is nonzero. */
  function ReportEvents(prev: Byte, data: seq<Byte>): (r: seq<Event>)
    requires IsInput(data)
    ensures |r| <= 2
    ensures data[1] != prev <==> |r| > 0 && r[0].Button?
    ensures data[2] != 0 <==> |r| > 0 && r[|r| - 1].Turn?
    ensures |r| == 2 ==> r[0].Button? && r[1].Turn?
    ensures |r| > 0 && r[0].Button? ==> r[0].pressed == Truthy(data[1])
    ensures |r| > 0 && r[|r| - 1].Turn? ==> r[|r| - 1].amount == SignedTurn(data[2])
  {
    ButtonPart(prev, data) + TurnPart(data)
  }

  /** The events a stream of raw reports yields, the button byte threaded
      from one report to the next. */
  function StreamEvents(prev: Byte, reports: seq<seq<Byte>>): (r: seq<Event>)
    requires forall i :: 0 <= i < |reports| ==> IsInput(reports[i])
    ensures |r| <= 2 * |reports|
    decreases |reports|
  {
    if reports == [] then []
    else ReportEvents(prev, reports[0]) + StreamEvents(reports[0][1], reports[1..])
  }

  /** The button byte stored after a stream of reports: the last report's,
      or the one stored before when there is none. */
  function LastButton(prev: Byte, reports: seq<seq<Byte>>): Byte
    requires forall i :: 0 <= i < |reports| ==> IsInput(reports[i])
  {
    if reports == [] then prev
    else
      var last := reports[|reports| - 1];
      assert IsInput(last);
      last[1]
  }

  /** One more report adds the events it yields against the byte the stream
      before it left stored. */
  lemma {:induction false} StreamEventsAppend(prev: Byte, reports: seq<seq<Byte>>, data: seq<Byte>)
    requires forall i :: 0 <= i < |reports| ==> IsInput(reports[i])
    requires IsInput(data)
    ensures StreamEvents(prev, reports + [data]) ==
      StreamEvents(prev, reports) + ReportEvents(LastButton(prev, reports), data)
    decreases |reports|
  {
    if reports == [] {
      assert reports + [data] == [data];
      assert StreamEvents(data[1], []) == [];
    } else {
      var first, rest := reports[0], reports[1..];
      var stored := LastButton(prev, reports);
      StreamEventsCons(prev, reports, data);
      assert LastButton(first[1], rest) == stored;
      StreamEventsAppend(first[1], rest, data);
      AppendAssoc(ReportEvents(prev, first), StreamEvents(first[1], rest), ReportEvents(stored, data));
    }
  }

  /** A stream with one more report at its end still starts with its first
      report. */
  lemma StreamEventsCons(prev: Byte, reports: seq<seq<Byte>>, data: seq<Byte>)
    requires forall k :: 0 <= k < |reports| ==> IsInput(reports[k])
    requires IsInput(data) && reports != []
    ensures forall k :: 0 <= k < |reports[1..]| ==> IsInput(reports[1..][k])
    ensures StreamEvents(prev, reports + [data]) ==
      ReportEvents(prev, reports[0]) + StreamEvents(reports[0][1], reports[1..] + [data])
  {
    DropFirstSnoc(reports, data);
  }

  lemma DropFirstSnoc<T>(s: seq<T>, x: T)
    requires s != []
    ensures (s + [x])[0] == s[0] && (s + [x])[1..] == s[1..] + [x]
  {
  }

  /** The button states among a sequence of events, in order. */
  function Buttons(es: seq<Event>): seq<bool>
  {
    if es == [] then []
    else (if es[0].Button? then [es[0].pressed] else []) + Buttons(es[1..])
  }

  lemma {:induction false} ButtonsAppend(a: seq<Event>, b: seq<Event>)
    ensures Buttons(a + b) == Buttons(a) + Buttons(b)
    decreases |a|
  {
    if a == [] {
      assert a + b == b;
    } else {
      assert (a + b)[0] == a[0];
      assert (a + b)[1..] == a[1..] + b;
      ButtonsAppend(a[1..], b);
    }
  }

  /** The button states a single report contributes. */
  lemma ButtonsOfReport(prev: Byte, data: seq<Byte>)
    requires IsInput(data)
    ensures Buttons(ReportEvents(prev, data)) == if data[1] != prev then [Truthy(data[1])] else []
  {
    ButtonsAppend(ButtonPart(prev, data), TurnPart(data));
    assert Buttons(TurnPart(data)) == [];
    assert data[1] != prev ==> Buttons(ButtonPart(prev, data)) == [Truthy(data[1])];
  }

  /** The button states a stream of reports yields: the state of every report
      whose button byte differs from the one before it. */
  function ButtonStream(prev: Byte, reports: seq<seq<Byte>>): seq<bool>
    requires forall i :: 0 <= i < |reports| ==> IsInput(reports[i])
    decreases |reports|
  {
    if reports == [] then []
    else
      var r := reports[0];
      assert IsInput(r);
      (if r[1] != prev then [Truthy(r[1])] else []) + ButtonStream(r[1], reports[1..])
  }

  lemma {:induction false} ButtonsOfStream(prev: Byte, reports: seq<seq<Byte>>)
    requires forall i :: 0 <= i < |reports| ==> IsInput(reports[i])
    ensures Buttons(StreamEvents(prev, reports)) == ButtonStream(prev, reports)
    decreases |reports|
  {
    if reports != [] {
      var r := reports[0];
      ButtonsOfStream(r[1], reports[1..]);
      ButtonsAppend(ReportEvents(prev, r), StreamEvents(r[1], reports[1..]));
      ButtonsOfReport(prev, r);
    }
  }

  /** For a knob whose button byte is 0 or 1, button events alternate: the
      first one is a press when the stored byte was 0, no two consecutive
      events are equal, and the last one is the state of the last report
      (which, with no button event at all, is still the stored state). */
  lemma ButtonEventsAlternate(prev: Byte, reports: seq<seq<Byte>>)
    requires prev <= 1
    requires forall i :: 0 <= i < |reports| ==> IsInput(reports[i]) && reports[i][1] <= 1
    ensures var bs := Buttons(StreamEvents(prev, reports));
      |bs| > 0 ==> bs[0] == (prev == 0)
    ensures var bs := Buttons(StreamEvents(prev, reports));
      |bs| > 0 ==> bs[|bs| - 1] == Truthy(reports[|reports| - 1][1])
    ensures var bs := Buttons(StreamEvents(prev, reports));
      |bs| == 0 && reports != [] ==> reports[|reports| - 1][1] == prev
    ensures var bs := Buttons(StreamEvents(prev, reports));
      forall i :: 0 <= i < |bs| - 1 ==> bs[i + 1] != bs[i]
  {
    ButtonsOfStream(prev, reports);
    ButtonStreamAlternates(prev, reports);
  }

  lemma {:induction false} ButtonStreamAlternates(prev: Byte, reports: seq<seq<Byte>>)
    requires prev <= 1
    requires forall i :: 0 <= i < |reports| ==> IsInput(reports[i]) && reports[i][1] <= 1
    ensures var bs := ButtonStream(prev, reports);
      (|bs| > 0 ==> bs[0] == (prev == 0)) &&
      (|bs| > 0 ==> bs[|bs| - 1] == Truthy(reports[|reports| - 1][1])) &&
      (|bs| == 0 && reports != [] ==> reports[|reports| - 1][1] == prev) &&
      (forall i :: 0 <= i < |bs| - 1 ==> bs[i + 1] != bs[i])
    decreases |reports|
  {
    if reports != [] {
      var r, rest := reports[0], reports[1..];
      ButtonStreamAlternates(r[1], rest);
      var bs' := ButtonStream(r[1], rest);
      assert ButtonStream(prev, reports) == (if r[1] != prev then [Truthy(r[1])] else []) + bs';
      if rest != [] {
        assert reports[|reports| - 1] == rest[|rest| - 1];
      }
    }
  }

  /** A registered button callback receives every button state of a stream,
      in order, whatever happens to the turns; an unregistered one none. */
  lemma {:induction false} ButtonsDelivered(cb: Callbacks, es: seq<Event>)
    ensures Buttons(Deliver(cb, es)) == if cb.onButton then Buttons(es) else []
  {
    if es != [] {
      var front, last := es[..|es| - 1], es[|es| - 1];
      var tail := if Accepts(cb, last) then [last] else [];
      assert es == front + [last];
      ButtonsDelivered(cb, front);
      ButtonsAppend(Deliver(cb, front), tail);
      ButtonsAppend(front, [last]);
      assert Buttons(tail) == if cb.onButton && last.Button? then [last.pressed] else [];
    }
  }

  /** What reaches the callbacks from one report: the button state if the
      button byte changed and a button callback is registered, then the turn
      if the turn byte is nonzero and a turn callback is registered. */
  lemma ReportDelivery(cb: Callbacks, prev: Byte, data: seq<Byte>)
    requires IsInput(data)
    ensures Deliver(cb, ReportEvents(prev, data)) ==
      (if data[1] != prev && cb.onButton then [Button(Truthy(data[1]))] else []) +
      (if data[2] != 0 && cb.onTurn then [Turn(SignedTurn(data[2]))] else [])
  {
    DeliverAppend(cb, ButtonPart(prev, data), TurnPart(data));
    DeliverOne(cb, Button(Truthy(data[1])));
    DeliverOne(cb, Turn(SignedTurn(data[2])));
    assert Deliver(cb, []) == [];
  }

  /** The report handled after the first i reports is a full input report,
      and afterwards its button byte is the stored one. */
  lemma HandleFirst(start: Byte, reports: seq<seq<Byte>>, i: nat)
    requires forall k :: 0 <= k < |reports| ==> IsInput(reports[k])
    requires i < |reports|
    ensures IsInput(reports[i])
    ensures LastButton(start, reports[..i + 1]) == reports[i][1]
  {
  }

  /** Delivering the events of one more report appends what that report
      alone delivers, against the byte the reports before it left stored. */
  lemma DeliverStreamAppend(cb: Callbacks, start: Byte, reports: seq<seq<Byte>>, data: seq<Byte>)
    requires forall k :: 0 <= k < |reports| ==> IsInput(reports[k])
    requires IsInput(data)
    ensures Deliver(cb, StreamEvents(start, reports + [data])) ==
      Deliver(cb, StreamEvents(start, reports)) + Deliver(cb, ReportEvents(LastButton(start, reports), data))
  {
    StreamEventsAppend(start, reports, data);
    DeliverAppend(cb, StreamEvents(start, reports), ReportEvents(LastButton(start, reports), data));
  }

  /** Handling report i after the reports before it appends to what was
      delivered what report i yields against the byte they left stored. */
  lemma HandleStep(cb: Callbacks, start: Byte, reports: seq<seq<Byte>>, i: nat, stored: Byte,
                   log: seq<Event>, before: seq<Event>, after: seq<Event>)
    requires forall k :: 0 <= k < |reports| ==> IsInput(reports[k])
    requires i < |reports| && stored == LastButton(start, reports[..i])
    requires before == log + Deliver(cb, StreamEvents(start, reports[..i]))
    requires after == before + Deliver(cb, ReportEvents(stored, reports[i]))
    ensures after == log + Deliver(cb, StreamEvents(start, reports[..i + 1]))
  {
    var done, data := reports[..i], reports[i];
    TakeOneMore(reports, i);
    DeliverStreamAppend(cb, start, done, data);
    AppendAssoc(log, Deliver(cb, StreamEvents(start, done)), Deliver(cb, ReportEvents(stored, data)));
  }

  lemma AppendAssoc<T>(a: seq<T>, b: seq<T>, c: seq<T>)
    ensures (a + b) + c == a + (b + c)
  {
  }

  lemma TakeAll<T>(s: seq<T>)
    ensures s[..|s|] == s
  {
  }

  lemma TakeOneMore<T>(s: seq<T>, i: nat)
    requires i < |s|
    ensures s[..i + 1] == s[..i] + [s[i]]
  {
  }

  // ---------------------------------------------------------------------
  // The session

  class PowerMate {
    const callbacks: Callbacks
    /** The last button byte seen; False, i.e. 0, when the device opens. */
    var button: Byte
    /** The feature reports sent to the device, in order. */
    ghost var sent: seq<Report>
    /** The callback invocations scheduled on the event loop, in order. */
    ghost var dispatched: seq<Event>

    constructor (callbacks: Callbacks)
      ensures this.callbacks == callbacks
      ensures button == 0 && sent == [] && dispatched == []
    {
      this.callbacks := callbacks;
      button := 0;
      sent := [];
      dispatched := [];
    }

    /** `set_led_solid`; the brightness defaults to 128. */
    method SetLedSolid(brightness: int := 128)
      modifies this`sent
      ensures sent == old(sent) + SolidReports(brightness)
    {
      var b := Clamp(brightness, 0, 255);
      sent := sent + [FeatureReport(SetPulseAwake, 0, 0, 0)];
      sent := sent + [FeatureReport(SetStaticBrightness, 0, b, 0)];
    }

    /** `set_led_pulse`; by default the LED pulses at normal speed, with
        table 0, also while the host sleeps. */
    method SetLedPulse(speed: int := 0, table: int := 0, whenSleeping: bool := true)
      modifies this`sent
      ensures sent == old(sent) + PulseReports(speed, table, whenSleeping)
    {
      var s := Clamp(speed, -255, 255);
      var scale := SpeedScale(s);
      var magnitude := Abs(s);
      var t := Clamp(table, 0, 2);
      var sleeping := if whenSleeping then 1 else 0;
      sent := sent + [FeatureReport(SetPulseAsleep, 0, sleeping, 0)];
      sent := sent + [FeatureReport(SetPulseAwake, 0, 1, 0)];
      sent := sent + [FeatureReport(SetPulseMode, t, scale, magnitude)];
    }

    /** Handles one raw input report: the button byte becomes the stored
        state, and the report's events reach their callbacks in order. */
    method RawDataHandler(data: seq<Byte>)
      requires IsInput(data)
      modifies this`button, this`dispatched
      ensures button == data[1]
      ensures dispatched == old(dispatched) + Deliver(callbacks, ReportEvents(old(button), data))
    {
      var pressed := data[1];
      var turn := data[2];
      ReportDelivery(callbacks, button, data);
      if pressed != button {
        button := pressed;
        OnButton(pressed);
      }
      if turn != 0 {
        OnTurn(turn);
      }
    }

    /** The HID library handing the session one raw report after another:
        the stored byte ends as the last report's, and what reaches the
        callbacks is what the whole stream yields. */
    method HandleReports(reports: seq<seq<Byte>>)
      requires forall i :: 0 <= i < |reports| ==> IsInput(reports[i])
      modifies this`button, this`dispatched
      ensures button == LastButton(old(button), reports)
      ensures dispatched == old(dispatched) + Deliver(callbacks, StreamEvents(old(button), reports))
    {
      ghost var start, log := button, dispatched;
      for i := 0 to |reports|
        invariant button == LastButton(start, reports[..i])
        invariant dispatched == log + Deliver(callbacks, StreamEvents(start, reports[..i]))
      {
        ghost var before, stored := dispatched, button;
        HandleFirst(start, reports, i);
        RawDataHandler(reports[i]);
        HandleStep(callbacks, start, reports, i, stored, log, before, dispatched);
      }
      TakeAll(reports);
    }

    /** Schedules the turn callback with the signed turn amount. */
    method OnTurn(value: Byte)
      modifies this`dispatched
      ensures dispatched == old(dispatched) + (if callbacks.onTurn then [Turn(SignedTurn(value))] else [])
    {
      var amount: int := value;
      if amount > 128 {
        amount := amount - 256;
      }
      if callbacks.onTurn {
        dispatched := dispatched + [Turn(amount)];
      }
    }

    /** Schedules the button callback with the truth value of the byte. */
    method OnButton(value: int)
      modifies this`dispatched
      ensures dispatched == old(dispatched) + (if callbacks.onButton then [Button(Truthy(value))] else [])
    {
      if callbacks.onButton {
        dispatched := dispatched + [Button(value != 0)];
      }
    }
  }
}
