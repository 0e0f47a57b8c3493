# PowerMate report codec and session state, in Dafny

A model of the core of `powermate`, a Python driver for the Griffin PowerMate
USB knob (a rotary dial with a push button and an LED). The driver has two
backends, and the model covers both:

- **Windows** (`powermate/win.py`). The LED is set with 9-byte HID feature
  reports. Input arrives as raw reports: byte 1 is the button state and
  byte 2 the turn amount as an unsigned byte. The session stores the last
  button byte and reports a button event only when that byte changes.
- **Linux** (`powermate/linux.py`). The device is an evdev input device.
  The LED is set by writing one `MSC_PULSELED` value: a plain brightness,
  or a word packing pulse speed, pulse table and enable code. Input arrives
  as `(type, code, value)` events. Dial motion becomes a turn, the first
  button becomes a button state, and every other event is ignored.
  Enumeration keeps the devices whose vendor and product are the PowerMate's.

Module `Common` (common.dfy) holds what both backends share:
- the clamp both backends apply to LED arguments;
- the clamped pulse command;
- the `Turn`/`Button` events;
- delivery to callbacks. A callback left as None drops its events.

Modules `Win` (win.dfy) and `Linux` (linux.dfy) follow the two source files.
Each has a pure part and a `PowerMate` class:
- Pure part: report and word encoders, the turn-byte decoder, and the event
  classifier. Each comes with a partner: the command a report sequence
  encodes, the field unpacking of the word, or the stream-level properties.
- Class: the session. Sending a report, writing an event and scheduling a
  callback become appends to ghost logs (`sent`, `written`, `dispatched`).
  The Windows class keeps the stored button byte as a real field.

Both backends encode the same command. `Win.PulseRoundTrip` reads the
Windows pulse reports back as `Common.ClampPulse(speed, table, whenSleeping)`.
`Linux.PulseRoundTrip` reads the Linux pulse word back as the same value.

The model follows the code in places where a description of the driver
could easily be read differently:
- The Windows speed-scale byte is 1 for a zero speed, 0 for a negative one
  and 2 for a positive one (win.py:67). It is not 0 for zero and 1 for
  negative.
- The Linux pulse word puts `speed + 255` at bit 8, not at bit 0. The
  table goes at bit 17 and the enable code at bit 19 (linux.py:82-83).
  The low byte of a pulse word is therefore always zero.
- A Windows turn byte of 128 decodes to +128, so turns lie in [-127, 128]
  (win.py:86).
- The Linux enumeration does not skip devices that fail to open. The
  constructor call is not guarded, so such a failure propagates.

The source does not spell out its constants. `linux.py` takes the event
codes from evdev's `ecodes`. It takes `VENDOR_ID` and `PRODUCT_ID` from
`powermate/base.py`, which is not part of this model. The values used here
come from outside the source:
- the event codes are those of the Linux kernel's input layer: EV_KEY 1,
  EV_REL 2, EV_MSC 4, REL_DIAL 7, BTN_0 0x100, MSC_PULSELED 1;
- the vendor and product identifiers are the knob's USB vendor and
  product IDs, 0x077d and 0x0410.

The proofs use these constants only in equality tests. They rely on one
fact about their values: EV_REL and EV_KEY differ.

## Model

| member | source | states |
|---|---|---|
| Common.Abs | powermate/win.py:68 | `abs(x)` is non-negative and is x or -x |
| Common.Truthy | powermate/win.py:93 | `bool(v)` on an integer is False for 0 and True for every other value |
| Common.Clamp | powermate/win.py:54 | `min(max(x, lo), hi)` lies in [lo, hi], is x itself when x is in range, and is the nearer bound otherwise |
| Common.ClampIsNearest | powermate/linux.py:68 | no in-range value is nearer to the argument than its clamp |
| Common.ClampPulse | powermate/win.py:66-69 | speed is brought into [-255, 255] and table into [0, 2]; in-range arguments are kept, out-of-range ones become the nearest bound, and the sleep flag is kept |
| Common.Deliver | powermate/win.py:88-93 | no more events reach callbacks than were decoded. With both callbacks registered every event is delivered; with neither, none is. Common.DeliverMembers and Common.DeliverAppend state membership and order |
| Common.DeliverAppend | powermate/linux.py:54-60 | delivery preserves stream order: delivering a + b is delivering a, then b |
| Common.DeliverOne | powermate/win.py:91-93 | a single event is scheduled exactly when its callback is registered |
| Common.DeliverMembers | powermate/linux.py:56-60 | an event reaches a callback if and only if it was decoded and its callback is not None |
| Win.FeatureReport | powermate/win.py:55-56 | a feature report is the 9-byte envelope `[0, 0x41, 1, command, a, b, c, 0, 0]`, every byte in [0, 255] |
| Win.SolidReports | powermate/win.py:54-56 | `set_led_solid` sends two well-formed reports, the pulse-mode report first and the static-brightness report second. Win.SolidRoundTrip reads the brightness back |
| Win.SpeedScale | powermate/win.py:67 | the scale byte is 0 exactly for a negative speed, 1 exactly for zero, and 2 exactly for a positive speed |
| Win.SpeedScaleRoundTrip | powermate/win.py:66-68 | for a clamped speed the magnitude `abs(speed)` fits a byte, and the scale and magnitude together give back the signed speed |
| Win.SolidRoundTrip | powermate/win.py:54-56 | `set_led_solid` sends two well-formed reports, pulsing off first, with every unused argument byte zero; the brightness they encode is the argument clamped into [0, 255] |
| Win.SolidReadExact | powermate/win.py:55-56 | a report sequence that encodes a brightness is byte for byte the sequence `set_led_solid` sends for it, unused argument bytes zero |
| Win.SolidClamps | powermate/win.py:54 | the reports depend only on the clamped brightness, so -5 sends what 0 sends and 999 what 255 sends |
| Win.PulseReports | powermate/win.py:66-74 | `set_led_pulse` sends three well-formed reports: the asleep flag, pulsing on, then the pulse mode. Win.PulseRoundTrip reads the command back |
| Win.PulseRoundTrip | powermate/win.py:66-74 | `set_led_pulse` sends three well-formed reports: asleep flag, pulsing on, then table, scale and magnitude. The asleep byte is 0 or 1, the scale byte is the one SpeedScale gives for the speed, and every unused argument byte is zero. They encode exactly the clamped (speed, table, when_sleeping) |
| Win.PulseReadExact | powermate/win.py:67-74 | a report sequence that encodes a pulse command is byte for byte the sequence `set_led_pulse` sends for it: asleep flag 0 or 1, scale byte 0, 1 or 2 as the speed's sign, unused argument bytes zero |
| Win.PulseClamps | powermate/win.py:66-74 | the reports depend only on the clamped command, so (-300, 5, false) sends what (-255, 2, false) sends; speed 0 gives scale 1 and magnitude 0 |
| Win.SignedTurn | powermate/win.py:85-87 | the decoded turn lies in [-127, 128], equals the byte or the byte minus 256, is congruent to the byte modulo 256, and is zero exactly for byte 0 |
| Win.SignedTurnRoundTrip | powermate/win.py:85-87 | re-encoding any turn in [-127, 128] as a byte and decoding it gives the turn back |
| Win.ButtonPart | powermate/win.py:79-81 | a report yields at most one button event, and yields one exactly when byte 1 differs from the stored byte. The event is a press exactly when byte 1 is nonzero |
| Win.TurnPart | powermate/win.py:82-83 | a report yields at most one turn event, and yields one exactly when byte 2 is nonzero. Its amount is nonzero, lies in [-127, 128] and is congruent to byte 2 modulo 256 |
| Win.ReportEvents | powermate/win.py:76-83 | a report yields a button event exactly when byte 1 differs from the stored byte, and that event comes first. It yields a turn event exactly when byte 2 is nonzero. The button carries `bool(byte 1)` and the turn the signed byte 2 |
| Win.StreamEvents | powermate/win.py:76-83 | a stream of reports, handled one after another with the stored byte threaded through, yields at most two events per report. Win.StreamEventsAppend gives it report by report |
| Win.StreamEventsAppend | powermate/win.py:76-83 | one more report appends the events that report yields against the byte stored after the reports before it |
| Win.DeliverStreamAppend | powermate/win.py:76-93 | delivering the events of one more report appends what that report alone delivers |
| Win.ButtonsDelivered | powermate/win.py:91-93 | a registered button callback receives every button state of a stream, in order, whatever is dropped among the turns; an unregistered one receives none |
| Win.ButtonsOfReport | powermate/win.py:79-81 | the button states one report contributes: `bool(byte 1)` if byte 1 changed, otherwise none |
| Win.ButtonsOfStream | powermate/win.py:76-81 | the button states of a report stream, with the stored byte threaded from report to report, are those of every report whose button byte differs from the one before it |
| Win.ButtonEventsAlternate | powermate/win.py:76-81 | over a stream of reports with button bytes 0 or 1, button events alternate. The first is a press when the stored byte was 0. The last matches the last report. A stream with no button event leaves the stored state unchanged |
| Win.ReportDelivery | powermate/win.py:79-93 | from one report, the button state reaches its callback if byte 1 changed and a button callback is registered. The turn then reaches its callback if byte 2 is nonzero and a turn callback is registered |
| Win.PowerMate.constructor | powermate/win.py:30-37 | a new session stores button byte 0 (Python's False) and has sent and dispatched nothing |
| Win.PowerMate.SetLedSolid | powermate/win.py:48-56 | appends exactly the two solid-brightness reports to what was sent; the brightness defaults to 128 |
| Win.PowerMate.SetLedPulse | powermate/win.py:58-74 | appends exactly the three pulse reports to what was sent; speed and table default to 0, and pulsing while asleep to true |
| Win.PowerMate.RawDataHandler | powermate/win.py:76-83 | the stored button byte becomes byte 1, and the report's events reach their registered callbacks, button before turn |
| Win.PowerMate.HandleReports | powermate/win.py:76-83 | handling a stream of reports one after another leaves the last report's button byte stored. What reaches the callbacks is what the whole stream yields, so Win.ButtonsDelivered and Win.ButtonEventsAlternate carry alternation over to the dispatch log |
| Win.PowerMate.OnTurn | powermate/win.py:85-89 | schedules the turn callback, if registered, with the signed turn amount |
| Win.PowerMate.OnButton | powermate/win.py:91-93 | schedules the button callback, if registered, with `bool(value)` |
| Linux.Shl | powermate/linux.py:83 | `x << n` never makes a value smaller, and only 0 shifts to 0 |
| Linux.ShlStep | powermate/linux.py:83 | each place of a left shift doubles the value |
| Linux.Or | powermate/linux.py:83 | the bitwise or of a and b is at least a and at least b and at most a + b, and is odd exactly when a or b is odd |
| Linux.OrCommutes | powermate/linux.py:82-83 | bitwise or is commutative |
| Linux.OrDisjoint | powermate/linux.py:82-83 | or-ing a value below 2^k into a value shifted left by k is their sum, because the bits do not overlap |
| Linux.PackDisjoint | powermate/linux.py:82-83 | or-ing s shifted left by 8, t shifted left by 17 and e shifted left by 19 gives the sum of the three shifted fields when s < 512 and t < 4 |
| Linux.UnpackSum | powermate/linux.py:82-83 | each field of such a sum comes back from its slot, and the low byte is zero |
| Linux.SolidValue | powermate/linux.py:68-69 | the solid value holds the clamped brightness in its brightness field; speed, table and enable fields are zero |
| Linux.PulseWord | powermate/linux.py:79-83 | the or of the three shifted fields equals `(speed+255)*2^8 + table*2^17 + enable*2^19` for the clamped speed and table and enable 3 or 2 |
| Linux.PulseWordFields | powermate/linux.py:79-83 | the pulse word is `(speed+255)*2^8 + table*2^17 + enable*2^19`. Unpacked, the low byte is 0, `(w >> 8) % 512` is speed+255, `(w >> 17) % 4` is table, and `w >> 19` is 3 when pulsing while asleep and 2 otherwise |
| Linux.PulseRoundTrip | powermate/linux.py:79-83 | the pulse word reads back as the clamped (speed, table, when_sleeping), so out-of-range arguments write the word of the nearest bound |
| Linux.PulseWordInjective | powermate/linux.py:82-83 | distinct in-range pulse commands are written as distinct words |
| Linux.Classify | powermate/linux.py:55-60 | (EV_REL, REL_DIAL) is a turn by the event's value, (EV_KEY, BTN_0) is a button with `bool(value)`, and any other event is nothing |
| Linux.Decode | powermate/linux.py:54-60 | a stream of input events stands for at most one event per input event. Linux.DecodeTurns and Linux.DecodeButtons say which |
| Linux.DecodeAppend | powermate/linux.py:54-60 | decoding preserves stream order: a + b decodes to a's events, then b's |
| Linux.DecodeTurns | powermate/linux.py:55-57 | a turn of v is decoded if and only if the stream holds a dial event with value v |
| Linux.DecodeButtons | powermate/linux.py:58-60 | a button state b is decoded if and only if the stream holds a BTN_0 key event whose `bool(value)` is b |
| Linux.Step | powermate/linux.py:55-60 | what the loop schedules for one input event is its classification, when there is one and its callback is registered, and nothing otherwise |
| Linux.Dispatch | powermate/linux.py:54-60 | the loop schedules at most one call per input event. Linux.DispatchDelivers says which |
| Linux.DispatchDelivers | powermate/linux.py:54-60 | what the read loop schedules is exactly the decoded events whose callbacks are registered, in stream order |
| Linux.DecodeStep | powermate/linux.py:55-60 | delivering the decoding of one more input event appends what the loop schedules for that event alone (Linux.Step) |
| Linux.Matching | powermate/linux.py:17-23 | enumeration returns at most one path per listed device. Linux.MatchingMembers says which |
| Linux.MatchingAppend | powermate/linux.py:17-23 | the device filter preserves list order |
| Linux.MatchingMembers | powermate/linux.py:17-23 | a path is returned if and only if a listed device with that path has both the PowerMate's vendor and its product |
| Linux.PowerMate.constructor | powermate/linux.py:35-41 | a new session has written and dispatched nothing |
| Linux.PowerMate.Enumerate | powermate/linux.py:10-23 | returns exactly the PowerMate paths in list order, and closes every inspected device, in list order |
| Linux.PowerMate.Run | powermate/linux.py:53-60 | the loop schedules, event by event, what the source's branches schedule (see Linux.DispatchDelivers) |
| Linux.PowerMate.SetLedSolid | powermate/linux.py:62-69 | writes one (EV_MSC, MSC_PULSELED) event carrying the clamped brightness; the brightness defaults to 128 |
| Linux.PowerMate.SetLedPulse | powermate/linux.py:71-83 | writes one (EV_MSC, MSC_PULSELED) event carrying the packed pulse word; speed and table default to 0, and pulsing while asleep to true |

## Left out

- Opening and closing devices is library I/O and is not modelled: `HidDevice.open`/`close`, `evdev.InputDevice`, `close` and `__del__` in both backends. A session's lifecycle (closed after close, no callback after close) is therefore not modelled.
- Windows `enumerate` is not modelled. It only returns the paths of pywinusb's vendor/product filter, so the filtering happens inside the library.
- Linux enumeration does not model a device that fails to open while being inspected. The model receives each device's path, vendor and product as input.
- asyncio scheduling (`call_soon`, `call_soon_threadsafe`, `ensure_future`, `async_read_loop`, task cancellation) is not modelled. Scheduling a callback is an append to the `dispatched` log. Reading events is iteration over an input sequence.
- Callbacks are modelled only as registered or not (Python truthiness of the callback object). What a callback does is not modelled.
- Sending a feature report or writing an evdev event is an append to the `sent` or `written` log. A failed write and the HID Set_Report transport are not modelled.
- Concurrency between the read loop and LED writes is not modelled. The atomicity of the three-report pulse sequence is not modelled either.
- The CLI (`powermate/__main__.py`) and platform selection (`powermate/__init__.py`) are console and environment glue and are not modelled.
- Win.PowerMate.RawDataHandler: a report shorter than three bytes raises IndexError in the source. The model requires at least three bytes instead of modelling the exception.
