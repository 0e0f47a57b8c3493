/** Definitions shared by the two PowerMate backends: byte values, the clamping
    both backends apply to LED arguments, the semantic LED pulse command, the
    events a session hands to its callbacks, and how a missing callback drops
    its events. */
module Common {

  /** An unsigned 8-bit value, as carried in a HID report. */
  type Byte = x: int | 0 <= x < 256

  datatype Option<T> = None | Some(value: T)

  function Abs(x: int): (r: int)
    ensures r >= 0 && (r == x || r == -x)
  {
    if x < 0 then -x else x
  }

  /** `min(max(x, lo), hi)`: the value in [lo, hi] nearest to x. */
  function Clamp(x: int, lo: int, hi: int): (r: int)
    requires lo <= hi
    ensures lo <= r <= hi
    ensures lo <= x <= hi ==> r == x
    ensures x < lo ==> r == lo
    ensures hi < x ==> r == hi
  {
    if x < lo then lo else if hi < x then hi else x
  }

  /** No value of the range is nearer to x than its clamp. */
  lemma ClampIsNearest(x: int, lo: int, hi: int, y: int)
    requires lo <= y <= hi
    ensures Abs(Clamp(x, lo, hi) - x) <= Abs(y - x)
  {
  }

  /** A pulse request once its arguments have been brought into range:
      speed in [-255, 255] (negative is slower), pulse table in [0, 2], and
      whether the LED keeps pulsing while the host sleeps. */
  datatype PulseCommand = PulseCommand(speed: int, table: int, whenSleeping: bool)

  /** Both backends clamp speed to [-255, 255] and table to [0, 2]; out-of-range
      arguments are never rejected. */
  function ClampPulse(speed: int, table: int, whenSleeping: bool): (c: PulseCommand)
    ensures -255 <= c.speed <= 255 && 0 <= c.table <= 2 && c.whenSleeping == whenSleeping
    ensures -255 <= speed <= 255 ==> c.speed == speed
    ensures 0 <= table <= 2 ==> c.table == table
    ensures speed < -255 ==> c.speed == -255
    ensures 255 < speed ==> c.speed == 255
    ensures table < 0 ==> c.table == 0
    ensures 2 < table ==> c.table == 2
  {
    PulseCommand(Clamp(speed, -255, 255), Clamp(table, 0, 2), whenSleeping)
  }

  /** A decoded input event, as passed to the session's callbacks: a turn
      amount, or the new button state (pressed or released). */
  datatype Event = Turn(amount: int) | Button(pressed: bool)

  /** Python's `bool(v)` on an integer: False for 0, True for every other
      value. */
  function Truthy(v: int): (b: bool)
    ensures v == 0 ==> !b
    ensures v != 0 ==> b
  {
    v != 0
  }

  /** Whether a turn callback and a button callback were given (a callback
      left as None is not called). */
  datatype Callbacks = Callbacks(onTurn: bool, onButton: bool)

  predicate Accepts(cb: Callbacks, e: Event)
  {
    if e.Turn? then cb.onTurn else cb.onButton
  }

  /** The events that reach a callback, in the order they were decoded: an
      event whose callback is None is dropped, every other one is scheduled.
      With both callbacks registered nothing is dropped; with neither,
      everything is. */
  function Deliver(cb: Callbacks, es: seq<Event>): (r: seq<Event>)
    ensures |r| <= |es|
    ensures cb == Callbacks(true, true) ==> r == es
    ensures cb == Callbacks(false, false) ==> r == []
  {
    if es == [] then []
    else
      var last := es[|es| - 1];
      assert es == es[..|es| - 1] + [last];
      Deliver(cb, es[..|es| - 1]) + (if Accepts(cb, last) then [last] else [])
  }

  /** Delivery preserves order: delivering a stream is delivering its parts
      one after the other. */
  lemma {:induction false} DeliverAppend(cb: Callbacks, a: seq<Event>, b: seq<Event>)
    ensures Deliver(cb, a + b) == Deliver(cb, a) + Deliver(cb, b)
    decreases |b|
  {
    if b == [] {
      assert a + b == a;
    } else {
      var last, front := b[|b| - 1], b[..|b| - 1];
      var tail := if Accepts(cb, last) then [last] else [];
      assert (a + b)[..|a + b| - 1] == a + front;
      assert (a + b)[|a + b| - 1] == last;
      assert Deliver(cb, a + b) == Deliver(cb, a + front) + tail;
      assert Deliver(cb, b) == Deliver(cb, front) + tail;
      DeliverAppend(cb, a, front);
    }
  }

  /** A single event is scheduled exactly when its callback is registered. */
  lemma DeliverOne(cb: Callbacks, e: Event)
    ensures Deliver(cb, [e]) == if Accepts(cb, e) then [e] else []
  {
  }

  /** An event reaches its callback exactly when it was decoded and its
      callback is registered. */
  lemma {:induction false} DeliverMembers(cb: Callbacks, es: seq<Event>, e: Event)
    ensures e in Deliver(cb, es) <==> e in es && Accepts(cb, e)
  {
    if es != [] {
      var front, last := es[..|es| - 1], es[|es| - 1];
      assert es == front + [last];
      DeliverMembers(cb, front, e);
    }
  }
}
