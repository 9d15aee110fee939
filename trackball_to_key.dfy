/**
 * The trackball-to-key input processor stage: relative X motion is
 * accumulated per direction and drained into bounded bursts of key taps;
 * Y motion is swallowed; every other event passes through untouched.
 */
module TrackballToKey {
  import opened KeyEvents

  /** Event type and axis codes of Zephyr's input subsystem. */
  const INPUT_EV_REL: int := 0x02
  const INPUT_REL_X: int := 0x00
  const INPUT_REL_Y: int := 0x01

  /** The fields of an input event the stage looks at: type, code and value. */
  datatype InputEvent = InputEvent(evType: int, code: int, value: int)

  /** The devicetree configuration of one processor instance. */
  datatype Config = Config(
    threshold: int,
    deadzone: int,
    maxPerEvent: int,
    rightKeycode: Keycode,
    leftKeycode: Keycode)

  /** What the devicetree is expected to supply; the code never checks it. */
  predicate ValidConfig(cfg: Config)
  {
    cfg.threshold > 0 && cfg.maxPerEvent >= 1 && cfg.deadzone >= 0
  }

  /** The two accumulators of one processor instance. */
  datatype Accums = Accums(right: int, left: int)

  /** Both accumulators are non-negative and at most one of them is non-zero. */
  predicate AccumInv(data: Accums)
  {
    data.right >= 0 && data.left >= 0 && (data.right == 0 || data.left == 0)
  }

  function Abs(x: int): int { if x < 0 then -x else x }

  function Min(a: int, b: int): int { if a <= b then a else b }

  /** `n` taps of the same key. */
  function Repeat(keycode: Keycode, n: nat): seq<Keycode>
  {
    seq(n, _ => keycode)
  }

  /** Raising one more tap of the same key after a run of taps extends the run by one tap. */
  lemma EmissionsStep(before: seq<Raised>, keycode: Keycode, n: nat, respond: nat -> int)
    ensures var prev := Emissions(Repeat(keycode, n), |before|, respond);
            (before + prev) + TapTrace(keycode, |before + prev|, respond)
            == before + Emissions(Repeat(keycode, n + 1), |before|, respond)
  {
    assert Repeat(keycode, n + 1)[..n] == Repeat(keycode, n);
  }

  /** Result of draining an accumulator: how many taps fired and what remains. */
  datatype Drained = Drained(fires: nat, rest: int)

  /**
   * The drain loop: while the accumulator holds at least `threshold` and
   * fewer than `room` more taps are allowed, fire once and take away
   * `threshold`.
   */
  function Drain(accum: int, threshold: int, room: int): (d: Drained)
    ensures accum >= 0 ==> d.rest >= 0
    decreases room
  {
    if accum >= threshold && room > 0 then
      var d := Drain(accum - threshold, threshold, room - 1);
      Drained(d.fires + 1, d.rest)
    else
      Drained(0, accum)
  }

  /**
   * The drain stops after at most `room` taps (none when `room` is not
   * positive), and when it stops before the cap, less than `threshold` remains.
   */
  lemma {:induction false} DrainBounds(accum: int, threshold: int, room: int)
    ensures room <= 0 ==> Drain(accum, threshold, room).fires == 0
    ensures room >= 0 ==> Drain(accum, threshold, room).fires <= room
    ensures Drain(accum, threshold, room).fires < room ==> Drain(accum, threshold, room).rest < threshold
    decreases room
  {
    if accum >= threshold && room > 0 {
      DrainBounds(accum - threshold, threshold, room - 1);
    }
  }

  /** One turn of the drain loop. */
  lemma DrainStep(accum: int, threshold: int, room: int)
    requires accum >= threshold && room > 0
    ensures var d := Drain(accum - threshold, threshold, room - 1);
            Drain(accum, threshold, room) == Drained(d.fires + 1, d.rest)
  {
  }

  /** What handling one event produces: the event's new value, the new accumulators, the taps in order. */
  datatype Outcome = Outcome(value: int, data: Accums, taps: seq<Keycode>)

  /** True of the relative X events the stage turns into taps. */
  predicate IsRelX(ev: InputEvent)
  {
    ev.evType == INPUT_EV_REL && ev.code == INPUT_REL_X
  }

  /** The effect of handling one event, as a function of the configuration and the accumulators. */
  function Process(cfg: Config, data: Accums, ev: InputEvent): (r: Outcome)
    ensures AccumInv(data) ==> AccumInv(r.data)
    ensures (r.data != data || r.taps != []) ==> IsRelX(ev) && Abs(ev.value) > cfg.deadzone
    ensures forall i :: 0 <= i < |r.taps| ==>
              r.taps[i] == if ev.value > 0 then cfg.rightKeycode else cfg.leftKeycode
  {
    if ev.evType != INPUT_EV_REL then Outcome(ev.value, data, [])
    else if ev.code == INPUT_REL_Y then Outcome(0, data, [])
    else if ev.code != INPUT_REL_X then Outcome(ev.value, data, [])
    else
      var dx := ev.value;
      if Abs(dx) <= cfg.deadzone then Outcome(0, data, [])
      else if dx > 0 then
        var d := Drain(data.right + dx, cfg.threshold, cfg.maxPerEvent);
        Outcome(0, Accums(d.rest, 0), Repeat(cfg.rightKeycode, d.fires))
      else
        var d := Drain(data.left + -dx, cfg.threshold, cfg.maxPerEvent);
        Outcome(0, Accums(0, d.rest), Repeat(cfg.leftKeycode, d.fires))
  }

  /** One processor instance: its configuration and its accumulators. */
  class Processor {
    const cfg: Config
    var rightAccum: int
    var leftAccum: int

    function Data(): Accums
      reads this
    {
      Accums(rightAccum, leftAccum)
    }

    ghost predicate Valid()
      reads this
    {
      ValidConfig(cfg) && AccumInv(Data())
    }

    /** An instance starts with both accumulators at zero. */
    constructor (cfg: Config)
      requires ValidConfig(cfg)
      ensures Valid() && this.cfg == cfg && Data() == Accums(0, 0)
    {
      this.cfg := cfg;
      rightAccum, leftAccum := 0, 0;
    }

    /**
     * Handles one input event: returns the handler's status (always 0) and
     * the event's new value, updates the accumulators and raises the taps on
     * `bus`.  The accumulators do not depend on what the bus answers.
     */
    method HandleEvent(ev: InputEvent, bus: EventBus) returns (ret: int, value: int)
      requires Valid()
      modifies this, bus
      ensures Valid()
      ensures ret == 0
      ensures value == Process(cfg, old(Data()), ev).value
      ensures Data() == Process(cfg, old(Data()), ev).data
      ensures bus.trace == old(bus.trace) + Emissions(Process(cfg, old(Data()), ev).taps, |old(bus.trace)|, bus.respond)
    {
      ret, value := 0, ev.value;
      if ev.evType != INPUT_EV_REL {
        return;
      }
      if ev.code == INPUT_REL_Y {
        value := 0;
        return;
      }
      if ev.code != INPUT_REL_X {
        return;
      }
      var dx := ev.value;
      if Abs(dx) <= cfg.deadzone {
        value := 0;
        return;
      }
      if dx > 0 {
        DrainRight(dx, bus);
      } else {
        DrainLeft(-dx, bus);
      }
      value := 0;
    }

    /**
     * Motion to the right: clears the left accumulator, adds `dx` to the right
     * one and drains it, tapping the right key once per firing.
     */
    method DrainRight(dx: int, bus: EventBus)
      requires ValidConfig(cfg)
      modifies this, bus
      ensures var d := Drain(old(rightAccum) + dx, cfg.threshold, cfg.maxPerEvent);
              Data() == Accums(d.rest, 0) &&
              bus.trace == old(bus.trace) + Emissions(Repeat(cfg.rightKeycode, d.fires), |old(bus.trace)|, bus.respond)
    {
      ghost var trace0 := bus.trace;
      leftAccum := 0;
      rightAccum := rightAccum + dx;
      ghost var total := rightAccum;
      var fires := 0;
      while rightAccum >= cfg.threshold && fires < cfg.maxPerEvent
        invariant 0 <= fires <= cfg.maxPerEvent
        invariant leftAccum == 0
        invariant var d := Drain(rightAccum, cfg.threshold, cfg.maxPerEvent - fires);
                  Drain(total, cfg.threshold, cfg.maxPerEvent) == Drained(fires + d.fires, d.rest)
        invariant bus.trace == trace0 + Emissions(Repeat(cfg.rightKeycode, fires), |trace0|, bus.respond)
        decreases cfg.maxPerEvent - fires
      {
        DrainStep(rightAccum, cfg.threshold, cfg.maxPerEvent - fires);
        EmissionsStep(trace0, cfg.rightKeycode, fires, bus.respond);
        var _ := TapKey(bus, cfg.rightKeycode);
        rightAccum := rightAccum - cfg.threshold;
        fires := fires + 1;
      }
    }

    /**
     * Motion to the left by `mag`: clears the right accumulator, adds `mag`
     * to the left one and drains it, tapping the left key once per firing.
     */
    method DrainLeft(mag: int, bus: EventBus)
      requires ValidConfig(cfg)
      modifies this, bus
      ensures var d := Drain(old(leftAccum) + mag, cfg.threshold, cfg.maxPerEvent);
              Data() == Accums(0, d.rest) &&
              bus.trace == old(bus.trace) + Emissions(Repeat(cfg.leftKeycode, d.fires), |old(bus.trace)|, bus.respond)
    {
      ghost var trace0 := bus.trace;
      rightAccum := 0;
      leftAccum := leftAccum + mag;
      ghost var total := leftAccum;
      var fires := 0;
      while leftAccum >= cfg.threshold && fires < cfg.maxPerEvent
        invariant 0 <= fires <= cfg.maxPerEvent
        invariant rightAccum == 0
        invariant var d := Drain(leftAccum, cfg.threshold, cfg.maxPerEvent - fires);
                  Drain(total, cfg.threshold, cfg.maxPerEvent) == Drained(fires + d.fires, d.rest)
        invariant bus.trace == trace0 + Emissions(Repeat(cfg.leftKeycode, fires), |trace0|, bus.respond)
        decreases cfg.maxPerEvent - fires
      {
        DrainStep(leftAccum, cfg.threshold, cfg.maxPerEvent - fires);
        EmissionsStep(trace0, cfg.leftKeycode, fires, bus.respond);
        var _ := TapKey(bus, cfg.leftKeycode);
        leftAccum := leftAccum - cfg.threshold;
        fires := fires + 1;
      }
    }
  }

  /** The accumulators and outcomes after handling a sequence of events in order. */
  datatype Run = Run(data: Accums, outcomes: seq<Outcome>)

  function RunAll(cfg: Config, data: Accums, evs: seq<InputEvent>): (r: Run)
    ensures |r.outcomes| == |evs|
    decreases |evs|
  {
    if evs == [] then Run(data, [])
    else
      var o := Process(cfg, data, evs[0]);
      var rest := RunAll(cfg, o.data, evs[1..]);
      Run(rest.data, [o] + rest.outcomes)
  }

  // ---------------------------------------------------------------------
  // Properties of the drain loop

  /** Integer division is determined by quotient and remainder. */
  lemma DivUnique(a: int, t: int, q: int, rem: int)
    requires t > 0 && 0 <= rem < t && a == q * t + rem
    ensures a / t == q
  {
    var d := a / t - q;
    assert d * t == rem - a % t by {
      assert d * t == (a / t) * t - q * t;
    }
  }

  lemma DivSubOne(a: int, t: int)
    requires t > 0
    ensures (a - t) / t == a / t - 1
  {
    var q, r := a / t, a % t;
    assert a == q * t + r;
    assert (q - 1) * t == q * t - t;
    DivUnique(a - t, t, q - 1, r);
  }

  /** The drain fires `min(accum / threshold, room)` times. */
  lemma {:induction false} DrainFires(accum: int, threshold: int, room: int)
    requires accum >= 0 && threshold > 0 && room >= 0
    ensures Drain(accum, threshold, room).fires == Min(accum / threshold, room)
    decreases room
  {
    if accum >= threshold && room > 0 {
      DrainFires(accum - threshold, threshold, room - 1);
      DivSubOne(accum, threshold);
    } else if accum < threshold {
      DivUnique(accum, threshold, 0, accum);
    }
  }

  /** Each firing takes exactly `threshold` away from the accumulator. */
  lemma {:induction false} DrainRest(accum: int, threshold: int, room: int)
    ensures Drain(accum, threshold, room).rest == accum - Drain(accum, threshold, room).fires * threshold
    decreases room
  {
    if accum >= threshold && room > 0 {
      DrainRest(accum - threshold, threshold, room - 1);
      var f := Drain(accum - threshold, threshold, room - 1).fires;
      assert (f + 1) * threshold == f * threshold + threshold;
    }
  }

  // ---------------------------------------------------------------------
  // Properties of one call

  /** No event, whatever the configuration, fires more than `maxPerEvent` taps; none when the cap is not positive. */
  lemma TapsCapped(cfg: Config, data: Accums, ev: InputEvent)
    ensures cfg.maxPerEvent <= 0 ==> |Process(cfg, data, ev).taps| == 0
    ensures cfg.maxPerEvent >= 0 ==> |Process(cfg, data, ev).taps| <= cfg.maxPerEvent
  {
    if IsRelX(ev) && Abs(ev.value) > cfg.deadzone {
      var a := (if ev.value > 0 then data.right else data.left) + Abs(ev.value);
      DrainBounds(a, cfg.threshold, cfg.maxPerEvent);
    }
  }

  /** Non-relative events, and relative events on neither X nor Y, pass through unchanged. */
  lemma PassThrough(cfg: Config, data: Accums, ev: InputEvent)
    requires ev.evType != INPUT_EV_REL || (ev.code != INPUT_REL_X && ev.code != INPUT_REL_Y)
    ensures Process(cfg, data, ev) == Outcome(ev.value, data, [])
  {
  }

  /** A relative Y event is always swallowed, whatever its value or the configuration. */
  lemma RelYSuppressed(cfg: Config, data: Accums, ev: InputEvent)
    requires ev.evType == INPUT_EV_REL && ev.code == INPUT_REL_Y
    ensures Process(cfg, data, ev) == Outcome(0, data, [])
  {
  }

  /** The deadzone is inclusive and a zero delta always falls inside it. */
  lemma DeadzoneInclusive(cfg: Config, data: Accums, ev: InputEvent)
    requires ValidConfig(cfg) && IsRelX(ev)
    ensures Abs(ev.value) <= cfg.deadzone <==> Process(cfg, data, ev) == Outcome(0, data, [])
    ensures ev.value == 0 ==> Process(cfg, data, ev) == Outcome(0, data, [])
  {
  }

  /**
   * An X event past the deadzone clears the opposite accumulator before its
   * magnitude is added, and always leaves the event's value at 0.
   */
  lemma DirectionReset(cfg: Config, data: Accums, ev: InputEvent)
    requires IsRelX(ev) && Abs(ev.value) > cfg.deadzone
    ensures ev.value > 0 ==> Process(cfg, data, ev).data.left == 0
    ensures ev.value < 0 ==> Process(cfg, data, ev).data.right == 0
    ensures Process(cfg, data, ev).data
            == Process(cfg, if ev.value > 0 then data.(left := 0) else data.(right := 0), ev).data
    ensures Process(cfg, data, ev).value == 0
  {
  }

  /**
   * The exact effect of an X event past the deadzone: with `A` the active
   * accumulator plus `|dx|`, `min(A / threshold, maxPerEvent)` taps of that
   * direction's key fire and `A - taps * threshold` remains, which is below
   * `threshold` unless the cap was hit.
   */
  lemma DrainFormula(cfg: Config, data: Accums, ev: InputEvent)
    requires ValidConfig(cfg) && AccumInv(data) && IsRelX(ev) && Abs(ev.value) > cfg.deadzone
    ensures
      var right := ev.value > 0;
      var a := (if right then data.right else data.left) + Abs(ev.value);
      var n := Min(a / cfg.threshold, cfg.maxPerEvent);
      var r := Process(cfg, data, ev);
      && |r.taps| == n
      && (forall i :: 0 <= i < n ==> r.taps[i] == if right then cfg.rightKeycode else cfg.leftKeycode)
      && r.data == (if right then Accums(a - n * cfg.threshold, 0) else Accums(0, a - n * cfg.threshold))
      && (n < cfg.maxPerEvent ==> a - n * cfg.threshold < cfg.threshold)
      && 0 <= a - n * cfg.threshold
  {
    var a := (if ev.value > 0 then data.right else data.left) + Abs(ev.value);
    DrainFires(a, cfg.threshold, cfg.maxPerEvent);
    DrainRest(a, cfg.threshold, cfg.maxPerEvent);
    DrainBounds(a, cfg.threshold, cfg.maxPerEvent);
  }

  /**
   * From zero accumulators, an X event with `|dx| == k * threshold + rem`
   * past the deadzone fires `min(k, maxPerEvent)` taps and leaves
   * `rem + (k - min(k, maxPerEvent)) * threshold`.
   */
  lemma FiringCountFromIdle(cfg: Config, ev: InputEvent, k: nat, rem: int)
    requires ValidConfig(cfg) && IsRelX(ev) && Abs(ev.value) > cfg.deadzone
    requires 0 <= rem < cfg.threshold && Abs(ev.value) == k * cfg.threshold + rem
    ensures var r := Process(cfg, Accums(0, 0), ev);
            var n := Min(k, cfg.maxPerEvent);
            && |r.taps| == n
            && r.data == (if ev.value > 0 then Accums(rem + (k - n) * cfg.threshold, 0)
                          else Accums(0, rem + (k - n) * cfg.threshold))
  {
    var a, n := Abs(ev.value), Min(k, cfg.maxPerEvent);
    DivUnique(a, cfg.threshold, k, rem);
    DrainFormula(cfg, Accums(0, 0), ev);
    assert a - n * cfg.threshold == rem + (k - n) * cfg.threshold by {
      assert (k - n) * cfg.threshold == k * cfg.threshold - n * cfg.threshold;
    }
  }

  /** With threshold 10 and a cap of 1, a swipe of 25 fires once and carries 15; a further 5 fires once and leaves 10. */
  lemma CarryOver(dz: int, right: Keycode, left: Keycode)
    requires 0 <= dz < 5
    ensures var cfg := Config(10, dz, 1, right, left);
            var r1 := Process(cfg, Accums(0, 0), InputEvent(INPUT_EV_REL, INPUT_REL_X, 25));
            var r2 := Process(cfg, r1.data, InputEvent(INPUT_EV_REL, INPUT_REL_X, 5));
            && r1.taps == [right] && r1.data == Accums(15, 0)
            && r2.taps == [right] && r2.data == Accums(10, 0)
  {
  }

  // ---------------------------------------------------------------------
  // Properties of a sequence of calls

  /** The accumulator invariant holds after every call of a run. */
  lemma {:induction false} RunKeepsInv(cfg: Config, data: Accums, evs: seq<InputEvent>)
    requires AccumInv(data)
    ensures AccumInv(RunAll(cfg, data, evs).data)
    ensures forall i :: 0 <= i < |evs| ==> AccumInv(RunAll(cfg, data, evs).outcomes[i].data)
    decreases |evs|
  {
    if evs != [] {
      var o := Process(cfg, data, evs[0]);
      RunKeepsInv(cfg, o.data, evs[1..]);
      var r := RunAll(cfg, data, evs);
      forall i | 0 <= i < |evs|
        ensures AccumInv(r.outcomes[i].data)
      {
        if i > 0 {
          assert r.outcomes[i] == RunAll(cfg, o.data, evs[1..]).outcomes[i - 1];
        }
      }
    }
  }

  /** Threshold 20, deadzone 2, cap 3: the X deltas 1, 3, 25, -30 from idle fire 0, 0, 1, 1 taps and leave left at 10. */
  lemma Scenario(right: Keycode, left: Keycode)
    ensures var r := RunAll(Config(20, 2, 3, right, left), Accums(0, 0),
                            [InputEvent(INPUT_EV_REL, INPUT_REL_X, 1), InputEvent(INPUT_EV_REL, INPUT_REL_X, 3),
                             InputEvent(INPUT_EV_REL, INPUT_REL_X, 25), InputEvent(INPUT_EV_REL, INPUT_REL_X, -30)]);
            && |r.outcomes| == 4
            && |r.outcomes[0].taps| == 0 && |r.outcomes[1].taps| == 0
            && |r.outcomes[2].taps| == 1 && |r.outcomes[3].taps| == 1
            && r.data == Accums(0, 10)
  {
    var cfg := Config(20, 2, 3, right, left);
    var e1, e2 := InputEvent(INPUT_EV_REL, INPUT_REL_X, 1), InputEvent(INPUT_EV_REL, INPUT_REL_X, 3);
    var e3, e4 := InputEvent(INPUT_EV_REL, INPUT_REL_X, 25), InputEvent(INPUT_EV_REL, INPUT_REL_X, -30);
    assert Process(cfg, Accums(0, 0), e1) == Outcome(0, Accums(0, 0), []);
    assert Process(cfg, Accums(0, 0), e2) == Outcome(0, Accums(3, 0), []);
    assert Process(cfg, Accums(3, 0), e3) == Outcome(0, Accums(8, 0), [right]);
    assert Process(cfg, Accums(8, 0), e4) == Outcome(0, Accums(0, 10), [left]);
    var o1, o2 := Outcome(0, Accums(0, 0), []), Outcome(0, Accums(3, 0), []);
    var o3, o4 := Outcome(0, Accums(8, 0), [right]), Outcome(0, Accums(0, 10), [left]);
    assert [e4][1..] == [] && [e3, e4][1..] == [e4] && [e2, e3, e4][1..] == [e3, e4] && [e1, e2, e3, e4][1..] == [e2, e3, e4];
    assert RunAll(cfg, Accums(8, 0), [e4]) == Run(Accums(0, 10), [o4]);
    assert RunAll(cfg, Accums(3, 0), [e3, e4]) == Run(Accums(0, 10), [o3, o4]);
    assert RunAll(cfg, Accums(0, 0), [e2, e3, e4]) == Run(Accums(0, 10), [o2, o3, o4]);
    assert RunAll(cfg, Accums(0, 0), [e1, e2, e3, e4]) == Run(Accums(0, 10), [o1, o2, o3, o4]);
  }

  /**
   * The same scenario on a processor instance whose bus accepts every event:
   * the handler returns values 0, 0, 0, 0 and raises a press and release of
   * the right key, then a press and release of the left key.
   */
  method ScenarioOnDevice(right: Keycode, left: Keycode) returns (values: seq<int>, trace: seq<Raised>, final: Accums)
    ensures values == [0, 0, 0, 0]
    ensures trace == [Raised(right, true, 0), Raised(right, false, 0), Raised(left, true, 0), Raised(left, false, 0)]
    ensures final == Accums(0, 10)
  {
    var p := new Processor(Config(20, 2, 3, right, left));
    var bus := new EventBus(_ => 0);
    var _, v1 := p.HandleEvent(InputEvent(INPUT_EV_REL, INPUT_REL_X, 1), bus);
    var _, v2 := p.HandleEvent(InputEvent(INPUT_EV_REL, INPUT_REL_X, 3), bus);
    var _, v3 := p.HandleEvent(InputEvent(INPUT_EV_REL, INPUT_REL_X, 25), bus);
    var _, v4 := p.HandleEvent(InputEvent(INPUT_EV_REL, INPUT_REL_X, -30), bus);
    values, trace, final := [v1, v2, v3, v4], bus.trace, p.Data();
  }
}
