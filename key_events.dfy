/**
 * Key emission for the trackball-to-key input processor: the keycode-state
 * event bus seen as an abstract sink, and `tap_key`, which raises a press and
 * then a release for one keycode and gives up after a failed press.
 */
module KeyEvents {

  /** A HID keycode as the source stores it (`uint32_t`). */
  type Keycode = x: int | 0 <= x < 0x1_0000_0000

  /**
   * One keycode-state event handed to the bus, with the bus's answer.
   * A negative answer is a failure.  The usage page (0x07) and the zero
   * modifiers are the same on every event the processor raises, so they
   * are not recorded.
   */
  datatype Raised = Raised(keycode: Keycode, pressed: bool, ret: int)

  /**
   * The event bus.  `respond(n)` is its answer to the n-th event ever raised
   * on it; `trace` is every event raised so far, in order.
   */
  class EventBus {
    const respond: nat -> int
    var trace: seq<Raised>

    constructor (respond: nat -> int)
      ensures this.respond == respond && trace == []
    {
      this.respond := respond;
      trace := [];
    }

    /** Hands one keycode-state event to the bus and returns its answer. */
    method Raise(keycode: Keycode, pressed: bool) returns (ret: int)
      modifies this
      ensures ret == respond(|old(trace)|)
      ensures trace == old(trace) + [Raised(keycode, pressed, ret)]
    {
      ret := respond(|trace|);
      trace := trace + [Raised(keycode, pressed, ret)];
    }
  }

  /**
   * What one tap raises when the bus has already seen `start` events:
   * a press, and a release only if the press was accepted.
   */
  function TapTrace(keycode: Keycode, start: nat, respond: nat -> int): seq<Raised>
  {
    var press := Raised(keycode, true, respond(start));
    if press.ret < 0 then [press]
    else [press, Raised(keycode, false, respond(start + 1))]
  }

  /** What a sequence of taps raises, one tap after another, from bus position `start`. */
  function Emissions(taps: seq<Keycode>, start: nat, respond: nat -> int): seq<Raised>
    decreases |taps|
  {
    if taps == [] then []
    else
      var prev := Emissions(taps[..|taps| - 1], start, respond);
      prev + TapTrace(taps[|taps| - 1], start + |prev|, respond)
  }

  /** The keycodes of the press events of a trace, in order. */
  function PressedKeys(tr: seq<Raised>): seq<Keycode>
    decreases |tr|
  {
    if tr == [] then []
    else (if tr[0].pressed then [tr[0].keycode] else []) + PressedKeys(tr[1..])
  }

  /**
   * Every accepted press is immediately followed by the release of the same
   * key, and every release immediately follows an accepted press of the same
   * key.  In particular a refused press is never followed by its release.
   */
  ghost predicate WellPaired(tr: seq<Raised>)
  {
    && (forall i :: 0 <= i < |tr| && tr[i].pressed && tr[i].ret >= 0 ==>
          i + 1 < |tr| && !tr[i + 1].pressed && tr[i + 1].keycode == tr[i].keycode)
    && (forall i :: 0 <= i < |tr| && !tr[i].pressed ==>
          0 < i && tr[i - 1].pressed && tr[i - 1].ret >= 0 && tr[i - 1].keycode == tr[i].keycode)
  }

  /**
   * Raises a press and then a release for `keycode`; stops after a refused
   * press.  Returns the answer to the last event it raised.
   */
  method TapKey(bus: EventBus, keycode: Keycode) returns (ret: int)
    modifies bus
    ensures bus.trace == old(bus.trace) + TapTrace(keycode, |old(bus.trace)|, bus.respond)
    ensures var t := TapTrace(keycode, |old(bus.trace)|, bus.respond); ret == t[|t| - 1].ret
  {
    ret := bus.Raise(keycode, true);
    if ret < 0 {
      return;
    }
    ret := bus.Raise(keycode, false);
  }

  lemma {:induction false} PressedKeysAppend(a: seq<Raised>, b: seq<Raised>)
    ensures PressedKeys(a + b) == PressedKeys(a) + PressedKeys(b)
    decreases |a|
  {
    if a == [] {
      assert a + b == b;
    } else {
      assert (a + b)[0] == a[0] && (a + b)[1..] == a[1..] + b;
      PressedKeysAppend(a[1..], b);
    }
  }

  /** One tap raises exactly one press, for its own key. */
  lemma TapTracePressedKeys(keycode: Keycode, start: nat, respond: nat -> int)
    ensures PressedKeys(TapTrace(keycode, start, respond)) == [keycode]
  {
    var t := TapTrace(keycode, start, respond);
    if |t| == 2 {
      assert t[1..][1..] == [];
      assert PressedKeys(t[1..]) == [];
    } else {
      assert t[1..] == [];
    }
  }

  /**
   * Whatever the bus answers, a run of taps raises exactly one press per
   * tap, for the tap's keycode and in the taps' order: a refused event
   * never causes a tap to be skipped or repeated.
   */
  lemma {:induction false} EmissionsPressedKeys(taps: seq<Keycode>, start: nat, respond: nat -> int)
    ensures PressedKeys(Emissions(taps, start, respond)) == taps
    decreases |taps|
  {
    if taps != [] {
      var init, last := taps[..|taps| - 1], taps[|taps| - 1];
      var prev := Emissions(init, start, respond);
      var t := TapTrace(last, start + |prev|, respond);
      assert Emissions(taps, start, respond) == prev + t;
      EmissionsPressedKeys(init, start, respond);
      PressedKeysAppend(prev, t);
      TapTracePressedKeys(last, start + |prev|, respond);
      assert init + [last] == taps;
    }
  }

  /** A run of taps raises between one and two events per tap. */
  lemma {:induction false} EmissionsLength(taps: seq<Keycode>, start: nat, respond: nat -> int)
    ensures |taps| <= |Emissions(taps, start, respond)| <= 2 * |taps|
    decreases |taps|
  {
    if taps != [] {
      EmissionsLength(taps[..|taps| - 1], start, respond);
    }
  }

  /**
   * Whatever the bus answers, each event of a run of taps is for one of the
   * taps' keycodes, and the i-th event carries the bus's answer to the
   * (start + i)-th event raised on it.
   */
  lemma {:induction false} EmissionsAnswers(taps: seq<Keycode>, start: nat, respond: nat -> int)
    ensures forall i :: 0 <= i < |Emissions(taps, start, respond)| ==>
              Emissions(taps, start, respond)[i].keycode in taps &&
              Emissions(taps, start, respond)[i].ret == respond(start + i)
    decreases |taps|
  {
    if taps != [] {
      var init := taps[..|taps| - 1];
      var prev := Emissions(init, start, respond);
      var t := TapTrace(taps[|taps| - 1], start + |prev|, respond);
      var tr := prev + t;
      EmissionsAnswers(init, start, respond);
      assert tr == Emissions(taps, start, respond);
      forall i | 0 <= i < |tr|
        ensures tr[i].keycode in taps && tr[i].ret == respond(start + i)
      {
        if i < |prev| {
          assert tr[i] == prev[i];
          assert prev[i].keycode in init;
        } else {
          assert tr[i] == t[i - |prev|];
        }
      }
    }
  }

  /**
   * Whatever the bus answers, a run of taps raises well-paired events: no
   * release without the accepted press just before it, and no accepted press
   * without its release just after it.
   */
  lemma {:induction false} EmissionsWellPaired(taps: seq<Keycode>, start: nat, respond: nat -> int)
    ensures WellPaired(Emissions(taps, start, respond))
    decreases |taps|
  {
    if taps != [] {
      var init := taps[..|taps| - 1];
      var prev := Emissions(init, start, respond);
      var t := TapTrace(taps[|taps| - 1], start + |prev|, respond);
      var tr := prev + t;
      EmissionsWellPaired(init, start, respond);
      assert tr == Emissions(taps, start, respond);
      forall i | 0 <= i < |tr| && tr[i].pressed && tr[i].ret >= 0
        ensures i + 1 < |tr| && !tr[i + 1].pressed && tr[i + 1].keycode == tr[i].keycode
      {
        if i < |prev| {
          assert tr[i] == prev[i];
          assert prev[i].pressed && prev[i].ret >= 0;
          assert tr[i + 1] == prev[i + 1];
        }
      }
      forall i | 0 <= i < |tr| && !tr[i].pressed
        ensures 0 < i && tr[i - 1].pressed && tr[i - 1].ret >= 0 && tr[i - 1].keycode == tr[i].keycode
      {
        if i < |prev| {
          assert tr[i] == prev[i];
          assert tr[i - 1] == prev[i - 1];
        } else {
          assert tr[i] == t[i - |prev|];
          assert i == |prev| + 1;
          assert tr[i - 1] == t[0];
        }
      }
    }
  }
}
