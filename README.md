# Trackball-to-key input processor, modelled in Dafny

This project models the ZMK input-processor stage `trackball_to_key`. The
stage turns relative trackball motion on the X axis into bounded bursts of key
taps and swallows all motion on the Y axis.

Its handler applies these rules to each event:

- Events that are not relative-motion events, and relative events on any axis
  other than X or Y, pass through untouched.
- A relative-Y event has its value set to 0.
- A relative-X event whose magnitude is at most `deadzone` is set to 0 and
  otherwise ignored.
- Any other X event clears the accumulator of the opposite direction, then
  adds `|dx|` to the accumulator of its own direction.
- That accumulator is then drained: one tap of the direction's keycode per
  `threshold`, at most `max_per_event` taps per event. Anything left over is
  kept for the next event.
- The X event's value is then set to 0.

A tap is a key press followed by a key release, raised on ZMK's keycode-state
event bus. After a refused press the release is not raised. The handler
ignores tap results and subtracts `threshold` for every tap either way.

The model has two modules.

- `KeyEvents` (`key_events.dfy`) models the event bus and `tap_key`.
  - The bus is a class, `EventBus`. Its `respond(n)` is the bus's answer to
    the n-th event raised on it (negative means failure), and `trace` records
    every event raised, with its answer.
  - `TapKey` is the imperative `tap_key`.
  - `Emissions` is the sequence of events that a run of taps raises, for any
    bus answers.
- `TrackballToKey` (`trackball_to_key.dfy`) models the processor.
  - `Config` is the devicetree configuration and `Accums` the two
    accumulators.
  - `Drain` is the drain loop as a recursive function.
  - `Process` is the effect of one call of the handler as a pure function.
  - The class `Processor` keeps `right_accum` and `left_accum` as fields.
    Its `HandleEvent` follows the C handler statement by statement, with
    the two drain `while` loops placed in `DrainRight` and `DrainLeft`. It is
    proved to agree with `Process`: same new value, same accumulators, and
    exactly `Emissions(taps)` appended to the bus trace.
  - `Process` depends only on the configuration, the accumulators and the
    event, never on the bus's answers. So, by `HandleEvent`'s ensures, the
    accumulator bookkeeping does not depend on whether emission succeeds.

Zephyr's `INPUT_EV_REL` (0x02), `INPUT_REL_X` (0x00) and `INPUT_REL_Y` (0x01)
come from Zephyr's input headers, which are not part of this model. The proofs
only use the fact that the two axis codes differ.

With threshold 20, deadzone 2 and cap 3, the deltas 1, 3, 25, -30 fire 0, 0,
1, 1 taps. A delta of 3 passes the deadzone but only brings the right
accumulator to 3 (`Scenario`, `ScenarioOnDevice`).

## Model

| member | source | states |
|---|---|---|
| KeyEvents.EventBus.Raise | src/input_processor_trackball_to_key.c:32-39 | raising one keycode-state event appends it, with the bus's answer for that position, to the bus trace and returns that answer |
| KeyEvents.TapKey | src/input_processor_trackball_to_key.c:29-58 | a tap raises a press, then a release only if the press was accepted; it returns the answer to the last event it raised |
| KeyEvents.EmissionsPressedKeys | src/input_processor_trackball_to_key.c:40-57 | whatever the bus answers, the press events of a run of taps are exactly the taps' keycodes, in order: one press per tap, none skipped or repeated |
| KeyEvents.EmissionsWellPaired | src/input_processor_trackball_to_key.c:40-57 | whatever the bus answers, every accepted press is immediately followed by the release of the same key, and every release immediately follows an accepted press of the same key; a refused press has no release |
| KeyEvents.EmissionsAnswers | src/input_processor_trackball_to_key.c:32-52 | each raised event is for one of the tapped keycodes and carries the bus's answer for its position |
| KeyEvents.EmissionsLength | src/input_processor_trackball_to_key.c:29-58 | a run of n taps raises between n and 2n events |
| TrackballToKey.Drain | src/input_processor_trackball_to_key.c:95-100 | draining a non-negative accumulator never leaves it negative |
| TrackballToKey.DrainBounds | src/input_processor_trackball_to_key.c:96-99 | the drain fires at most `room` times (the loop runs at most `max_per_event` times), not at all when `room` is not positive, and if it stops before the cap, less than `threshold` remains |
| TrackballToKey.DrainFires | src/input_processor_trackball_to_key.c:95-100 | the drain fires exactly `min(accum / threshold, room)` times |
| TrackballToKey.DrainRest | src/input_processor_trackball_to_key.c:98-99 | each firing takes exactly `threshold` away: remainder = accum - fires * threshold, whether or not the tap succeeded |
| TrackballToKey.Process | src/input_processor_trackball_to_key.c:60-117 | one call keeps the invariant that both accumulators are non-negative and at most one is non-zero; only an X event past the deadzone changes the accumulators or taps; every tap uses the keycode of the event's direction |
| TrackballToKey.TapsCapped | src/input_processor_trackball_to_key.c:96-111 | no event fires more than `max_per_event` taps, whatever the configuration, and none when the cap is not positive |
| TrackballToKey.PassThrough | src/input_processor_trackball_to_key.c:67-80 | a non-relative event, or a relative event on neither X nor Y, keeps its value and changes no accumulator and fires no tap |
| TrackballToKey.RelYSuppressed | src/input_processor_trackball_to_key.c:71-75 | a relative-Y event always gets value 0, with no accumulator change and no tap, whatever its value or the configuration |
| TrackballToKey.DeadzoneInclusive | src/input_processor_trackball_to_key.c:84-88 | an X event is zeroed with no state change and no tap if and only if `abs(dx) <= deadzone`; a zero delta always is |
| TrackballToKey.DirectionReset | src/input_processor_trackball_to_key.c:90-115 | whatever the configuration, an X event past the deadzone leaves the opposite accumulator at 0, gives the same result as if that accumulator had been 0 beforehand (reset before adding), and leaves the event's value at 0 |
| TrackballToKey.DrainFormula | src/input_processor_trackball_to_key.c:90-111 | with A = active accumulator plus `abs(dx)`: exactly `min(A / threshold, max_per_event)` taps of that direction's key fire, the accumulator becomes A minus taps times threshold, the other becomes 0, and the remainder is below `threshold` unless the cap was hit |
| TrackballToKey.FiringCountFromIdle | src/input_processor_trackball_to_key.c:90-100 | from zero accumulators, a delta of k * threshold + r fires `min(k, max_per_event)` taps and leaves r + (k - min(k, max_per_event)) * threshold |
| TrackballToKey.CarryOver | src/input_processor_trackball_to_key.c:93-100 | with threshold 10 and a cap of 1, a delta of 25 fires once and carries 15; a further 5 fires once more and leaves 10, so the excess over the cap is kept |
| TrackballToKey.RunKeepsInv | src/input_processor_trackball_to_key.c:90-111 | over any sequence of events, the accumulators stay non-negative and at most one is non-zero after every call |
| TrackballToKey.Scenario | src/input_processor_trackball_to_key.c:85-115 | threshold 20, deadzone 2, cap 3, X deltas 1, 3, 25, -30 from idle: taps 0, 0, 1, 1 and final accumulators right 0, left 10 |
| TrackballToKey.Processor.constructor | src/input_processor_trackball_to_key.c:128-135 | an instance starts with both accumulators zero and a valid configuration |
| TrackballToKey.Processor.HandleEvent | src/input_processor_trackball_to_key.c:60-117 | the imperative handler returns 0, gives the event the value `Process` gives it, sets the accumulators to those of `Process`, appends exactly the taps of `Process` (in `Emissions` form) to the bus trace, and keeps the instance invariant |
| TrackballToKey.Processor.DrainRight | src/input_processor_trackball_to_key.c:90-100 | clearing the left accumulator, adding dx to the right one and running the drain loop leaves `Drain`'s remainder on the right and raises `Drain`'s number of right-key taps |
| TrackballToKey.Processor.DrainLeft | src/input_processor_trackball_to_key.c:101-111 | the same for motion to the left, with `-dx` added to the left accumulator and taps of the left key |
| TrackballToKey.ScenarioOnDevice | src/input_processor_trackball_to_key.c:60-117 | running the worked example on a processor instance whose bus accepts everything gives values 0, 0, 0, 0, raises press and release of the right key and then of the left key, and leaves right 0, left 10 |

## Left out

- Device registration and instantiation (`DEVICE_DT_INST_DEFINE`, `DT_INST_FOREACH_STATUS_OKAY`, the driver API struct, `trackball_to_key_init`, lines 119-141) are build-time plumbing. The constructor stands for the zero-initialised `data_##n` with its configuration.
- Timestamps from `k_uptime_get` and the `LOG_ERR` reports are clock and logging side effects that do not affect control flow. The constant usage page (0x07) and the zero modifiers of each keycode event are not recorded in the trace.
- The bus itself (`raise_zmk_keycode_state_changed`) is foreign code. It is modelled as a fixed sequence of answers, `respond`, chosen by the caller.
- `dev` is the `Processor` instance; the unused `param1`, `param2` and `state` are not modelled. The event is mutated in place in the source; in the model the handler returns the new value, and the event's type and code never change.
- TrackballToKey.Process: integers are unbounded, so C `int` overflow of `right_accum += dx` and `left_accum += (-dx)`, and `abs(INT_MIN)`, are not modelled.
- TrackballToKey.Processor.HandleEvent: the same unbounded integers apply. The invariant `Valid()` assumes the devicetree provides `threshold > 0`, `max_per_event >= 1` and `deadzone >= 0`, which the code never checks.
- Concurrency and reentrancy: the host calls the handler sequentially and the source has no locking.
