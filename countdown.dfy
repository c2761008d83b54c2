/**
  The countdown: remaining seconds start at 180 and drop by one on each timer
  event, but only while the component is armed, that is while the
  `finalMessage` prop is true and time remains.

  The one-second interval, its cleanup and the effect's re-run are not
  modelled as real time: each firing of the interval is one discrete event,
  carrying the value of `finalMessage` at that moment. An event while the
  countdown is not armed changes nothing (the source has no interval then).
*/
module Countdown {

  /** Initial value of `time`. */
  const Start: int := 180

  /** The effect's gate: it schedules ticks unless `!finalMessage || time <= 0`. */
  predicate Armed(finalMessage: bool, time: int) {
    finalMessage && time > 0
  }

  /** One timer event: `setTime((t) => t - 1)` when armed, nothing otherwise. */
  function Step(time: int, finalMessage: bool): (next: int)
    ensures next <= time
    ensures next == time - 1 <==> Armed(finalMessage, time)
    ensures next != time ==> Armed(finalMessage, time)
    ensures time >= 0 ==> next >= 0
  {
    if Armed(finalMessage, time) then time - 1 else time
  }

  /** The value after a series of timer events, oldest first. */
  function After(time: int, events: seq<bool>): int
    decreases |events|
  {
    if events == [] then time else After(Step(time, events[0]), events[1..])
  }

  /** The number of events that arrive while `finalMessage` is true. */
  function CountArmed(events: seq<bool>): nat
    decreases |events|
  {
    if events == [] then 0 else (if events[0] then 1 else 0) + CountArmed(events[1..])
  }

  /**
    From a non-negative start, the countdown is the start minus the number of
    events that arrived with `finalMessage` true, stopping at zero.
  */
  lemma {:induction false} AfterIsClampedSubtraction(time: int, events: seq<bool>)
    requires time >= 0
    ensures After(time, events) == if CountArmed(events) <= time then time - CountArmed(events) else 0
    decreases |events|
  {
    if events != [] {
      AfterIsClampedSubtraction(Step(time, events[0]), events[1..]);
    }
  }

  /** The countdown never goes negative and never increases. */
  lemma {:induction false} AfterStaysInRange(time: int, events: seq<bool>)
    requires time >= 0
    ensures 0 <= After(time, events) <= time
  {
    AfterIsClampedSubtraction(time, events);
  }

  /** Events that arrive while `finalMessage` is false have no effect. */
  lemma {:induction false} DisarmedEventsAreIgnored(time: int, events: seq<bool>)
    requires forall i :: 0 <= i < |events| ==> !events[i]
    ensures After(time, events) == time
    decreases |events|
  {
    if events != [] {
      DisarmedEventsAreIgnored(time, events[1..]);
    }
  }

  /** Once at zero, the countdown stays at zero. */
  lemma {:induction false} ZeroIsFinal(events: seq<bool>)
    ensures After(0, events) == 0
    decreases |events|
  {
    if events != [] {
      ZeroIsFinal(events[1..]);
    }
  }

  /** Three armed seconds from the start leave 177. */
  lemma ThreeSecondsFromStart()
    ensures After(Start, [true, true, true]) == 177
  {
  }
}
