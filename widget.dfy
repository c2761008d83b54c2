/**
  The `CallToAction` component's state and the handlers that change it.

  The component keeps four pieces of React state: `time`, `sendStatus`,
  `firedAt` and `badgeVisible`. Here they are the fields of one object. Each
  `setX` call is an assignment, and each timer callback is a method the
  environment calls as a discrete event. The props `finalMessage` and
  `switchNumber` are parameters; the selections that depend on them are in
  module Selection.
*/
module Widget {
  import opened Wrappers
  import TimeFormat
  import Countdown
  import opened Selection
  import opened Tracking

  /** Auto-hide delay after a `sent` outcome, in milliseconds (line 81). */
  const SentHideDelay: nat := 3500

  /** Auto-hide delay after an `error` outcome, in milliseconds (line 87). */
  const ErrorHideDelay: nat := 4500

  /** `fireTracking(context = {})`: an omitted context is the empty object. */
  function ContextOrDefault(context: Option<Fields>): Fields {
    if context.Some? then context.value else map[]
  }

  /** The `dataLayer` array a dispatch may push onto, if the page has one. */
  function QueuesOf(host: Host): set<object> {
    if host.Window? && host.dataLayer.AnArray? then {host.dataLayer.queue} else {}
  }

  /** The `sendStatus` a dispatch ends with, lines 77 and 84. */
  function Outcome(host: Host, context: Fields): Status {
    if Dispatch(host, context).escaped then Error else Sent
  }

  /**
    A dispatch reports `sent` exactly when no guard throws, whether or not any
    hook fired; it never leaves the status `idle`.
  */
  lemma OutcomeIgnoresAnyFired(host: Host, context: Fields)
    ensures Outcome(host, context) == Sent <==> !SomeGuardThrows(host)
    ensures Outcome(host, context) != Idle
  {
    EscapesExactly(host, context);
  }

  /**
    The locals of `fireTracking` (`attempted` stands for the calls made so
    far, `escaped` for an exception on its way to the outer `catch`) agree
    with the trace `t` of the specification.
  */
  ghost predicate Mirrors(attempted: seq<Call>, anyFired: bool, escaped: bool, t: Trace) {
    attempted == t.attempted && anyFired == (t.completed != []) && escaped == t.escaped
  }

  /** Block 1 of `fireTracking`, lines 32-42: `raTag` under both calling conventions. */
  method RaTagBlock(host: Host, ctx: Fields, attempted: seq<Call>, anyFired: bool, escaped: bool, ghost t: Trace)
    returns (attempted': seq<Call>, anyFired': bool, escaped': bool)
    requires Mirrors(attempted, anyFired, escaped, t)
    ensures Mirrors(attempted', anyFired', escaped', Step(host, ctx, RaTag, t))
  {
    attempted', anyFired', escaped' := attempted, anyFired, escaped;
    StepEffect(host, ctx, RaTag, t);
    ghost var calls := BlockCalls(RaTag, ctx);
    SucceededCons(host, calls);
    SucceededCons(host, calls[1..]);
    assert calls[1..][1..] == [];
    if !escaped && host.Window? {
      match host.raTag
      case LookupThrows =>
        escaped' := true;
      case NotAFunction =>
      case Function(raTag) =>
        var call := Call(RaTag, [Word("event"), Word("call_click"), Object(ctx)]);
        attempted' := attempted' + [call];
        var outcome := raTag(call.args);
        if outcome == Returns {
          anyFired' := true;
        }
        call := Call(RaTag, [Word("call_click"), Object(ctx)]);
        attempted' := attempted' + [call];
        outcome := raTag(call.args);
        if outcome == Returns {
          anyFired' := true;
        }
    }
  }

  /** Block 2, lines 45-50: `nbpix`. */
  method NbpixBlock(host: Host, ctx: Fields, attempted: seq<Call>, anyFired: bool, escaped: bool, ghost t: Trace)
    returns (attempted': seq<Call>, anyFired': bool, escaped': bool)
    requires Mirrors(attempted, anyFired, escaped, t)
    ensures Mirrors(attempted', anyFired', escaped', Step(host, ctx, Nbpix, t))
  {
    attempted', anyFired', escaped' := attempted, anyFired, escaped;
    StepEffect(host, ctx, Nbpix, t);
    if !escaped && host.Window? {
      match host.nbpix
      case LookupThrows =>
        escaped' := true;
      case NotAFunction =>
      case Function(nbpix) =>
        var call := Call(Nbpix, [Word("event"), Word("raw_call"), Object(ctx)]);
        attempted' := attempted' + [call];
        var outcome := nbpix(call.args);
        if outcome == Returns {
          anyFired' := true;
        }
    }
  }

  /** Block 3, lines 53-58: `gtag`. */
  method GtagBlock(host: Host, ctx: Fields, attempted: seq<Call>, anyFired: bool, escaped: bool, ghost t: Trace)
    returns (attempted': seq<Call>, anyFired': bool, escaped': bool)
    requires Mirrors(attempted, anyFired, escaped, t)
    ensures Mirrors(attempted', anyFired', escaped', Step(host, ctx, Gtag, t))
  {
    attempted', anyFired', escaped' := attempted, anyFired, escaped;
    StepEffect(host, ctx, Gtag, t);
    if !escaped && host.Window? {
      match host.gtag
      case LookupThrows =>
        escaped' := true;
      case NotAFunction =>
      case Function(gtag) =>
        var call := Call(Gtag, [Word("event"), Word("call_click"), Object(ctx)]);
        attempted' := attempted' + [call];
        var outcome := gtag(call.args);
        if outcome == Returns {
          anyFired' := true;
        }
    }
  }

  /** Block 4, lines 61-66: push the event record when `dataLayer` is an array. */
  method DataLayerBlock(host: Host, ctx: Fields, attempted: seq<Call>, anyFired: bool, escaped: bool, ghost t: Trace)
    returns (attempted': seq<Call>, anyFired': bool, escaped': bool)
    requires Mirrors(attempted, anyFired, escaped, t)
    requires Appended(t.completed) == []
    modifies QueuesOf(host)
    ensures Mirrors(attempted', anyFired', escaped', Step(host, ctx, DataLayer, t))
    ensures host.Window? && host.dataLayer.AnArray? ==>
      host.dataLayer.queue.entries ==
        old(host.dataLayer.queue.entries) + Appended(Step(host, ctx, DataLayer, t).completed)
  {
    attempted', anyFired', escaped' := attempted, anyFired, escaped;
    StepEffect(host, ctx, DataLayer, t);
    if host.Window? && host.dataLayer.AnArray? && !t.escaped {
      StepAppendsRecord(host, ctx, t);
    }
    if !escaped && host.Window? {
      match host.dataLayer
      case QueueLookupThrows =>
        escaped' := true;
      case NotAnArray =>
      case AnArray(queue) =>
        var record := EventRecord(ctx);
        var call := Call(DataLayer, [Object(record)]);
        attempted' := attempted' + [call];
        var outcome := queue.Push(record);
        if outcome == Returns {
          anyFired' := true;
        }
    }
  }

  class CallToAction {
    var time: int
    var sendStatus: Status
    var firedAt: Option<string>
    var badgeVisible: bool

    /** The countdown stays between 0 and its start value. */
    ghost predicate Valid()
      reads this
    {
      0 <= time <= Countdown.Start
    }

    /** The initial state, lines 5 and 8-10. */
    constructor ()
      ensures Valid()
      ensures time == Countdown.Start && sendStatus == Idle && firedAt == None && !badgeVisible
    {
      time := Countdown.Start;
      sendStatus := Idle;
      firedAt := None;
      badgeVisible := false;
    }

    /** The countdown text (line 155); it reads back as the remaining seconds. */
    function Display(): (text: string)
      reads this
      requires Valid()
      ensures TimeFormat.ParseTime(text) == Some(time)
    {
      TimeFormat.ParseFormatTime(time);
      TimeFormat.FormatTime(time)
    }

    /**
      One firing of the countdown interval, lines 12-16: one second less while
      `finalMessage` is true and time remains; otherwise nothing.
    */
    method Tick(finalMessage: bool)
      requires Valid()
      modifies this
      ensures Valid()
      ensures time == Countdown.Step(old(time), finalMessage)
      ensures sendStatus == old(sendStatus) && firedAt == old(firedAt) && badgeVisible == old(badgeVisible)
    {
      if finalMessage && time > 0 {
        time := time - 1;
      }
    }

    /** An auto-hide timeout firing, lines 81 and 87. */
    method HideBadge()
      modifies this
      ensures !badgeVisible
      ensures time == old(time) && sendStatus == old(sendStatus) && firedAt == old(firedAt)
    {
      badgeVisible := false;
    }

    /**
      `fireTracking`, lines 25-89. Returns the calls made into the page's
      globals in order, the final value of the local `anyFired`, and the delay
      of the auto-hide timeout it schedules. `now` is the time string taken
      on entry (line 28); `later` is the one taken in the `catch` (line 85).
    */
    method FireTracking(host: Host, context: Option<Fields>, now: string, later: string)
      returns (attempted: seq<Call>, anyFired: bool, hideAfter: nat)
      requires Valid()
      modifies this, QueuesOf(host)
      ensures Valid() && time == old(time)
      ensures var d := Dispatch(host, ContextOrDefault(context));
        attempted == d.attempted &&
        anyFired == AnyFired(host, ContextOrDefault(context)) &&
        sendStatus == Outcome(host, ContextOrDefault(context)) &&
        firedAt == Some(if d.escaped then later else now) &&
        badgeVisible &&
        hideAfter == (if d.escaped then ErrorHideDelay else SentHideDelay)
      ensures host.Window? && host.dataLayer.AnArray? ==>
        host.dataLayer.queue.entries ==
          old(host.dataLayer.queue.entries) + Appended(Dispatch(host, ContextOrDefault(context)).completed)
    {
      var ctx := ContextOrDefault(context);
      var ts := now;
      var escaped := false;
      ghost var t := Trace([], [], false);
      ghost var run := Dispatch(host, ctx);
      assert run == Run(host, ctx, Order[0..], t);
      RunUnfold(host, ctx, 0, t);
      RunUnfold(host, ctx, 1, Step(host, ctx, RaTag, t));

      // 1) raTag
      attempted, anyFired, escaped := RaTagBlock(host, ctx, [], false, escaped, t);
      StepAppendsNothing(host, ctx, RaTag, t);
      t := Step(host, ctx, RaTag, t);
      // 2) nbpix
      attempted, anyFired, escaped := NbpixBlock(host, ctx, attempted, anyFired, escaped, t);
      RunUnfold(host, ctx, 2, Step(host, ctx, Nbpix, t));
      StepAppendsNothing(host, ctx, Nbpix, t);
      t := Step(host, ctx, Nbpix, t);
      // 3) gtag
      attempted, anyFired, escaped := GtagBlock(host, ctx, attempted, anyFired, escaped, t);
      RunUnfold(host, ctx, 3, Step(host, ctx, Gtag, t));
      StepAppendsNothing(host, ctx, Gtag, t);
      t := Step(host, ctx, Gtag, t);
      assert Appended(t.completed) == [];
      // 4) dataLayer
      attempted, anyFired, escaped := DataLayerBlock(host, ctx, attempted, anyFired, escaped, t);
      t := Step(host, ctx, DataLayer, t);
      assert Order[4..] == [];
      assert run == t;

      // 5) console.log("[raTag debug] call_click", context) when !anyFired: not modelled
      if !escaped {
        sendStatus := Sent;
        firedAt := Some(ts);
        badgeVisible := true;
        hideAfter := SentHideDelay;
      } else {
        sendStatus := Error;
        firedAt := Some(later);
        badgeVisible := true;
        hideAfter := ErrorHideDelay;
      }
    }
  }

  /** Three armed seconds from mounting: the countdown shows "2:57". */
  method ThreeArmedSeconds() returns (text: string)
    ensures text == "2:57"
  {
    var widget := new CallToAction();
    widget.Tick(true);
    widget.Tick(true);
    widget.Tick(true);
    text := widget.Display();
    TimeFormat.FormatTimeExamples();
  }

  /**
    A window with none of the globals: nothing is called, `anyFired` stays
    false, the chip shows `sent` and is visible until the auto-hide fires.
  */
  method NoHooksDispatch() returns (attempted: seq<Call>, anyFired: bool, shownBefore: bool, shownAfter: bool, status: Status)
    ensures attempted == [] && !anyFired
    ensures status == Sent && shownBefore && !shownAfter
  {
    var widget := new CallToAction();
    var host := Window(NotAFunction, NotAFunction, NotAFunction, NotAnArray);
    var hideAfter;
    NoHooksFireNothing(map[]);
    attempted, anyFired, hideAfter := widget.FireTracking(host, None, "10:00:00 AM", "10:00:00 AM");
    shownBefore, status := widget.badgeVisible, widget.sendStatus;
    widget.HideBadge();
    shownAfter := widget.badgeVisible;
  }
}
