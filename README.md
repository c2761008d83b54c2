# CallToAction widget: countdown, tracking dispatch and selections

This project models the logic of the `CallToAction` React component
(`src/components/CallToActiondq2.jsx`). The component is a "call now" panel
with three pieces of behaviour:

- **Countdown.** `time` starts at 180 seconds. While the `finalMessage` prop
  is true and time remains, it drops by one second per timer tick. It is
  displayed as `m:ss` by `formatTime`.
- **Tracking dispatch.** `fireTracking` probes four optional globals of the
  host page in a fixed order: `raTag` (tried under two calling conventions),
  `nbpix`, `gtag` and `dataLayer`. Each call has its own `try`, and a local
  `anyFired` flag records whether any call returned. The function then sets
  the `sendStatus`, `firedAt` and `badgeVisible` state. An auto-hide timeout
  clears `badgeVisible` later.
- **Selections.** `switchNumber` picks the `tel:` link and its label.
  `sendStatus` picks the chip classes, the button ring and the countdown
  colour.

Modules, one per concern:

- `Wrappers` (`wrappers.dfy`): the `Option` type.
- `TimeFormat` (`time_format.dfy`): `formatTime` with JavaScript's
  arithmetic written out. `Math.floor(s / 60)` is Dafny's `/`, because
  Euclidean division by a positive divisor is floor division. JavaScript's
  truncating `%` is `JsRemainder`. `ParseTime` reads `FormatTime(s)` back for
  every `s >= 0`; it is not a full inverse, since it also accepts texts such
  as `02:05` that `FormatTime` never produces.
- `Countdown` (`countdown.dfy`): the effect's gate (`Armed`), one tick
  (`Step`), and a series of ticks (`After`). Each firing of the interval is
  one discrete event carrying the value `finalMessage` has at that moment.
- `Selection` (`selection.dfy`): `hrefNumber`, `labelNumber`,
  `chipClasses`, `buttonOutline` and the countdown colour.
- `Tracking` (`tracking.dfy`): the page's globals, and `Dispatch`, the
  specification of `fireTracking`. `Dispatch` is a fold over the four
  guarded blocks that records every call attempted, every call completed,
  and whether an exception escaped to the outer `catch`. The lemmas beside
  it state the dispatch properties directly over the host page.
- `Widget` (`widget.dfy`): the component's state as the class
  `CallToAction`, with methods `Tick`, `FireTracking` and `HideBadge`.
  `FireTracking` works step by step, like the source: one method per
  guarded block, in source order. It is proved to follow `Dispatch`.

How the page's globals are modelled:

- `Hook = NotAFunction | Function(respond) | LookupThrows`. `NotAFunction` is
  a global that is absent or not a function. `respond` says whether a call
  with given arguments returns or throws. `LookupThrows` is a property whose
  getter throws.
- The guards (`typeof window.x === "function"`, `Array.isArray(...)`) run
  outside the inner `try` blocks. So a guard that throws (a throwing getter,
  or `Array.isArray` on a revoked Proxy) is the one way an exception reaches
  the outer `catch` and makes the outcome `error`. `LookupThrows` and
  `QueueLookupThrows` stand for such a guard. The remaining blocks are then
  skipped.
- `dataLayer` is an `EventQueue` object that is appended to in place.
  Pushing onto a frozen array throws and appends nothing.

## Model

| member | source | states |
|---|---|---|
| `TimeFormat.NumberToString` | src/components/CallToActiondq2.jsx:21 | the `${n}` text of an integer: a `-` for a negative value, then the decimal digits of its magnitude; `NatToStringIsDecimal` proves the digits read back as the value |
| `TimeFormat.FormatTime` | src/components/CallToActiondq2.jsx:18-22 | `formatTime`: the floored minutes, `:`, and the truncated remainder padded with one `0` below 10; `FormatTimeLayout`, `ParseFormatTime` and `FormatTimeInjective` prove its layout, round trip and injectivity |
| `TimeFormat.JsRemainder` | src/components/CallToActiondq2.jsx:20 | JavaScript's `%`: for a non-negative dividend, the remainder is in `0..b-1` and `a == (a/b)*b + r`; for a negative dividend, it is in `-b+1..0` and `a == -((-a)/b)*b + r`, that is `a - b*trunc(a/b)` |
| `TimeFormat.NatToStringIsDecimal` | src/components/CallToActiondq2.jsx:21 | the `${n}` text of a non-negative integer is a canonical decimal string (no leading zero) whose value is `n` |
| `TimeFormat.SecondsField` | src/components/CallToActiondq2.jsx:21 | for `secs` in 0..59, the optional `"0"` pad plus `secs`'s digits is exactly two digits: tens, then units |
| `TimeFormat.FormatTimeLayout` | src/components/CallToActiondq2.jsx:18-22 | for `s >= 0`, `formatTime(s)` is the decimal `s / 60` (floored), then `:`, then two digits of `s % 60` |
| `TimeFormat.ParseFormatTime` | src/components/CallToActiondq2.jsx:18-22 | reading back minutes `m` and two-digit seconds `ss < 60` gives `m*60 + ss == s`, for every `s >= 0` |
| `TimeFormat.FormatTimeInjective` | src/components/CallToActiondq2.jsx:18-22 | two different non-negative second counts are never displayed the same |
| `TimeFormat.FormatTimeExamples` | src/components/CallToActiondq2.jsx:18-22 | 125 shows "2:05", 59 shows "0:59", 0 shows "0:00", 177 shows "2:57", 180 shows "3:00" |
| `TimeFormat.FormatNegative` | src/components/CallToActiondq2.jsx:19-21 | a negative count (never produced by the countdown) shows a negative minute and a non-two-digit seconds field: -1 shows "-1:0-1" |
| `Countdown.Armed` | src/components/CallToActiondq2.jsx:13 | the effect's gate: ticks run only while `finalMessage` is true and `time > 0`; `Step` and `DisarmedEventsAreIgnored` state its effect |
| `Countdown.After` | src/components/CallToActiondq2.jsx:12-16 | the time after a series of ticks, one `Step` per tick; `AfterIsClampedSubtraction` gives its closed form and `AfterStaysInRange` its bounds |
| `Countdown.Step` | src/components/CallToActiondq2.jsx:13-14 | one tick never increases the time and never makes a non-negative time negative; it subtracts exactly 1 if and only if `finalMessage` is true and time is positive, and otherwise changes nothing |
| `Countdown.AfterIsClampedSubtraction` | src/components/CallToActiondq2.jsx:12-16 | from a non-negative start, the time after a series of ticks is the start minus the number of armed ticks, stopping at 0 |
| `Countdown.AfterStaysInRange` | src/components/CallToActiondq2.jsx:12-16 | the countdown never goes negative and never exceeds its start |
| `Countdown.DisarmedEventsAreIgnored` | src/components/CallToActiondq2.jsx:13 | ticks while `finalMessage` is false leave the time unchanged |
| `Countdown.ZeroIsFinal` | src/components/CallToActiondq2.jsx:13 | once the time is 0 it stays 0 |
| `Countdown.ThreeSecondsFromStart` | src/components/CallToActiondq2.jsx:5-16 | three armed ticks from 180 give 177 |
| `Selection.HrefNumber` | src/components/CallToActiondq2.jsx:92 | `hrefNumber`: `tel:+13236897861` when `switchNumber` is true, `tel:+18336638513` otherwise; `DestinationsDiffer` proves the choices differ, and `LabelMismatchAsWritten` and `CorrectedLabelShowsDialledNumber` compare it with the label |
| `Selection.LabelNumber` | src/components/CallToActiondq2.jsx:93 | `labelNumber` as written: `CALL (323)-689-7861` or `CALL (833)-366-8513`; `LabelMismatchAsWritten` proves the second does not show the number its link dials |
| `Selection.ChipClasses` | src/components/CallToActiondq2.jsx:96-101 | `chipClasses`: green for `sent`, red for `error`, gray otherwise; `IndicatorsDistinguishStatus` and `ChipAndRingAgree` prove it separates the statuses and matches the ring |
| `Selection.ButtonOutline` | src/components/CallToActiondq2.jsx:103-108 | `buttonOutline`: a green ring for `sent`, a red ring for `error`, `ring-0` otherwise; proved distinct per status and matching the chip by the same two lemmas |
| `Selection.TimerColor` | src/components/CallToActiondq2.jsx:145-150 | the countdown colour: `#16a34a` for `sent`, `#dc2626` for `error`, `#ef4444` otherwise; `IndicatorsDistinguishStatus` proves the three differ |
| `Selection.LabelMismatchAsWritten` | src/components/CallToActiondq2.jsx:92-93 | as written, the `true` label shows the number its link dials, and the `false` label does not (see Findings) |
| `Selection.CorrectedLabelShowsDialledNumber` | src/components/CallToActiondq2.jsx:92-93 | with the corrected label, each choice's link is `tel:+1` plus ten digits, and the label `CALL (AAA)-EEE-LLLL` shows exactly those digits |
| `Selection.DestinationsDiffer` | src/components/CallToActiondq2.jsx:92-93 | `switchNumber` true and false select different links and different labels |
| `Selection.IndicatorsDistinguishStatus` | src/components/CallToActiondq2.jsx:96-150 | different statuses give different chip classes, different button rings and different countdown colours |
| `Selection.ChipAndRingAgree` | src/components/CallToActiondq2.jsx:96-108 | `sent` gives a green chip and a green ring; `error` gives a red chip and a red ring; `idle` gives a gray chip and `ring-0` |
| `Tracking.EventRecord` | src/components/CallToActiondq2.jsx:63 | `{ event: "call_click", ...context }`, with the context's keys winning; `EventRecordFields` proves its keys and values |
| `Tracking.Dispatch` | src/components/CallToActiondq2.jsx:25-66 | the trace of one `fireTracking` call: the four guarded blocks in order from an empty trace; `AttemptOrder`, `AnyFiredExactly`, `EscapesExactly` and `DataLayerAppend` characterise it over the host page |
| `Tracking.BlockCalls` | src/components/CallToActiondq2.jsx:35-63 | every call a block makes is on that block's own global |
| `Tracking.EventQueue.Push` | src/components/CallToActiondq2.jsx:63 | `dataLayer.push(record)` appends the record at the end and returns; on a frozen array it throws and leaves the entries unchanged |
| `Tracking.TryEachEffect` | src/components/CallToActiondq2.jsx:34-41 | a block with calls in separate `try`s attempts all of its calls in order, whatever each does; exactly the calls that return are completed |
| `Tracking.StepEffect` | src/components/CallToActiondq2.jsx:31-66 | one guarded block attempts its calls only when nothing has escaped and its guard passes; the block escapes exactly when its guard throws |
| `Tracking.RunEffect` | src/components/CallToActiondq2.jsx:29-66 | a run over blocks attempts the planned calls (independent of how calls end), completes the ones that return, and escapes if and only if some guard throws |
| `Tracking.AttemptOrder` | src/components/CallToActiondq2.jsx:31-66 | the calls attempted are the source-order schedule `raTag("event",…)`, `raTag("call_click",…)`, `nbpix`, `gtag`, `dataLayer.push`, keeping exactly the calls whose guard is reached and passes (a window exists, the global is a function, `dataLayer` is an array) |
| `Tracking.EveryHookPresent` | src/components/CallToActiondq2.jsx:31-66 | with all four globals usable, all five calls are attempted, in source order, with the source's arguments |
| `Tracking.AnswersDoNotChangeAttempts` | src/components/CallToActiondq2.jsx:34-65 | a call that throws never prevents a later attempt: pages with globals of the same kinds attempt the same calls and escape alike, whatever their functions return or throw |
| `Tracking.ThrowingRaTagExample` | src/components/CallToActiondq2.jsx:34-65 | an `raTag` that throws on every call still leaves `nbpix`, `gtag` and `dataLayer` attempted; when those return, `anyFired` is true and nothing escapes |
| `Tracking.AnyFiredExactly` | src/components/CallToActiondq2.jsx:29-66 | `anyFired` is true exactly when some attempted call, on a global whose guard passed, returned without throwing |
| `Tracking.EscapesExactly` | src/components/CallToActiondq2.jsx:26-88 | an exception reaches the outer `catch` exactly when some guard throws |
| `Tracking.NoWindowDoesNothing` | src/components/CallToActiondq2.jsx:32-61 | without a `window`, nothing is attempted, nothing fires and nothing escapes |
| `Tracking.NoHooksFireNothing` | src/components/CallToActiondq2.jsx:29-75 | with no globals defined, nothing is attempted, `anyFired` is false and nothing escapes |
| `Tracking.ContextPassedToEveryHook` | src/components/CallToActiondq2.jsx:35-63 | every hook gets the context object as its last argument; the `dataLayer` push gets the record built from it |
| `Tracking.EventRecordFields` | src/components/CallToActiondq2.jsx:63 | the pushed record has the context's keys plus `event`; `event` is the context's `event` if it has one, otherwise `"call_click"`; the other keys keep the context's values |
| `Tracking.DataLayerAppend` | src/components/CallToActiondq2.jsx:61-65 | a dispatch appends at most one record, the event record; it is appended exactly when no guard throws, `dataLayer` is an array and the array is not frozen |
| `Widget.ContextOrDefault` | src/components/CallToActiondq2.jsx:25 | the `context = {}` default: an omitted context is the empty object |
| `Widget.Outcome` | src/components/CallToActiondq2.jsx:77-84 | the `sendStatus` a dispatch ends with: `error` when an exception reached the outer `catch`, otherwise `sent`; `OutcomeIgnoresAnyFired` proves it depends only on whether a guard throws |
| `Widget.OutcomeIgnoresAnyFired` | src/components/CallToActiondq2.jsx:69-87 | the outcome is `sent` exactly when no guard throws, whatever `anyFired` is; otherwise it is `error`; it is never `idle` |
| `Widget.RaTagBlock` | src/components/CallToActiondq2.jsx:32-42 | block 1 updates `anyFired`, the calls made and the escape flag as one specification step for `raTag` |
| `Widget.NbpixBlock` | src/components/CallToActiondq2.jsx:45-50 | block 2 is one specification step for `nbpix` |
| `Widget.GtagBlock` | src/components/CallToActiondq2.jsx:53-58 | block 3 is one specification step for `gtag` |
| `Widget.DataLayerBlock` | src/components/CallToActiondq2.jsx:61-66 | block 4 is one specification step for `dataLayer`, and it changes the array exactly by the records that step completes |
| `Widget.CallToAction.constructor` | src/components/CallToActiondq2.jsx:5-10 | the initial state: time 180, status `idle`, no timestamp, badge hidden |
| `Widget.CallToAction.Display` | src/components/CallToActiondq2.jsx:155 | the countdown text reads back as the remaining seconds |
| `Widget.CallToAction.Tick` | src/components/CallToActiondq2.jsx:12-16 | a timer event changes only `time`, by one `Countdown.Step`, and keeps it within 0..180 |
| `Widget.CallToAction.HideBadge` | src/components/CallToActiondq2.jsx:81 | the auto-hide timeout hides the badge and changes nothing else |
| `Widget.CallToAction.FireTracking` | src/components/CallToActiondq2.jsx:25-89 | returns the calls and `anyFired` of `Dispatch`. Sets `sendStatus` to the outcome, `firedAt` to the entry time (`sent`) or the `catch` time (`error`), and shows the badge. Schedules the hide after 3500 ms (`sent`) or 4500 ms (`error`). Appends exactly the completed pushes to `dataLayer`. Leaves `time` alone |
| `Widget.ThreeArmedSeconds` | src/components/CallToActiondq2.jsx:5-22 | after mounting and three armed ticks, the countdown shows "2:57" |
| `Widget.NoHooksDispatch` | src/components/CallToActiondq2.jsx:69-81 | with no globals defined: nothing is called, `anyFired` stays false, the status is `sent`, and the badge is visible until the auto-hide fires |

## Left out

- Markup, `framer-motion` animation props and static Tailwind strings (lines
  110-158): presentation with no behaviour beyond the class and colour
  selections modelled in `Selection`.
- Real time: the 1000 ms `setInterval`, effect cleanup and re-run, and the
  3500/4500 ms `setTimeout`s. Ticks and the auto-hide are discrete events
  (`Tick`, `HideBadge`), and the delay is returned as a number.
  `HideBadge` may fire at any time. This captures that a pending auto-hide
  from an earlier click can hide the badge of a later one, because the
  source cancels neither timer.
- `new Date().toLocaleTimeString()` (lines 27-28, 85): locale-dependent
  clock access. The two timestamps are opaque string inputs (`now`,
  `later`), and the clock is assumed never to throw.
- `console.log` and `console.error` (lines 74, 83): I/O only. `console.log`
  is assumed never to throw, so reaching line 74 never changes the outcome.
- The foreign functions `raTag`, `nbpix` and `gtag`: each is modelled only
  by whether a call with given arguments returns or throws. That answer is
  deterministic. The model assumes these functions do not redefine other
  globals, do not touch `dataLayer`, and that each global reads the same on
  every access during one dispatch. It also assumes they do not mutate the
  shared `context` object: the same object is passed to every hook and is
  spread into the pushed record at line 63 after the earlier calls, so a
  hook that mutated it would change the record that `EventRecordFields` and
  `DataLayerAppend` describe.
- `dataLayer.push` replaced by a custom function (as tag managers do) that
  could append and then throw: the model's array either appends and returns
  or, frozen, throws without appending.
- Property order of the pushed record: objects are maps, so the key order
  `{event, ...context}` produces is not modelled. Only which value wins.
- `FormatTime`: only integer inputs are modelled. Fractional and non-finite
  numbers cannot occur, since `time` starts at 180 and changes by whole
  units. Integers are unbounded here; JavaScript numbers are exact only up to
  2^53, which the 0..180 countdown never approaches.
- `fireTracking` is not called anywhere in the component's markup, and
  `hrefNumber`, `labelNumber`, the chip classes and the ring classes are
  computed but never rendered (the markup at lines 110-158 has no link).
  They are modelled as the source defines them anyway.
- The second, near-duplicate component variant, which reports "no hook
  fired" differently, is not part of this model. Only
  `CallToActiondq2.jsx` is: it shows `sent` whether or not a hook fired.

## Findings

| source | as written | input that shows it | evidently intended | confidence | as-written member | corrected member |
|---|---|---|---|---|---|---|
| src/components/CallToActiondq2.jsx:92-93 | for `switchNumber = false` the link is `tel:+18336638513` (833-663-8513) but the label reads `CALL (833)-366-8513`: the middle three digits are transposed | `switchNumber = false` | the label shows the number the link dials, as the `true` pair does; which of the two numbers is the real one cannot be told from this file, and the correction keeps the dialled number | high that they disagree, not executed; this file computes the label but never displays it | `Selection.LabelMismatchAsWritten` | `Selection.CorrectedLabelShowsDialledNumber` |
