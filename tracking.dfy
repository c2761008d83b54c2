/**
  What `fireTracking` does with the host page's optional tracking globals.

  Four globals are probed in a fixed order: `raTag` (called under two calling
  conventions), `nbpix`, `gtag`, and `dataLayer` (pushed onto when it is an
  array). Each call sits in its own `try`, so a call that throws is ignored.
  The guard in front of a block (`typeof window.x === "function"`,
  `Array.isArray(window.dataLayer)`) is outside those inner `try`s: a guard
  that throws (a getter that throws, or `Array.isArray` on a revoked Proxy)
  abandons the remaining blocks, and that exception is what reaches the outer
  `catch`.

  The foreign functions are opaque: each is a deterministic answer, `Returns`
  or `Throws`, to the arguments it is given. They are assumed not to change
  the window or each other (see README).

  `Dispatch` is the specification: a fold over the four blocks, recording the
  calls attempted, the calls that completed, and whether an exception escaped.
  `Widget.CallToAction.FireTracking` is the step-by-step procedure proved to
  follow it.
*/
module Tracking {

  /** A value inside a context or a `dataLayer` record. */
  datatype Value = Text(s: string) | Flag(b: bool) | Number(n: int)

  /** A plain JavaScript object: the context, and a `dataLayer` record. */
  type Fields = map<string, Value>

  /** An argument passed to a hook: a string or an object. */
  datatype Arg = Word(w: string) | Object(fields: Fields)

  /** How one foreign call ends. */
  datatype Behaviour = Returns | Throws

  /** The four globals, named after `window.raTag` and the rest. */
  datatype Global = RaTag | Nbpix | Gtag | DataLayer

  /** One invocation of a global, with its arguments. */
  datatype Call = Call(target: Global, args: seq<Arg>)

  /**
    `window.raTag`, `window.nbpix` or `window.gtag` as the guard sees it: not a
    function (absent or something else), a function, or a property whose
    getter throws.
  */
  datatype Hook = NotAFunction | Function(respond: seq<Arg> -> Behaviour) | LookupThrows

  /**
    The `window.dataLayer` array. Pushing onto a frozen array throws and
    appends nothing; otherwise the record is appended at the end.
  */
  class EventQueue {
    var entries: seq<Fields>
    const frozen: bool

    constructor (initial: seq<Fields>, isFrozen: bool)
      ensures entries == initial && frozen == isFrozen
    {
      entries := initial;
      frozen := isFrozen;
    }

    /** `dataLayer.push(record)`. */
    method Push(record: Fields) returns (outcome: Behaviour)
      modifies this
      ensures outcome == (if frozen then Throws else Returns)
      ensures entries == if frozen then old(entries) else old(entries) + [record]
    {
      if frozen {
        outcome := Throws;
      } else {
        entries := entries + [record];
        outcome := Returns;
      }
    }
  }

  /**
    `window.dataLayer` as the guard of line 61 sees it: not an array, an array,
    or a guard that throws (a getter that throws, or `Array.isArray` on a
    revoked Proxy).
  */
  datatype QueueSlot = NotAnArray | AnArray(queue: EventQueue) | QueueLookupThrows

  /** The page: no `window` at all (`typeof window === "undefined"`), or a window. */
  datatype Host =
    | NoWindow
    | Window(raTag: Hook, nbpix: Hook, gtag: Hook, dataLayer: QueueSlot)

  /** The result of one block's guard. */
  datatype Probe = Skip | Invoke(respond: seq<Arg> -> Behaviour) | Escape

  function HookProbe(hook: Hook): Probe {
    match hook
    case NotAFunction => Skip
    case Function(respond) => Invoke(respond)
    case LookupThrows => Escape
  }

  /** The guard of the block for `g`, lines 32, 45, 53 and 61. */
  function ProbeOf(host: Host, g: Global): Probe {
    match host
    case NoWindow => Skip
    case Window(raTag, nbpix, gtag, dataLayer) =>
      match g
      case RaTag => HookProbe(raTag)
      case Nbpix => HookProbe(nbpix)
      case Gtag => HookProbe(gtag)
      case DataLayer =>
        match dataLayer
        case NotAnArray => Skip
        case AnArray(queue) => Invoke(_ => if queue.frozen then Throws else Returns)
        case QueueLookupThrows => Escape
  }

  /** The order of the blocks in `fireTracking`. */
  const Order: seq<Global> := [RaTag, Nbpix, Gtag, DataLayer]

  function Position(g: Global): (i: nat)
    ensures i < |Order| && Order[i] == g
  {
    match g
    case RaTag => 0
    case Nbpix => 1
    case Gtag => 2
    case DataLayer => 3
  }

  /** `{ event: "call_click", ...context }`: a context key overrides the tag. */
  function EventRecord(context: Fields): Fields {
    map["event" := Text("call_click")] + context
  }

  /** The calls a block makes once its guard has passed, lines 35, 39, 47, 55 and 63. */
  function BlockCalls(g: Global, context: Fields): (calls: seq<Call>)
    ensures forall i :: 0 <= i < |calls| ==> calls[i].target == g
  {
    match g
    case RaTag =>
      [Call(RaTag, [Word("event"), Word("call_click"), Object(context)]),
       Call(RaTag, [Word("call_click"), Object(context)])]
    case Nbpix => [Call(Nbpix, [Word("event"), Word("raw_call"), Object(context)])]
    case Gtag => [Call(Gtag, [Word("event"), Word("call_click"), Object(context)])]
    case DataLayer => [Call(DataLayer, [Object(EventRecord(context))])]
  }

  /** Every call `fireTracking` can make, in source order. */
  function Schedule(context: Fields): seq<Call> {
    BlockCalls(RaTag, context) + BlockCalls(Nbpix, context) +
    BlockCalls(Gtag, context) + BlockCalls(DataLayer, context)
  }

  /** What a dispatch has done so far. */
  datatype Trace = Trace(attempted: seq<Call>, completed: seq<Call>, escaped: bool)

  /** The calls of one block, each in its own `try`. */
  function TryEach(respond: seq<Arg> -> Behaviour, calls: seq<Call>, t: Trace): Trace
    decreases |calls|
  {
    if calls == [] then t
    else
      var c := calls[0];
      var done := if respond(c.args) == Returns then t.completed + [c] else t.completed;
      TryEach(respond, calls[1..], Trace(t.attempted + [c], done, t.escaped))
  }

  /**
    One block: nothing once an exception has escaped; otherwise the guard,
    then, if it passes, the block's calls.
  */
  function Step(host: Host, context: Fields, g: Global, t: Trace): Trace {
    if t.escaped then t
    else
      match ProbeOf(host, g)
      case Skip => t
      case Escape => t.(escaped := true)
      case Invoke(respond) => TryEach(respond, BlockCalls(g, context), t)
  }

  /** The blocks of `blocks`, in order. */
  function Run(host: Host, context: Fields, blocks: seq<Global>, t: Trace): Trace
    decreases |blocks|
  {
    if blocks == [] then t else Run(host, context, blocks[1..], Step(host, context, blocks[0], t))
  }

  /** The trace of a whole `fireTracking` call. */
  function Dispatch(host: Host, context: Fields): Trace {
    Run(host, context, Order, Trace([], [], false))
  }

  /** The source's local `anyFired` at the end of the inner blocks. */
  predicate AnyFired(host: Host, context: Fields) {
    Dispatch(host, context).completed != []
  }

  /** The records that completed pushes append to `dataLayer`, in order. */
  function Appended(calls: seq<Call>): seq<Fields>
    decreases |calls|
  {
    if calls == [] then []
    else
      (if calls[0].target == DataLayer && |calls[0].args| == 1 && calls[0].args[0].Object?
       then [calls[0].args[0].fields] else []) + Appended(calls[1..])
  }

  // ---------------------------------------------------------------------
  // Reference description: which calls are attempted, and how they end,
  // stated directly over the host.

  /** No guard before `g`'s throws, so `g`'s guard is evaluated. */
  predicate Reaches(host: Host, g: Global) {
    forall j :: 0 <= j < Position(g) ==> !ProbeOf(host, Order[j]).Escape?
  }

  /** `g`'s guard is evaluated and passes. */
  predicate Attempts(host: Host, g: Global) {
    Reaches(host, g) && ProbeOf(host, g).Invoke?
  }

  /** Some guard throws. */
  predicate SomeGuardThrows(host: Host) {
    Escapes(host, Order)
  }

  /** How the page answers a call; `Throws` for a global that is not callable. */
  function Answer(host: Host, c: Call): Behaviour {
    match ProbeOf(host, c.target)
    case Invoke(respond) => respond(c.args)
    case Skip => Throws
    case Escape => Throws
  }

  /** The calls of `cs` that satisfy `keep`, in order. */
  function Filter(keep: Call -> bool, cs: seq<Call>): (r: seq<Call>)
    ensures |r| <= |cs|
    decreases |cs|
  {
    if cs == [] then []
    else (if keep(cs[0]) then [cs[0]] else []) + Filter(keep, cs[1..])
  }

  function IsAttempted(host: Host): Call -> bool {
    (c: Call) => Attempts(host, c.target)
  }

  function IsAnsweredReturns(host: Host): Call -> bool {
    (c: Call) => Answer(host, c) == Returns
  }

  /** The calls of `cs` whose global is attempted, in order. */
  function Kept(host: Host, cs: seq<Call>): seq<Call> {
    Filter(IsAttempted(host), cs)
  }

  /** The calls of `cs` the page answers with `Returns`, in order. */
  function Succeeded(host: Host, cs: seq<Call>): seq<Call> {
    Filter(IsAnsweredReturns(host), cs)
  }

  /** The calls a run over `blocks` attempts, ignoring how they end. */
  function Planned(host: Host, context: Fields, blocks: seq<Global>): seq<Call>
    decreases |blocks|
  {
    if blocks == [] then []
    else
      match ProbeOf(host, blocks[0])
      case Skip => Planned(host, context, blocks[1..])
      case Escape => []
      case Invoke(_) => BlockCalls(blocks[0], context) + Planned(host, context, blocks[1..])
  }

  predicate Escapes(host: Host, blocks: seq<Global>) {
    exists j :: 0 <= j < |blocks| && ProbeOf(host, blocks[j]).Escape?
  }

  // ---------------------------------------------------------------------
  // Lemmas

  lemma {:induction false} FilterConcat(keep: Call -> bool, a: seq<Call>, b: seq<Call>)
    ensures Filter(keep, a + b) == Filter(keep, a) + Filter(keep, b)
    decreases |a|
  {
    if a == [] {
      assert a + b == b;
    } else {
      var head := if keep(a[0]) then [a[0]] else [];
      var rest := a[1..] + b;
      assert (a + b)[0] == a[0] && (a + b)[1..] == rest;
      assert Filter(keep, a + b) == head + Filter(keep, rest);
      FilterConcat(keep, a[1..], b);
      assert Filter(keep, a) == head + Filter(keep, a[1..]);
    }
  }

  lemma KeptCons(host: Host, cs: seq<Call>)
    requires cs != []
    ensures Kept(host, cs) == (if Attempts(host, cs[0].target) then [cs[0]] else []) + Kept(host, cs[1..])
  {
    assert IsAttempted(host)(cs[0]) == Attempts(host, cs[0].target);
  }

  lemma SucceededCons(host: Host, cs: seq<Call>)
    requires cs != []
    ensures Succeeded(host, cs) == (if Answer(host, cs[0]) == Returns then [cs[0]] else []) + Succeeded(host, cs[1..])
  {
    assert IsAnsweredReturns(host)(cs[0]) == (Answer(host, cs[0]) == Returns);
  }

  lemma {:induction false} FilterAll(keep: Call -> bool, cs: seq<Call>)
    requires forall i :: 0 <= i < |cs| ==> keep(cs[i])
    ensures Filter(keep, cs) == cs
    decreases |cs|
  {
    if cs != [] {
      FilterAll(keep, cs[1..]);
      assert cs == [cs[0]] + cs[1..];
    }
  }

  lemma {:induction false} FilterNone(keep: Call -> bool, cs: seq<Call>)
    requires forall i :: 0 <= i < |cs| ==> !keep(cs[i])
    ensures Filter(keep, cs) == []
    decreases |cs|
  {
    if cs != [] {
      FilterNone(keep, cs[1..]);
    }
  }

  /** What `Filter` keeps comes from `cs` and satisfies `keep`. */
  lemma {:induction false} FilterMembers(keep: Call -> bool, cs: seq<Call>)
    ensures forall i :: 0 <= i < |Filter(keep, cs)| ==> Filter(keep, cs)[i] in cs && keep(Filter(keep, cs)[i])
    decreases |cs|
  {
    if cs != [] {
      FilterMembers(keep, cs[1..]);
    }
  }

  lemma {:induction false} FilterNonEmpty(keep: Call -> bool, cs: seq<Call>)
    ensures Filter(keep, cs) != [] <==> exists i :: 0 <= i < |cs| && keep(cs[i])
    decreases |cs|
  {
    if cs != [] {
      FilterNonEmpty(keep, cs[1..]);
      if exists i :: 0 <= i < |cs| && keep(cs[i]) {
        var i :| 0 <= i < |cs| && keep(cs[i]);
        if i > 0 {
          assert cs[1..][i - 1] == cs[i];
        }
      }
      if exists i :: 0 <= i < |cs[1..]| && keep(cs[1..][i]) {
        var i :| 0 <= i < |cs[1..]| && keep(cs[1..][i]);
        assert cs[i + 1] == cs[1..][i];
      }
    }
  }

  /**
    A block tries every one of its calls whatever each of them does; the ones
    that complete are exactly those its global answers with `Returns`.
  */
  lemma {:induction false} TryEachEffect(host: Host, g: Global, calls: seq<Call>, t: Trace)
    requires ProbeOf(host, g).Invoke?
    requires forall i :: 0 <= i < |calls| ==> calls[i].target == g
    ensures TryEach(ProbeOf(host, g).respond, calls, t).attempted == t.attempted + calls
    ensures TryEach(ProbeOf(host, g).respond, calls, t).completed == t.completed + Succeeded(host, calls)
    ensures TryEach(ProbeOf(host, g).respond, calls, t).escaped == t.escaped
  {
    var respond := ProbeOf(host, g).respond;
    TryEachSplit(respond, calls, t);
    forall i | 0 <= i < |calls|
      ensures IsAnsweredReturns(host)(calls[i]) == ReturnsFrom(respond)(calls[i])
    {
      assert Answer(host, calls[i]) == respond(calls[i].args);
    }
    FilterAgree(IsAnsweredReturns(host), ReturnsFrom(respond), calls);
  }

  function ReturnsFrom(respond: seq<Arg> -> Behaviour): Call -> bool {
    (c: Call) => respond(c.args) == Returns
  }

  /** `TryEach` attempts every call, and completes those `respond` answers with `Returns`. */
  lemma {:induction false} TryEachSplit(respond: seq<Arg> -> Behaviour, calls: seq<Call>, t: Trace)
    ensures TryEach(respond, calls, t) ==
      Trace(t.attempted + calls, t.completed + Filter(ReturnsFrom(respond), calls), t.escaped)
    decreases |calls|
  {
    if calls != [] {
      var c, keep := calls[0], ReturnsFrom(respond);
      var head := if respond(c.args) == Returns then [c] else [];
      var done := if respond(c.args) == Returns then t.completed + [c] else t.completed;
      var next := Trace(t.attempted + [c], done, t.escaped);
      assert TryEach(respond, calls, t) == TryEach(respond, calls[1..], next);
      TryEachSplit(respond, calls[1..], next);
      assert next.attempted + calls[1..] == t.attempted + calls by {
        assert calls == [c] + calls[1..];
        Assoc(t.attempted, [c], calls[1..]);
      }
      assert done + Filter(keep, calls[1..]) == t.completed + Filter(keep, calls) by {
        assert keep(c) == (respond(c.args) == Returns);
        assert done == t.completed + head;
        assert Filter(keep, calls) == head + Filter(keep, calls[1..]);
        Assoc(t.completed, head, Filter(keep, calls[1..]));
      }
    }
  }

  lemma {:induction false} FilterAgree(k1: Call -> bool, k2: Call -> bool, cs: seq<Call>)
    requires forall i :: 0 <= i < |cs| ==> k1(cs[i]) == k2(cs[i])
    ensures Filter(k1, cs) == Filter(k2, cs)
    decreases |cs|
  {
    if cs != [] {
      FilterAgree(k1, k2, cs[1..]);
    }
  }

  lemma EscapesCons(host: Host, blocks: seq<Global>)
    requires blocks != []
    ensures Escapes(host, blocks) <==> ProbeOf(host, blocks[0]).Escape? || Escapes(host, blocks[1..])
  {
    var rest := blocks[1..];
    if Escapes(host, rest) {
      var j :| 0 <= j < |rest| && ProbeOf(host, rest[j]).Escape?;
      assert blocks[j + 1] == rest[j];
    }
    if Escapes(host, blocks) && !ProbeOf(host, blocks[0]).Escape? {
      var j :| 0 <= j < |blocks| && ProbeOf(host, blocks[j]).Escape?;
      assert j > 0 && rest[j - 1] == blocks[j];
    }
  }

  /** After an escape nothing more happens. */
  lemma {:induction false} RunAfterEscape(host: Host, context: Fields, blocks: seq<Global>, t: Trace)
    requires t.escaped
    ensures Run(host, context, blocks, t) == t
    decreases |blocks|
  {
    if blocks != [] {
      RunAfterEscape(host, context, blocks[1..], t);
    }
  }

  /** A run over `blocks` attempts `Planned`, completes what succeeds, and escapes iff a guard throws. */
  lemma {:induction false} RunEffect(host: Host, context: Fields, blocks: seq<Global>, t: Trace)
    requires !t.escaped
    ensures Run(host, context, blocks, t).attempted == t.attempted + Planned(host, context, blocks)
    ensures Run(host, context, blocks, t).completed == t.completed + Succeeded(host, Planned(host, context, blocks))
    ensures Run(host, context, blocks, t).escaped == Escapes(host, blocks)
    decreases |blocks|, 2
  {
    if blocks != [] {
      var g, rest := blocks[0], blocks[1..];
      EscapesCons(host, blocks);
      match ProbeOf(host, g)
      case Skip =>
        RunEffect(host, context, rest, t);
      case Escape =>
        RunAfterEscape(host, context, rest, t.(escaped := true));
      case Invoke(_) =>
        RunEffectInvoke(host, context, blocks, t);
    }
  }

  /** One block whose guard passes: its calls, then the rest. */
  lemma RunStepInvoke(host: Host, context: Fields, blocks: seq<Global>, t: Trace)
    requires blocks != [] && ProbeOf(host, blocks[0]).Invoke? && !t.escaped
    ensures Run(host, context, blocks, t) ==
      Run(host, context, blocks[1..], TryEach(ProbeOf(host, blocks[0]).respond, BlockCalls(blocks[0], context), t))
    ensures Planned(host, context, blocks) == BlockCalls(blocks[0], context) + Planned(host, context, blocks[1..])
  {
  }

  lemma {:induction false} RunEffectInvoke(host: Host, context: Fields, blocks: seq<Global>, t: Trace)
    requires blocks != [] && ProbeOf(host, blocks[0]).Invoke? && !t.escaped
    requires Escapes(host, blocks) == Escapes(host, blocks[1..])
    ensures Run(host, context, blocks, t).attempted == t.attempted + Planned(host, context, blocks)
    ensures Run(host, context, blocks, t).completed == t.completed + Succeeded(host, Planned(host, context, blocks))
    ensures Run(host, context, blocks, t).escaped == Escapes(host, blocks)
    decreases |blocks|, 1
  {
    var g, rest := blocks[0], blocks[1..];
    var calls := BlockCalls(g, context);
    var t' := TryEach(ProbeOf(host, g).respond, calls, t);
    var p := Planned(host, context, rest);
    var r := Run(host, context, rest, t');
    assert Run(host, context, blocks, t) == r && Planned(host, context, blocks) == calls + p by {
      RunStepInvoke(host, context, blocks, t);
    }
    assert t'.attempted == t.attempted + calls && t'.completed == t.completed + Succeeded(host, calls) && !t'.escaped by {
      TryEachEffect(host, g, calls, t);
    }
    assert r.attempted == t'.attempted + p && r.completed == t'.completed + Succeeded(host, p) && r.escaped == Escapes(host, rest) by {
      RunEffect(host, context, rest, t');
    }
    AssembleInvoke(host, t, calls, p, t', r);
  }

  /** The effects of one block and of the blocks after it add up. */
  lemma AssembleInvoke(host: Host, t: Trace, calls: seq<Call>, p: seq<Call>, mid: Trace, r: Trace)
    requires mid.attempted == t.attempted + calls && mid.completed == t.completed + Succeeded(host, calls)
    requires r.attempted == mid.attempted + p && r.completed == mid.completed + Succeeded(host, p)
    ensures r.attempted == t.attempted + (calls + p)
    ensures r.completed == t.completed + Succeeded(host, calls + p)
  {
    Assoc(t.attempted, calls, p);
    FilterConcat(IsAnsweredReturns(host), calls, p);
    Assoc(t.completed, Succeeded(host, calls), Succeeded(host, p));
  }

  lemma Assoc<T>(a: seq<T>, b: seq<T>, c: seq<T>)
    ensures (a + b) + c == a + (b + c)
  {
  }

  /** `Run` over the blocks from position `k` is one `Step`, then the rest. */
  lemma RunUnfold(host: Host, context: Fields, k: nat, t: Trace)
    requires k < |Order|
    ensures Run(host, context, Order[k..], t) == Run(host, context, Order[k + 1..], Step(host, context, Order[k], t))
  {
    assert Order[k..][1..] == Order[k + 1..];
  }

  /** What one block adds to the trace. */
  lemma StepEffect(host: Host, context: Fields, g: Global, t: Trace)
    ensures var live := !t.escaped && ProbeOf(host, g).Invoke?;
      Step(host, context, g, t).attempted == t.attempted + (if live then BlockCalls(g, context) else []) &&
      Step(host, context, g, t).completed == t.completed + (if live then Succeeded(host, BlockCalls(g, context)) else []) &&
      Step(host, context, g, t).escaped == (t.escaped || ProbeOf(host, g).Escape?)
  {
    if !t.escaped && ProbeOf(host, g).Invoke? {
      TryEachEffect(host, g, BlockCalls(g, context), t);
    }
  }

  /** A block other than `dataLayer`'s appends nothing. */
  lemma StepAppendsNothing(host: Host, context: Fields, g: Global, t: Trace)
    requires g != DataLayer
    ensures Appended(Step(host, context, g, t).completed) == Appended(t.completed)
  {
    if !t.escaped && ProbeOf(host, g).Invoke? {
      var calls := BlockCalls(g, context);
      TryEachEffect(host, g, calls, t);
      var more := Succeeded(host, calls);
      AppendedConcat(t.completed, more);
      FilterMembers(IsAnsweredReturns(host), calls);
      AppendedNone(more);
    }
  }

  /** The `dataLayer` block appends the event record exactly when its push completes. */
  lemma StepAppendsRecord(host: Host, context: Fields, t: Trace)
    requires host.Window? && host.dataLayer.AnArray? && !t.escaped
    ensures Appended(Step(host, context, DataLayer, t).completed) ==
      Appended(t.completed) + (if host.dataLayer.queue.frozen then [] else [EventRecord(context)])
  {
    var calls := BlockCalls(DataLayer, context);
    TryEachEffect(host, DataLayer, calls, t);
    var more := Succeeded(host, calls);
    AppendedConcat(t.completed, more);
    assert calls[1..] == [];
  }

  /** One block's calls are kept whole or not at all. */
  lemma KeptBlock(host: Host, g: Global, context: Fields)
    ensures Kept(host, BlockCalls(g, context)) == if Attempts(host, g) then BlockCalls(g, context) else []
  {
    var calls := BlockCalls(g, context);
    KeptCons(host, calls);
    if g == RaTag {
      KeptCons(host, calls[1..]);
      assert calls[1..][1..] == [];
    } else {
      assert calls[1..] == [];
    }
  }

  /** `Planned` over the blocks from position `k`: the block at `k`, then the rest. */
  lemma PlannedUnfold(host: Host, context: Fields, k: nat)
    requires k < |Order|
    ensures Planned(host, context, Order[k..]) ==
      match ProbeOf(host, Order[k])
      case Skip => Planned(host, context, Order[k + 1..])
      case Escape => []
      case Invoke(_) => BlockCalls(Order[k], context) + Planned(host, context, Order[k + 1..])
  {
    assert Order[k..][0] == Order[k] && Order[k..][1..] == Order[k + 1..];
  }

  /** The calls of the blocks from position `k` on, in source order. */
  function CallsFrom(context: Fields, k: nat): seq<Call>
    requires k <= |Order|
    decreases |Order| - k
  {
    if k == |Order| then [] else BlockCalls(Order[k], context) + CallsFrom(context, k + 1)
  }

  lemma PositionOfOrder(k: nat)
    requires k < |Order|
    ensures Position(Order[k]) == k
  {
    assert k == 0 || k == 1 || k == 2 || k == 3;
  }

  /** The calls from position `k` on are all on globals at position `k` or later. */
  lemma {:induction false} CallsFromTargets(context: Fields, k: nat)
    requires k <= |Order|
    ensures forall i :: 0 <= i < |CallsFrom(context, k)| ==> k <= Position(CallsFrom(context, k)[i].target)
    decreases |Order| - k
  {
    if k < |Order| {
      CallsFromTargets(context, k + 1);
      PositionOfOrder(k);
      var block, rest := BlockCalls(Order[k], context), CallsFrom(context, k + 1);
      assert forall i :: 0 <= i < |block| ==> (block + rest)[i] == block[i];
      assert forall i :: |block| <= i < |block + rest| ==> (block + rest)[i] == rest[i - |block|];
    }
  }

  /** Once the guard at `k` throws, no call from `k` on is attempted. */
  lemma KeptNoneAfterEscape(host: Host, context: Fields, k: nat)
    requires k < |Order| && ProbeOf(host, Order[k]).Escape?
    ensures Kept(host, CallsFrom(context, k)) == []
  {
    var cs := CallsFrom(context, k);
    CallsFromTargets(context, k);
    PositionOfOrder(k);
    forall i | 0 <= i < |cs|
      ensures !IsAttempted(host)(cs[i])
    {
      var g := cs[i].target;
      if Position(g) == k {
        assert g == Order[k];
      } else {
        assert !Reaches(host, g) by {
          assert k < Position(g) && ProbeOf(host, Order[k]).Escape?;
        }
      }
    }
    FilterNone(IsAttempted(host), cs);
  }

  /** From a reached position `k`, the planned calls are the calls from `k` on that are kept. */
  lemma {:induction false} PlannedFrom(host: Host, context: Fields, k: nat)
    requires k <= |Order|
    requires k < |Order| ==> Reaches(host, Order[k])
    ensures Planned(host, context, Order[k..]) == Kept(host, CallsFrom(context, k))
    decreases |Order| - k
  {
    if k == |Order| {
      assert Order[k..] == [];
    } else {
      var g := Order[k];
      PlannedUnfold(host, context, k);
      PositionOfOrder(k);
      if ProbeOf(host, g).Escape? {
        KeptNoneAfterEscape(host, context, k);
      } else {
        KeptBlock(host, g, context);
        FilterConcat(IsAttempted(host), BlockCalls(g, context), CallsFrom(context, k + 1));
        if k + 1 < |Order| {
          PositionOfOrder(k + 1);
          assert Reaches(host, Order[k + 1]) by {
            forall j | 0 <= j < k + 1 ensures !ProbeOf(host, Order[j]).Escape? {
              if j < k {
                assert j < Position(g);
              }
            }
          }
        }
        PlannedFrom(host, context, k + 1);
      }
    }
  }

  /** The planned calls are the source-order schedule, kept where the guard is reached and passes. */
  lemma PlannedIsKeptSchedule(host: Host, context: Fields)
    ensures Planned(host, context, Order) == Kept(host, Schedule(context))
  {
    PositionOfOrder(0);
    PlannedFrom(host, context, 0);
    assert Order[0..] == Order;
    assert CallsFrom(context, 4) == [];
    assert Schedule(context) == CallsFrom(context, 0);
  }

  /**
    Order and skipping: the calls attempted are the source-order schedule
    `raTag("event", …)`, `raTag("call_click", …)`, `nbpix`, `gtag`,
    `dataLayer.push`, keeping exactly the calls whose guard is reached and
    passes (a window exists, the global is a function, or `dataLayer` is an
    array).
  */
  lemma AttemptOrder(host: Host, context: Fields)
    ensures Dispatch(host, context).attempted == Kept(host, Schedule(context))
  {
    RunEffect(host, context, Order, Trace([], [], false));
    PlannedIsKeptSchedule(host, context);
  }

  /** With every global callable, all five calls are attempted in source order. */
  lemma EveryHookPresent(host: Host, context: Fields)
    requires host.Window? && host.raTag.Function? && host.nbpix.Function? && host.gtag.Function?
    requires host.dataLayer.AnArray?
    ensures Dispatch(host, context).attempted == Schedule(context)
    ensures |Schedule(context)| == 5
    ensures Dispatch(host, context).attempted[0] == Call(RaTag, [Word("event"), Word("call_click"), Object(context)])
    ensures Dispatch(host, context).attempted[1] == Call(RaTag, [Word("call_click"), Object(context)])
    ensures Dispatch(host, context).attempted[2] == Call(Nbpix, [Word("event"), Word("raw_call"), Object(context)])
    ensures Dispatch(host, context).attempted[3] == Call(Gtag, [Word("event"), Word("call_click"), Object(context)])
    ensures Dispatch(host, context).attempted[4] == Call(DataLayer, [Object(EventRecord(context))])
  {
    AttemptOrder(host, context);
    var s := Schedule(context);
    assert forall g :: Attempts(host, g);
    FilterAll(IsAttempted(host), s);
  }

  /** Two pages whose globals have the same kinds. */
  predicate SameShape(h1: Host, h2: Host) {
    forall g :: ProbeOf(h1, g).Skip? == ProbeOf(h2, g).Skip? && ProbeOf(h1, g).Escape? == ProbeOf(h2, g).Escape?
  }

  /**
    A failing call never prevents a later attempt: how the foreign functions
    answer (return or throw) changes neither which calls are attempted, nor
    their order, nor whether the dispatch ends in error.
  */
  lemma {:induction false} AnswersDoNotChangeAttempts(h1: Host, h2: Host, context: Fields)
    requires SameShape(h1, h2)
    ensures Dispatch(h1, context).attempted == Dispatch(h2, context).attempted
    ensures Dispatch(h1, context).escaped == Dispatch(h2, context).escaped
  {
    PlannedSameShape(h1, h2, context, Order);
    RunEffect(h1, context, Order, Trace([], [], false));
    RunEffect(h2, context, Order, Trace([], [], false));
    assert Escapes(h1, Order) == Escapes(h2, Order) by {
      if Escapes(h1, Order) {
        var j :| 0 <= j < |Order| && ProbeOf(h1, Order[j]).Escape?;
        assert ProbeOf(h2, Order[j]).Escape?;
      }
      if Escapes(h2, Order) {
        var j :| 0 <= j < |Order| && ProbeOf(h2, Order[j]).Escape?;
        assert ProbeOf(h1, Order[j]).Escape?;
      }
    }
  }

  lemma {:induction false} PlannedSameShape(h1: Host, h2: Host, context: Fields, blocks: seq<Global>)
    requires SameShape(h1, h2)
    ensures Planned(h1, context, blocks) == Planned(h2, context, blocks)
    decreases |blocks|
  {
    if blocks != [] {
      PlannedSameShape(h1, h2, context, blocks[1..]);
      var p1, p2 := ProbeOf(h1, blocks[0]), ProbeOf(h2, blocks[0]);
      assert p1.Skip? == p2.Skip? && p1.Escape? == p2.Escape?;
    }
  }

  /** The attempted calls are all on globals whose guard is reached and passes; the completed ones are those that return. */
  lemma DispatchFacts(host: Host, context: Fields)
    ensures var d := Dispatch(host, context);
      d.completed == Succeeded(host, d.attempted) &&
      forall i :: 0 <= i < |d.attempted| ==> Attempts(host, d.attempted[i].target)
  {
    RunEffect(host, context, Order, Trace([], [], false));
    PlannedIsKeptSchedule(host, context);
    FilterMembers(IsAttempted(host), Schedule(context));
    var p := Planned(host, context, Order);
    assert [] + p == p && [] + Succeeded(host, p) == Succeeded(host, p);
  }

  /**
    `anyFired` is true exactly when at least one attempted call, made on a
    global whose guard passed, returned without throwing.
  */
  lemma AnyFiredExactly(host: Host, context: Fields)
    ensures AnyFired(host, context) <==>
      exists i :: 0 <= i < |Dispatch(host, context).attempted| &&
        Attempts(host, Dispatch(host, context).attempted[i].target) &&
        Answer(host, Dispatch(host, context).attempted[i]) == Returns
  {
    DispatchFacts(host, context);
    var attempted := Dispatch(host, context).attempted;
    FilterNonEmpty(IsAnsweredReturns(host), attempted);
    if exists i :: 0 <= i < |attempted| && Answer(host, attempted[i]) == Returns {
      var i :| 0 <= i < |attempted| && Answer(host, attempted[i]) == Returns;
      assert Attempts(host, attempted[i].target);
    }
  }

  /**
    The dispatch ends in the outer `catch` exactly when some guard throws;
    whether any hook fired plays no part.
  */
  lemma EscapesExactly(host: Host, context: Fields)
    ensures Dispatch(host, context).escaped <==> SomeGuardThrows(host)
  {
    RunEffect(host, context, Order, Trace([], [], false));
  }

  /** Without a window nothing is attempted, nothing fires and nothing escapes. */
  lemma NoWindowDoesNothing(context: Fields)
    ensures Dispatch(NoWindow, context) == Trace([], [], false)
    ensures !AnyFired(NoWindow, context)
  {
    RunEffect(NoWindow, context, Order, Trace([], [], false));
    assert Planned(NoWindow, context, Order) == [] by {
      assert Order[1..] == [Nbpix, Gtag, DataLayer];
      assert Order[2..] == [Gtag, DataLayer];
      assert Order[3..] == [DataLayer];
      assert Order[4..] == [];
    }
  }

  /** A window with none of the globals defined: nothing fires, and nothing escapes. */
  lemma NoHooksFireNothing(context: Fields)
    ensures var host := Window(NotAFunction, NotAFunction, NotAFunction, NotAnArray);
      Dispatch(host, context) == Trace([], [], false) && !AnyFired(host, context)
  {
    var host := Window(NotAFunction, NotAFunction, NotAFunction, NotAnArray);
    AttemptOrder(host, context);
    EscapesExactly(host, context);
    RunEffect(host, context, Order, Trace([], [], false));
    assert Kept(host, Schedule(context)) == [] by {
      FilterNone(IsAttempted(host), Schedule(context));
    }
  }

  /** A `raTag` that throws on both calls still leaves `nbpix`, `gtag` and `dataLayer` attempted. */
  lemma ThrowingRaTagExample(respond: seq<Arg> -> Behaviour, queue: EventQueue, context: Fields)
    requires forall args :: respond(args) == Throws
    ensures var host := Window(Function(respond), Function(_ => Returns), Function(_ => Returns), AnArray(queue));
      |Dispatch(host, context).attempted| == 5 &&
      Dispatch(host, context).attempted[2..] == BlockCalls(Nbpix, context) + BlockCalls(Gtag, context) + BlockCalls(DataLayer, context) &&
      !Dispatch(host, context).escaped &&
      AnyFired(host, context)
  {
    var host := Window(Function(respond), Function(_ => Returns), Function(_ => Returns), AnArray(queue));
    EveryHookPresent(host, context);
    EscapesExactly(host, context);
    AnyFiredExactly(host, context);
    var a := Dispatch(host, context).attempted;
    assert Attempts(host, a[2].target) && Answer(host, a[2]) == Returns;
  }

  /**
    Every hook receives the context object itself as its last argument; the
    `dataLayer` push receives the event record built from it.
  */
  lemma ContextPassedToEveryHook(host: Host, context: Fields)
    ensures forall c :: c in Dispatch(host, context).attempted ==>
      |c.args| > 0 &&
      c.args[|c.args| - 1] == Object(if c.target == DataLayer then EventRecord(context) else context)
  {
    AttemptOrder(host, context);
    FilterMembers(IsAttempted(host), Schedule(context));
  }

  /** The fields of the pushed record: the context's, plus `event` unless the context has one. */
  lemma EventRecordFields(context: Fields)
    ensures EventRecord(context).Keys == context.Keys + {"event"}
    ensures EventRecord(context)["event"] == if "event" in context then context["event"] else Text("call_click")
    ensures forall k :: k in context ==> EventRecord(context)[k] == context[k]
  {
  }

  lemma {:induction false} AppendedConcat(a: seq<Call>, b: seq<Call>)
    ensures Appended(a + b) == Appended(a) + Appended(b)
    decreases |a|
  {
    if a == [] {
      assert a + b == b;
    } else {
      assert (a + b)[0] == a[0];
      assert (a + b)[1..] == a[1..] + b;
      AppendedConcat(a[1..], b);
    }
  }

  lemma {:induction false} AppendedNone(cs: seq<Call>)
    requires forall i :: 0 <= i < |cs| ==> cs[i].target != DataLayer
    ensures Appended(cs) == []
    decreases |cs|
  {
    if cs != [] {
      AppendedNone(cs[1..]);
    }
  }

  /** The `dataLayer` block runs exactly when no guard throws and `dataLayer` is an array. */
  lemma AttemptsDataLayer(host: Host)
    ensures Attempts(host, DataLayer) <==> !SomeGuardThrows(host) && ProbeOf(host, DataLayer).Invoke?
  {
    if !Reaches(host, DataLayer) {
      var j :| 0 <= j < 3 && ProbeOf(host, Order[j]).Escape?;
    }
    if SomeGuardThrows(host) && ProbeOf(host, DataLayer).Invoke? {
      var j :| 0 <= j < |Order| && ProbeOf(host, Order[j]).Escape?;
      assert j < 3;
    }
  }

  /** The completed calls, split into those of the first three blocks and those of `dataLayer`'s. */
  lemma CompletedByBlocks(host: Host, context: Fields)
    ensures Dispatch(host, context).completed ==
      Succeeded(host, Kept(host, BlockCalls(RaTag, context) + BlockCalls(Nbpix, context) + BlockCalls(Gtag, context))) +
      Succeeded(host, Kept(host, BlockCalls(DataLayer, context)))
  {
    RunEffect(host, context, Order, Trace([], [], false));
    PlannedIsKeptSchedule(host, context);
    var front := BlockCalls(RaTag, context) + BlockCalls(Nbpix, context) + BlockCalls(Gtag, context);
    var dl := BlockCalls(DataLayer, context);
    assert Schedule(context) == front + dl;
    FilterConcat(IsAttempted(host), front, dl);
    FilterConcat(IsAnsweredReturns(host), Kept(host, front), Kept(host, dl));
  }

  /** Only the last block's calls can append a record. */
  lemma CompletedSplit(host: Host, context: Fields)
    ensures Appended(Dispatch(host, context).completed) ==
      Appended(Succeeded(host, Kept(host, BlockCalls(DataLayer, context))))
  {
    CompletedByBlocks(host, context);
    var front := BlockCalls(RaTag, context) + BlockCalls(Nbpix, context) + BlockCalls(Gtag, context);
    var early := Succeeded(host, Kept(host, front));
    AppendedConcat(early, Succeeded(host, Kept(host, BlockCalls(DataLayer, context))));
    assert forall i :: 0 <= i < |front| ==> front[i].target != DataLayer;
    FilterMembers(IsAttempted(host), front);
    FilterMembers(IsAnsweredReturns(host), Kept(host, front));
    AppendedNone(early);
  }

  /**
    A dispatch appends at most one record to `dataLayer`: the event record,
    exactly when no guard throws, `dataLayer` is an array and the push
    completes (the array is not frozen).
  */
  lemma DataLayerAppend(host: Host, context: Fields)
    ensures Appended(Dispatch(host, context).completed) ==
      if !SomeGuardThrows(host) && host.Window? && host.dataLayer.AnArray? && !host.dataLayer.queue.frozen
      then [EventRecord(context)] else []
  {
    CompletedSplit(host, context);
    AttemptsDataLayer(host);
    var dl := BlockCalls(DataLayer, context);
    assert dl[1..] == [];
    if Attempts(host, DataLayer) {
      assert Kept(host, dl) == dl;
    } else {
      assert Kept(host, dl) == [];
    }
  }

}
