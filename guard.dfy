/** The exception-catching guard: class `__ExceptionCatcher`, its class-wide
    default output, the global instance, and what one exit from a guarded
    block does.

    Outputs are not printed: every call of an output function is recorded as
    an event `Wrote(sink, text)` on a `Recorder`, in order, beside the event
    `CallbackRun` for each call of a user callback (the tests observe the
    callback through its own side effect). Sinks are named by numbers; sink
    `PRINT` is the built-in `print`. */
module Guard {
  import opened Exceptions
  import opened Traceback
  import opened Sequences

  type SinkId = nat

  /** The built-in `print`, the class-wide default output when the module loads. */
  const PRINT: SinkId := 0

  /** One observable effect of an exit, in the order it happens. */
  datatype Event = Wrote(sink: SinkId, text: string) | CallbackRun

  /** An instance's configuration: the three `__init__` arguments. */
  datatype Config = Config(callback: Option<Callback>, silent: bool, output: Option<SinkId>)

  /** The formatted frames an exit reads (see module Traceback). */
  datatype Frames = Frames(stack: seq<string>, tb: RaisedFrames)

  /** How `__exit__` ends: by returning its decision (true swallows the
      exception) or by raising, which only a callback can make it do. */
  datatype ExitOutcome = Exits(suppress: bool) | ExitRaises(error: Exc)

  /** Everything one exit does: its events, how it ends, and the instance's
      `result` afterwards. */
  datatype ExitEffect = ExitEffect(events: seq<Event>, outcome: ExitOutcome, result: Value)

  /** A `with` block that ended with `exc` is reported, unless it ended
      normally or by `SystemExit` with code 0. */
  predicate Reported(exc: Option<Exc>): (r: bool)
    ensures exc.None? ==> !r
    ensures exc == Some(SystemExit(0)) ==> !r
    ensures exc.Some? && exc.value != SystemExit(0) ==> r
  {
    exc.Some? && !(exc.value.SystemExit? && exc.value.code == 0)
  }

  /** The exceptions `__exit__` always lets through. */
  predicate AlwaysPropagates(e: Exc) {
    e.SystemExit? || e.KeyboardInterrupt?
  }

  /** The value `__exit__` computes as its return value. */
  function Decision(exc: Option<Exc>): (suppress: bool)
    ensures suppress <==> exc.Some? && !exc.value.SystemExit? && !exc.value.KeyboardInterrupt?
  {
    Reported(exc) && !AlwaysPropagates(exc.value)
  }

  /** The output an instance writes to: its own, or the class-wide default
      as it is at the moment of writing. */
  function SinkOf(output: Option<SinkId>, classDefault: SinkId): SinkId {
    output.GetOr(classDefault)
  }

  /** The three outputs that log a caught exception. */
  function TracebackEvents(sink: SinkId, e: Exc, frames: Frames): seq<Event> {
    [Wrote(sink, HEADER), Wrote(sink, TraceText(frames.stack, frames.tb)), Wrote(sink, Describe(e))]
  }

  /** `__name__` of the callback if it has one, else `str(callback)`. */
  function CallbackName(cb: Callback): (name: string)
    ensures cb.name.Some? ==> name == cb.name.value
    ensures cb.name.None? ==> name == cb.repr
  {
    cb.name.GetOr(cb.repr)
  }

  /** The line announcing that the callback is about to run. */
  function Announcement(cb: Callback): string {
    "\nCallback '" + CallbackName(cb) + "' provided, executing."
  }

  /** The configuration of the guard around a callback: the global
      instance's factory called with only `silent`, so no callback and the
      class-wide default output. */
  function NestedConfig(cfg: Config): (inner: Config)
    ensures inner.callback.None? && inner.output.None? && inner.silent == cfg.silent
  {
    Config(None, cfg.silent, None)
  }

  /** What sink `s` received, in order. */
  function Received(events: seq<Event>, s: SinkId): seq<string> {
    if events == [] then []
    else (if events[0].Wrote? && events[0].sink == s then [events[0].text] else []) + Received(events[1..], s)
  }

  /** How many times a user callback ran. */
  function Runs(events: seq<Event>): nat {
    if events == [] then 0 else (if events[0].CallbackRun? then 1 else 0) + Runs(events[1..])
  }

  lemma {:induction false} ReceivedAppend(a: seq<Event>, b: seq<Event>, s: SinkId)
    ensures Received(a + b, s) == Received(a, s) + Received(b, s)
  {
    if a == [] {
      assert a + b == b;
    } else {
      assert (a + b)[1..] == a[1..] + b;
      ReceivedAppend(a[1..], b, s);
    }
  }

  lemma {:induction false} RunsAppend(a: seq<Event>, b: seq<Event>)
    ensures Runs(a + b) == Runs(a) + Runs(b)
  {
    if a == [] {
      assert a + b == b;
    } else {
      assert (a + b)[1..] == a[1..] + b;
      RunsAppend(a[1..], b);
    }
  }

  /** The traceback goes, whole and in order, to its one sink and to no
      other. */
  lemma TracebackReceived(sink: SinkId, e: Exc, frames: Frames, s: SinkId)
    ensures Received(TracebackEvents(sink, e, frames), s) ==
              if s == sink then [HEADER, TraceText(frames.stack, frames.tb), Describe(e)] else []
  {
    ReceivedThree(sink, HEADER, TraceText(frames.stack, frames.tb), Describe(e), s);
  }

  lemma ReceivedThree(sink: SinkId, a: string, b: string, c: string, s: SinkId)
    ensures Received([Wrote(sink, a), Wrote(sink, b), Wrote(sink, c)], s) == if s == sink then [a, b, c] else []
  {
    var w1, w2, w3 := Wrote(sink, a), Wrote(sink, b), Wrote(sink, c);
    assert [w1, w2, w3] == [w1] + ([w2] + [w3]);
    ReceivedAppend([w1], [w2] + [w3], s);
    ReceivedAppend([w2], [w3], s);
    ReceivedOne(w1, s);
    ReceivedOne(w2, s);
    ReceivedOne(w3, s);
  }

  lemma ReceivedOne(ev: Event, s: SinkId)
    ensures Received([ev], s) == if ev.Wrote? && ev.sink == s then [ev.text] else []
  {
    assert [ev][1..] == [];
  }

  /** Every event is an output; no callback ran. */
  predicate OnlyWrites(events: seq<Event>) {
    forall i :: 0 <= i < |events| ==> events[i].Wrote?
  }

  lemma {:induction false} OnlyWritesRunNothing(events: seq<Event>)
    requires OnlyWrites(events)
    ensures Runs(events) == 0
  {
    if events != [] {
      OnlyWritesRunNothing(events[1..]);
    }
  }

  /** The events an exit produces before any callback: the traceback, when
      the exit reports and the instance is not silent. */
  function LogEvents(cfg: Config, classDefault: SinkId, exc: Option<Exc>, frames: Frames): (events: seq<Event>)
    ensures OnlyWrites(events)
    ensures cfg.silent ==> events == []
  {
    if Reported(exc) && !cfg.silent then TracebackEvents(SinkOf(cfg.output, classDefault), exc.value, frames) else []
  }

  /** What running the callback (lines 111-112 of `__exit__`) does: its
      events, the exception that escapes (if any) and the instance's
      `result` afterwards. */
  datatype CallbackEffect = CallbackEffect(events: seq<Event>, escaped: Option<Exc>, result: Value)

  /** `__exit__(exc_type, exc_val, exc_tb)` on an instance configured by
      `cfg`, with the class-wide default output `classDefault` and `result`
      the instance's result so far. `frames` are the frames this exit reads
      and `nested` those the guard around the callback reads. */
  function ExitSpec(cfg: Config, classDefault: SinkId, exc: Option<Exc>, frames: Frames, nested: Frames, result: Value): (eff: ExitEffect)
    ensures exc.None? ==> eff.events == [] && eff.outcome == Exits(false) && eff.result == result
    ensures eff.outcome.Exits? ==> (eff.outcome.suppress <==> Decision(exc))
    ensures eff.outcome.ExitRaises? ==>
              Decision(exc) && cfg.callback.Some? &&
              cfg.callback.value.Run(exc) == Raises(eff.outcome.error) && AlwaysPropagates(eff.outcome.error)
  {
    var logged := LogEvents(cfg, classDefault, exc, frames);
    if Decision(exc) && cfg.callback.Some? then
      var run := GuardedRun(cfg, classDefault, exc, nested, result);
      ExitEffect(logged + Announced(cfg, classDefault) + run.events,
                 if run.escaped.Some? then ExitRaises(run.escaped.value) else Exits(true), run.result)
    else
      ExitEffect(logged, Exits(Decision(exc)), result)
  }

  /** Lines 106-110 of `__exit__`: unless silent, the callback is announced
      on the instance's sink. */
  function Announced(cfg: Config, classDefault: SinkId): (events: seq<Event>)
    requires cfg.callback.Some?
    ensures cfg.silent <==> events == []
  {
    if cfg.silent then [] else [Wrote(SinkOf(cfg.output, classDefault), Announcement(cfg.callback.value))]
  }

  /** Calls the callback inside a guard configured by `NestedConfig(cfg)`,
      whose exit logs what the callback raises and swallows it unless it
      always propagates. The callback's value becomes the result; an
      exception the inner guard lets through escapes. */
  function GuardedRun(cfg: Config, classDefault: SinkId, exc: Option<Exc>, nested: Frames, result: Value): (run: CallbackEffect)
    requires cfg.callback.Some?
    ensures run.escaped.Some? ==> cfg.callback.value.Run(exc) == Raises(run.escaped.value) && AlwaysPropagates(run.escaped.value)
  {
    match cfg.callback.value.Run(exc)
    case Returns(v) => CallbackEffect([CallbackRun], None, v)
    case Raises(e) =>
      CallbackEffect([CallbackRun] + LogEvents(NestedConfig(cfg), classDefault, Some(e), nested),
                     if Decision(Some(e)) then None else Some(e), result)
  }

  /** The exception, if any, that a call hands to `__exit__`. */
  function Raised(call: Outcome): Option<Exc> {
    if call.Raises? then Some(call.error) else None
  }

  /** A logged exception always opens with exactly the three traceback
      outputs, on the instance's own sink: the header, the frames, and the
      `Name: message` line. */
  lemma LogShape(cfg: Config, classDefault: SinkId, exc: Option<Exc>, frames: Frames, nested: Frames, result: Value)
    requires Reported(exc) && !cfg.silent
    ensures var eff := ExitSpec(cfg, classDefault, exc, frames, nested, result);
            var sink := SinkOf(cfg.output, classDefault);
            |eff.events| >= 3 &&
            eff.events[0] == Wrote(sink, HEADER) &&
            eff.events[1] == Wrote(sink, TraceText(frames.stack, frames.tb)) &&
            eff.events[2] == Wrote(sink, Describe(exc.value))
  {
  }

  /** Without a callback to run, an exit only logs (or not) and returns its
      decision; `result` is untouched. */
  lemma ExitWithoutCallback(cfg: Config, classDefault: SinkId, exc: Option<Exc>, frames: Frames, nested: Frames, result: Value)
    requires !(Decision(exc) && cfg.callback.Some?)
    ensures var eff := ExitSpec(cfg, classDefault, exc, frames, nested, result);
            eff.events == (if Reported(exc) && !cfg.silent then TracebackEvents(SinkOf(cfg.output, classDefault), exc.value, frames) else []) &&
            eff.outcome == Exits(Decision(exc)) && eff.result == result
  {
  }

  /** The instance's sink receives something exactly when the exit is
      reported and the instance is not silent; so `SystemExit(0)` writes
      nothing and `SystemExit(1)` writes although it propagates. */
  lemma {:induction false} WrittenExactlyWhenReported(cfg: Config, classDefault: SinkId, exc: Option<Exc>, frames: Frames, nested: Frames, result: Value)
    ensures var eff := ExitSpec(cfg, classDefault, exc, frames, nested, result);
            |Received(eff.events, SinkOf(cfg.output, classDefault))| > 0 <==> Reported(exc) && !cfg.silent
  {
    var eff := ExitSpec(cfg, classDefault, exc, frames, nested, result);
    var sink := SinkOf(cfg.output, classDefault);
    if Reported(exc) && !cfg.silent {
      LogShape(cfg, classDefault, exc, frames, nested, result);
      ReceivedAppend(eff.events[..1], eff.events[1..], sink);
      assert eff.events[..1] + eff.events[1..] == eff.events;
      assert Received(eff.events[..1], sink) == [HEADER];
    } else if !cfg.silent {
      assert !Decision(exc);
      ExitWithoutCallback(cfg, classDefault, exc, frames, nested, result);
    }
  }

  /** When the exit suppresses and a callback is configured, the callback
      runs exactly once, after the traceback and (unless silent) the
      announcement on the instance's sink. It runs inside a guard with the
      same `silent`, no callback and the class-wide default output, whose
      log of a raising callback is all that follows. A returned value becomes
      `result`; an exception the inner guard lets through escapes the exit. */
  lemma {:induction false} CallbackRule(cfg: Config, classDefault: SinkId, exc: Option<Exc>, frames: Frames, nested: Frames, result: Value)
    requires Decision(exc) && cfg.callback.Some?
    ensures var eff := ExitSpec(cfg, classDefault, exc, frames, nested, result);
            var cb := cfg.callback.value;
            var announce := if cfg.silent then [] else [Wrote(SinkOf(cfg.output, classDefault), Announcement(cb))];
            var before := LogEvents(cfg, classDefault, exc, frames) + announce + [CallbackRun];
            match cb.Run(exc)
            case Returns(v) =>
              eff.events == before && eff.outcome == Exits(true) && eff.result == v
            case Raises(e) =>
              eff.events == before + LogEvents(NestedConfig(cfg), classDefault, Some(e), nested) &&
              eff.result == result &&
              eff.outcome == (if AlwaysPropagates(e) then ExitRaises(e) else Exits(true))
  {
    var shown := LogEvents(cfg, classDefault, exc, frames) + Announced(cfg, classDefault);
    ExitSpecUnfold(cfg, classDefault, exc, frames, nested, result);
    match cfg.callback.value.Run(exc)
    case Returns(v) =>
    case Raises(e) =>
      AppendAssoc(shown, [CallbackRun], LogEvents(NestedConfig(cfg), classDefault, Some(e), nested));
  }

  /** The body of `ExitSpec`, as one equation. */
  lemma ExitSpecUnfold(cfg: Config, classDefault: SinkId, exc: Option<Exc>, frames: Frames, nested: Frames, result: Value)
    ensures var logged := LogEvents(cfg, classDefault, exc, frames);
            ExitSpec(cfg, classDefault, exc, frames, nested, result) ==
              if Decision(exc) && cfg.callback.Some? then
                var run := GuardedRun(cfg, classDefault, exc, nested, result);
                ExitEffect(logged + Announced(cfg, classDefault) + run.events,
                           if run.escaped.Some? then ExitRaises(run.escaped.value) else Exits(true), run.result)
              else
                ExitEffect(logged, Exits(Decision(exc)), result)
  {
  }

  /** The guard around the callback behaves as an ordinary exit of an
      instance configured by `NestedConfig(cfg)`: after the callback's run,
      the events are that exit's, and the callback's exception escapes
      exactly when that exit would let it through. */
  lemma NestedGuardIsAnExit(cfg: Config, classDefault: SinkId, exc: Option<Exc>, nested: Frames, result: Value)
    requires cfg.callback.Some?
    ensures var cb := cfg.callback.value;
            var inner := ExitSpec(NestedConfig(cfg), classDefault, Raised(cb.Run(exc)), nested, nested, PyNone);
            var run := GuardedRun(cfg, classDefault, exc, nested, result);
            run.events == [CallbackRun] + inner.events &&
            (run.escaped.Some? <==> cb.Run(exc).Raises? && inner.outcome == Exits(false))
  {
    var cb := cfg.callback.value;
    ExitWithoutCallback(NestedConfig(cfg), classDefault, Raised(cb.Run(exc)), nested, nested, PyNone);
    match cb.Run(exc)
    case Returns(v) =>
      assert Raised(cb.Run(exc)) == None;
      assert [CallbackRun] + [] == [CallbackRun];
    case Raises(e) =>
      assert Raised(cb.Run(exc)) == Some(e);
  }

  /** The callback runs at most once per exit: exactly once when the exit
      swallows the exception and a callback is configured, never otherwise
      (the guard around it has no callback of its own). */
  lemma {:induction false} CallbackRunsOnce(cfg: Config, classDefault: SinkId, exc: Option<Exc>, frames: Frames, nested: Frames, result: Value)
    ensures Runs(ExitSpec(cfg, classDefault, exc, frames, nested, result).events) ==
              if Decision(exc) && cfg.callback.Some? then 1 else 0
  {
    var logged := LogEvents(cfg, classDefault, exc, frames);
    OnlyWritesRunNothing(logged);
    ExitSpecUnfold(cfg, classDefault, exc, frames, nested, result);
    if Decision(exc) && cfg.callback.Some? {
      var cb := cfg.callback.value;
      var announce := Announced(cfg, classDefault);
      var run := GuardedRun(cfg, classDefault, exc, nested, result);
      var innerLog := if cb.Run(exc).Raises? then LogEvents(NestedConfig(cfg), classDefault, Some(cb.Run(exc).error), nested) else [];
      assert run.events == [CallbackRun] + innerLog;
      assert OnlyWrites(announce);
      OnlyWritesRunNothing(announce);
      OnlyWritesRunNothing(innerLog);
      RunsAppend([CallbackRun], innerLog);
      RunsAppend(logged, announce);
      RunsAppend(logged + announce, run.events);
    }
  }

  /** A silent instance writes nothing to any output, and neither does the
      guard around its callback, which is silent too. */
  lemma {:induction false} SilentWritesNothing(cfg: Config, classDefault: SinkId, exc: Option<Exc>, frames: Frames, nested: Frames, result: Value, s: SinkId)
    requires cfg.silent
    ensures Received(ExitSpec(cfg, classDefault, exc, frames, nested, result).events, s) == []
  {
    ExitSpecUnfold(cfg, classDefault, exc, frames, nested, result);
    if Decision(exc) && cfg.callback.Some? {
      var run := GuardedRun(cfg, classDefault, exc, nested, result);
      assert run.events == [CallbackRun];
      assert Received([CallbackRun], s) == Received([], s);
    }
  }

  /** What the wrapper built by `__call__(to_wrap)` returns, given what the
      wrapped function did and what the exit did. */
  function WrapperOutcome(call: Outcome, eff: ExitEffect): (r: Outcome)
    ensures call.Returns? ==> r == call
    ensures call.Raises? && eff.outcome == Exits(false) ==> r == call
    ensures call.Raises? && eff.outcome == Exits(true) ==> r == Returns(eff.result)
    ensures call.Raises? && eff.outcome.ExitRaises? ==> r == Raises(eff.outcome.error)
  {
    match call
    case Returns(_) => call
    case Raises(e) =>
      match eff.outcome
      case Exits(suppress) => if suppress then Returns(eff.result) else call
      case ExitRaises(e2) => Raises(e2)
  }

  /** The wrapper returns the wrapped function's own value when it returns;
      lets through what the guard does not suppress; otherwise returns the
      instance's `result`: the callback's value, or the earlier result when
      there is no callback or the callback raised. */
  lemma WrapperResult(cfg: Config, classDefault: SinkId, call: Outcome, frames: Frames, nested: Frames, result: Value)
    ensures var r := WrapperOutcome(call, ExitSpec(cfg, classDefault, Raised(call), frames, nested, result));
            (call.Returns? ==> r == call) &&
            (call.Raises? && !Decision(Some(call.error)) ==> r == call) &&
            (call.Raises? && Decision(Some(call.error)) && cfg.callback.None? ==> r == Returns(result)) &&
            (call.Raises? && Decision(Some(call.error)) && cfg.callback.Some? ==>
               match cfg.callback.value.Run(Some(call.error))
               case Returns(v) => r == Returns(v)
               case Raises(e2) => r == if AlwaysPropagates(e2) then Raises(e2) else Returns(result))
  {
    if call.Raises? && Decision(Some(call.error)) && cfg.callback.Some? {
      CallbackRule(cfg, classDefault, Some(call.error), frames, nested, result);
    }
  }

  /** The answer of a property that the global instance refuses to give. */
  datatype Query<T> = Answer(value: T) | AssertionError(msg: string)

  /** A function that can be decorated: what calling it with given
      arguments does. */
  datatype Target = Target(name: string, call: seq<Value> -> Outcome)

  /** What `__call__` returns: a `TypeError` it raises, a fresh instance, or
      the wrapper around `to_wrap` bound to the instance it was called on. */
  datatype CallResult = TypeError(msg: string) | Instance(catcher: Catcher) | Wrapper(guard: Catcher, target: Target)

  /** The class attribute `__output`: one cell shared by the class and all
      of its instances. */
  class CatcherClass {
    var output: SinkId

    /** Loading the module: the default output is `print`. */
    constructor ()
      ensures output == PRINT
    {
      output := PRINT;
    }
  }

  /** What the outside world observes: every output call and every callback
      call, in order. */
  class Recorder {
    var events: seq<Event>

    constructor ()
      ensures events == []
    {
      events := [];
    }

    /** Calling an output function with one string. */
    method Write(sink: SinkId, text: string)
      modifies this
      ensures events == old(events) + [Wrote(sink, text)]
    {
      events := events + [Wrote(sink, text)];
    }

    /** Calling a callback while `current` is being handled. */
    method RunCallback(cb: Callback, current: Option<Exc>) returns (outcome: Outcome)
      modifies this
      ensures events == old(events) + [CallbackRun] && outcome == cb.Run(current)
    {
      events := events + [CallbackRun];
      outcome := cb.Run(current);
    }
  }

  /** An instance of `__ExceptionCatcher`. */
  class Catcher {
    const cls: CatcherClass
    const callback: Option<Callback>
    const silent: bool
    /** The instance attribute `__output`, set only when `output` was given. */
    const output: Option<SinkId>
    /** Whether this is the global instance `ExceptionCatcher`. */
    const isGlobal: bool
    var result: Value
    var failed: bool

    /** `__init__(callback, silent, output)`, reached through the factory. */
    constructor (cls: CatcherClass, callback: Option<Callback>, silent: bool, output: Option<SinkId>)
      ensures this.cls == cls && this.callback == callback && this.silent == silent && this.output == output
      ensures !isGlobal && result == PyNone && !failed
    {
      this.cls := cls;
      this.callback := callback;
      this.silent := silent;
      this.output := output;
      isGlobal := false;
      result := PyNone;
      failed := false;
    }

    /** The global instance, built with no arguments when the module loads. */
    constructor Global(cls: CatcherClass)
      ensures this.cls == cls && callback.None? && !silent && output.None?
      ensures isGlobal && result == PyNone && !failed
    {
      this.cls := cls;
      callback := None;
      silent := false;
      output := None;
      isGlobal := true;
      result := PyNone;
      failed := false;
    }

    /** The instance's `__init__` arguments. */
    function Settings(): Config {
      Config(callback, silent, output)
    }

    /** `self.__output`, looked up when it is used. */
    function Sink(): (s: SinkId)
      reads cls
      ensures output.Some? ==> s == output.value
      ensures output.None? ==> s == cls.output
    {
      SinkOf(output, cls.output)
    }

    /** `set_output`: replaces the class-wide default. Every instance of the
        class without its own output writes to the new sink from now on,
        whether it already existed or not; the others keep theirs. */
    method SetOutput(sink: SinkId)
      modifies cls
      ensures cls.output == sink
      ensures forall c: Catcher | c.cls == cls :: c.Sink() == if c.output.Some? then c.output.value else sink
    {
      cls.output := sink;
    }

    /** The `failed` property. */
    function Failed(): (r: Query<bool>)
      reads this
      ensures r.AssertionError? <==> isGlobal
      ensures isGlobal ==> r.msg == "Unable to get state of global ExceptionCatcher, use an instance instead"
      ensures r.Answer? ==> r.value == failed
    {
      if isGlobal then AssertionError("Unable to get state of global ExceptionCatcher, use an instance instead")
      else Answer(failed)
    }

    /** The `result` property. */
    function Result(): (r: Query<Value>)
      reads this
      ensures r.AssertionError? <==> isGlobal
      ensures isGlobal ==> r.msg == "Unable to get result of global ExceptionCatcher, use an instance instead"
      ensures r.Answer? ==> r.value == result
    {
      if isGlobal then AssertionError("Unable to get result of global ExceptionCatcher, use an instance instead")
      else Answer(result)
    }

    /** `__call__(to_wrap, callback=..., silent=..., output=...)`. With
        `to_wrap`, `silent` and `output` are not used: the wrapper runs
        under this instance as it is. */
    method Call(toWrap: Option<Target>, callback: Option<Callback>, silent: bool, output: Option<SinkId>) returns (r: CallResult)
      ensures toWrap.Some? && callback.Some? ==> r == TypeError("Both 'to_wrap' and 'callback' were provided")
      ensures toWrap.Some? && callback.None? ==> r == Wrapper(this, toWrap.value)
      ensures toWrap.None? ==>
                r.Instance? && fresh(r.catcher) && r.catcher.cls == cls &&
                r.catcher.Settings() == Config(callback, silent, output) &&
                !r.catcher.isGlobal && !r.catcher.failed && r.catcher.result == PyNone
    {
      if toWrap.Some? && callback.Some? {
        return TypeError("Both 'to_wrap' and 'callback' were provided");
      }
      if toWrap.None? {
        var c := new Catcher(cls, callback, silent, output);
        return Instance(c);
      }
      r := Wrapper(this, toWrap.value);
    }

    /** `__enter__`: the instance is its own context handle. */
    method Enter() returns (handle: Catcher)
      ensures handle == this
    {
      handle := this;
    }

    /** The three outputs that log `e` to this instance's sink. */
    method Report(e: Exc, frames: Frames, rec: Recorder)
      modifies rec
      ensures rec.events == old(rec.events) + TracebackEvents(Sink(), e, frames)
    {
      ghost var start := rec.events;
      var text := FormatTrace(frames.stack, frames.tb);
      rec.Write(Sink(), HEADER);
      rec.Write(Sink(), text);
      rec.Write(Sink(), Describe(e));
      AppendThree(start, Wrote(Sink(), HEADER), Wrote(Sink(), text), Wrote(Sink(), Describe(e)));
    }

    /** `__exit__`. Records `failed` when it returns; when a callback's
        exception escapes it, `failed` keeps its earlier value. */
    method Exit(exc: Option<Exc>, frames: Frames, nested: Frames, rec: Recorder) returns (outcome: ExitOutcome)
      modifies this, rec
      ensures rec.events == old(rec.events) + ExitSpec(Settings(), cls.output, exc, frames, nested, old(result)).events
      ensures outcome == ExitSpec(Settings(), cls.output, exc, frames, nested, old(result)).outcome
      ensures result == ExitSpec(Settings(), cls.output, exc, frames, nested, old(result)).result
      ensures failed == if outcome.Exits? then outcome.suppress else old(failed)
      decreases if callback.Some? then 1 else 0, 1
    {
      ghost var cfg, classDefault, start := Settings(), cls.output, rec.events;
      ExitSpecUnfold(cfg, classDefault, exc, frames, nested, result);
      var ret := Judge(exc, frames, rec);
      if ret && callback.Some? {
        ghost var logged := LogEvents(cfg, classDefault, exc, frames);
        ghost var run := GuardedRun(cfg, classDefault, exc, nested, result);
        Announce(rec);
        AppendAssoc(start, logged, Announced(cfg, classDefault));
        var escaped := RunGuarded(exc, nested, rec);
        AppendAssoc(start, logged + Announced(cfg, classDefault), run.events);
        if escaped.Some? {
          outcome := ExitRaises(escaped.value);
          return;
        }
      }
      failed := ret;
      outcome := Exits(ret);
    }

    /** Lines 88-103 of `__exit__`: decides whether to swallow `exc` and
        logs it when it is reported and the instance is not silent. */
    method Judge(exc: Option<Exc>, frames: Frames, rec: Recorder) returns (ret: bool)
      modifies rec
      ensures ret == Decision(exc)
      ensures rec.events == old(rec.events) + LogEvents(Settings(), cls.output, exc, frames)
    {
      ret := false;
      if exc.Some? && !(exc.value.SystemExit? && exc.value.code == 0) {
        ret := !(exc.value.SystemExit? || exc.value.KeyboardInterrupt?);
        if !silent {
          Report(exc.value, frames, rec);
        }
      }
    }

    /** Lines 106-110 of `__exit__`: names the callback on the instance's
        sink, unless silent. */
    method Announce(rec: Recorder)
      requires callback.Some?
      modifies rec
      ensures rec.events == old(rec.events) + Announced(Settings(), cls.output)
    {
      if !silent {
        rec.Write(Sink(), Announcement(callback.value));
      }
    }

    /** Lines 111-112 of `__exit__`: calls the callback inside a fresh guard
        with the same `silent`, no callback and the default output. Its
        value becomes `result`; an exception the inner guard does not
        swallow is handed back, to escape from `__exit__`. */
    method RunGuarded(exc: Option<Exc>, nested: Frames, rec: Recorder) returns (escaped: Option<Exc>)
      requires callback.Some?
      modifies this, rec
      ensures var run := GuardedRun(Settings(), cls.output, exc, nested, old(result));
              rec.events == old(rec.events) + run.events && escaped == run.escaped && result == run.result
      ensures failed == old(failed)
      decreases 1, 0
    {
      ghost var start := rec.events;
      ghost var inner := ExitSpec(NestedConfig(Settings()), cls.output, Raised(callback.value.Run(exc)), nested, nested, PyNone);
      NestedGuardIsAnExit(Settings(), cls.output, exc, nested, result);
      // The global instance's factory called with `silent` only.
      var guard := new Catcher(cls, None, silent, None);
      assert guard.Settings() == NestedConfig(Settings());
      var called := rec.RunCallback(callback.value, exc);
      AppendAssoc(start, [CallbackRun], inner.events);
      match called
      case Returns(v) =>
        result := v;
        var _ := guard.Exit(None, nested, nested, rec);
        escaped := None;
      case Raises(e) =>
        var outcome := guard.Exit(Some(e), nested, nested, rec);
        escaped := if outcome == Exits(false) then Some(e) else None;
    }

    /** Calling the wrapper that `__call__(target)` returned, bound to this
        instance: run the target in a `with self:` block and hand back its
        value, or `self.result` when the block's exception was swallowed. */
    method Invoke(target: Target, args: seq<Value>, frames: Frames, nested: Frames, rec: Recorder) returns (r: Outcome)
      modifies this, rec
      ensures var call := target.call(args);
              var eff := ExitSpec(Settings(), cls.output, Raised(call), frames, nested, old(result));
              rec.events == old(rec.events) + eff.events && result == eff.result &&
              r == WrapperOutcome(call, eff) &&
              failed == if eff.outcome.Exits? then eff.outcome.suppress else old(failed)
    {
      var ok := false;
      var ret := PyNone;
      var _ := Enter();
      var call := target.call(args);
      var outcome;
      if call.Returns? {
        ret := call.value;
        ok := true;
        outcome := Exit(None, frames, nested, rec);
      } else {
        outcome := Exit(Some(call.error), frames, nested, rec);
      }
      match outcome
      case ExitRaises(e) =>
        return Raises(e);
      case Exits(suppress) =>
        if !ok && !suppress {
          return call;
        }
      if !ok {
        return Returns(result);
      }
      r := Returns(ret);
    }
  }

  /** Loading the module: the class with `print` as its default output, and
      the global instance. */
  method Load() returns (cls: CatcherClass, global: Catcher)
    ensures fresh(cls) && fresh(global) && cls.output == PRINT
    ensures global.cls == cls && global.isGlobal && global.Settings() == Config(None, false, None)
    ensures global.result == PyNone && !global.failed
  {
    cls := new CatcherClass();
    global := new Catcher.Global(cls);
  }
}
