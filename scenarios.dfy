/** The behaviours the repository's tests exercise, replayed on the model
    with concrete inputs: a reciprocal `f(k) = 1 / k` decorated or run in a
    `with` block, callbacks that return 69 or describe the exception, exit
    codes, silent instances and the class-wide default output. */
module Scenarios {
  import opened Exceptions
  import opened Traceback
  import opened Guard

  const ZERO_DIVISION := Other("ZeroDivisionError", "division by zero")

  /** The tests' `f(k)` and `div(k)`: `1 / k`, true division. */
  function Reciprocal(args: seq<Value>): Outcome {
    if |args| == 1 && args[0].PyInt? then
      if args[0].i == 0 then Raises(ZERO_DIVISION) else Returns(PyReal(1.0 / args[0].i as real))
    else Raises(Other("TypeError", "unsupported operand"))
  }

  const F := Target("f", Reciprocal)

  /** A second function with the same body. */
  const G := Target("g", Reciprocal)

  /** A sink other than `print`: a list's `append` in the tests. */
  const LIST: SinkId := 1

  /** `partial(print, file=sys.stderr)`. */
  const STDERR: SinkId := 2

  /** The frames of a call made through the wrapper from the line `caller`
      of a test method: the stack holds the test runner, that line, the
      wrapper and `__exit__`; the traceback runs from the wrapper down to
      the failing line. */
  function CallFrames(caller: string): Frames {
    Frames(["test\n", caller, "wrapper\n", "__exit__\n"], ["wrapper\n", FAILING_LINE + "\n"])
  }

  /** The test lines that call `f` and `g`. */
  const F_CALLS := "f(1), f(0), f(-1)\n"
  const G_CALLS := "g(1), g(0), g(-1)\n"

  /** The frames of `f(0)`. */
  const CALL_FRAMES := CallFrames(F_CALLS)

  /** The frames of an exception raised inside a `with` block of a test
      method: the stack holds the test runner, the test method and
      `__exit__`, and the traceback `tb` starts at the test method. */
  function BlockFrames(tb: RaisedFrames): Frames {
    Frames(["test\n", "with\n", "__exit__\n"], tb)
  }

  const INTERRUPT_FRAMES := BlockFrames(["raise KeyboardInterrupt\n"])
  const EXIT_FRAMES := BlockFrames(["exit(1)\n", "raise SystemExit(code)\n"])

  /** The line of `f` that raises. */
  const FAILING_LINE := "return 1 / k"

  /** `@ExceptionCatcher` on the global instance: the value passes through,
      and a division by zero gives the global instance's `None` result. */
  method GlobalDecorator() returns (one: Outcome, zero: Outcome, minusOne: Outcome)
    ensures one == Returns(PyReal(1.0)) && zero == Returns(PyNone) && minusOne == Returns(PyReal(-1.0))
  {
    var cls, global := Load();
    var rec := new Recorder();
    var w := global.Call(Some(F), None, false, None);
    assert Reciprocal([PyInt(1)]) == Returns(PyReal(1.0));
    assert Reciprocal([PyInt(0)]) == Raises(ZERO_DIVISION);
    assert Reciprocal([PyInt(-1)]) == Returns(PyReal(-1.0));
    WrapperResult(global.Settings(), PRINT, Returns(PyReal(1.0)), CALL_FRAMES, CALL_FRAMES, PyNone);
    one := w.guard.Invoke(w.target, [PyInt(1)], CALL_FRAMES, CALL_FRAMES, rec);
    assert global.result == PyNone;
    WrapperResult(global.Settings(), PRINT, Raises(ZERO_DIVISION), CALL_FRAMES, CALL_FRAMES, PyNone);
    zero := w.guard.Invoke(w.target, [PyInt(0)], CALL_FRAMES, CALL_FRAMES, rec);
    WrapperResult(global.Settings(), PRINT, Returns(PyReal(-1.0)), CALL_FRAMES, CALL_FRAMES, global.result);
    minusOne := w.guard.Invoke(w.target, [PyInt(-1)], CALL_FRAMES, CALL_FRAMES, rec);
  }

  /** `with ExceptionCatcher as catcher:` swallows the division by zero, but
      the global instance refuses to report `failed` or `result`. */
  method GlobalRefusesState() returns (outcome: ExitOutcome, failed: Query<bool>, result: Query<Value>)
    ensures outcome == Exits(true) && failed.AssertionError? && result.AssertionError?
  {
    var cls, global := Load();
    var rec := new Recorder();
    var catcher := global.Enter();
    assert Decision(Some(ZERO_DIVISION));
    outcome := catcher.Exit(Some(ZERO_DIVISION), CALL_FRAMES, CALL_FRAMES, rec);
    failed := catcher.Failed();
    result := catcher.Result();
  }

  /** A bare `raise KeyboardInterrupt`. */
  const INTERRUPT := KeyboardInterrupt("")

  /** A `KeyboardInterrupt` is logged to `print` and then let through. */
  method InterruptPropagates() returns (outcome: ExitOutcome, printed: seq<string>)
    ensures outcome == Exits(false)
    ensures printed == [HEADER, Concat(["test\n", DropLast(MARKER)]), "KeyboardInterrupt: "]
  {
    var cls, global := Load();
    var rec := new Recorder();
    ExitWithoutCallback(global.Settings(), PRINT, Some(INTERRUPT), INTERRUPT_FRAMES, INTERRUPT_FRAMES, PyNone);
    outcome := global.Exit(Some(INTERRUPT), INTERRUPT_FRAMES, INTERRUPT_FRAMES, rec);
    assert rec.events == TracebackEvents(PRINT, INTERRUPT, INTERRUPT_FRAMES);
    TracebackReceived(PRINT, INTERRUPT, INTERRUPT_FRAMES, PRINT);
    InterruptTrace();
    assert Describe(INTERRUPT) == "KeyboardInterrupt: ";
    printed := Received(rec.events, PRINT);
  }

  /** `exit(0)` inside the block writes nothing, to any output, and
      propagates. */
  method ExitZero() returns (outcome: ExitOutcome, events: seq<Event>)
    ensures outcome == Exits(false) && events == []
  {
    var cls, global := Load();
    var rec := new Recorder();
    var r := global.Call(None, None, false, Some(LIST));
    var frames := BlockFrames(["exit(0)\n", "raise SystemExit(code)\n"]);
    ExitWithoutCallback(r.catcher.Settings(), PRINT, Some(SystemExit(0)), frames, frames, PyNone);
    outcome := r.catcher.Exit(Some(SystemExit(0)), frames, frames, rec);
    events := rec.events;
  }

  /** `exit(1)` propagates too, but only after logging to the instance's
      own output. */
  method ExitOne() returns (outcome: ExitOutcome, lines: seq<string>)
    ensures outcome == Exits(false)
    ensures lines == [HEADER, Concat(["test\n", MARKER, "raise SystemExit(code)"]), "SystemExit: 1"]
  {
    var cls, global := Load();
    var rec := new Recorder();
    var r := global.Call(None, None, false, Some(LIST));
    ExitWithoutCallback(r.catcher.Settings(), PRINT, Some(SystemExit(1)), EXIT_FRAMES, EXIT_FRAMES, PyNone);
    outcome := r.catcher.Exit(Some(SystemExit(1)), EXIT_FRAMES, EXIT_FRAMES, rec);
    assert rec.events == TracebackEvents(LIST, SystemExit(1), EXIT_FRAMES);
    TracebackReceived(LIST, SystemExit(1), EXIT_FRAMES, LIST);
    ExitTrace();
    ExitOneDescribed();
    lines := Received(rec.events, LIST);
  }

  /** Giving both a function to wrap and a callback is a `TypeError`. */
  method WrongArguments() returns (r: CallResult)
    ensures r == TypeError("Both 'to_wrap' and 'callback' were provided")
  {
    var cls, global := Load();
    r := global.Call(Some(F), Some(Callback(Some("<lambda>"), "<function <lambda>>", Always(Returns(PyNone)))), false, None);
  }

  /** `lambda: 69`. */
  const SIXTY_NINE := Callback(Some("<lambda>"), "<function <lambda>>", Always(Returns(PyInt(69))))

  /** `@ExceptionCatcher(callback=lambda: 69)`: a division by zero gives
      the callback's value. */
  method CallbackValue() returns (zero: Outcome)
    ensures zero == Returns(PyInt(69))
  {
    var cls, global := Load();
    var rec := new Recorder();
    var r := global.Call(None, Some(SIXTY_NINE), false, None);
    var w := r.catcher.Call(Some(F), None, false, None);
    assert Reciprocal([PyInt(0)]) == Raises(ZERO_DIVISION);
    WrapperResult(r.catcher.Settings(), PRINT, Raises(ZERO_DIVISION), CALL_FRAMES, CALL_FRAMES, PyNone);
    zero := w.guard.Invoke(w.target, [PyInt(0)], CALL_FRAMES, CALL_FRAMES, rec);
  }

  /** `f` decorated by a global instance given any callback (`SIXTY_NINE`,
      or the nameless `partial` below): `f(1)` and `f(-1)` return their own
      values, as the callback only runs on an exception. */
  method CallbackPassesValues(callback: Callback) returns (one: Outcome, minusOne: Outcome)
    ensures one == Returns(PyReal(1.0)) && minusOne == Returns(PyReal(-1.0))
  {
    var cls, global := Load();
    var rec := new Recorder();
    var r := global.Call(None, Some(callback), false, None);
    var w := r.catcher.Call(Some(F), None, false, None);
    assert Reciprocal([PyInt(1)]) == Returns(PyReal(1.0));
    WrapperResult(r.catcher.Settings(), PRINT, Returns(PyReal(1.0)), CALL_FRAMES, CALL_FRAMES, PyNone);
    one := w.guard.Invoke(w.target, [PyInt(1)], CALL_FRAMES, CALL_FRAMES, rec);
    assert Reciprocal([PyInt(-1)]) == Returns(PyReal(-1.0));
    WrapperResult(r.catcher.Settings(), PRINT, Returns(PyReal(-1.0)), CALL_FRAMES, CALL_FRAMES, r.catcher.result);
    minusOne := w.guard.Invoke(w.target, [PyInt(-1)], CALL_FRAMES, CALL_FRAMES, rec);
  }

  /** `exception_callback` passed as a callback. */
  const DESCRIBE := Callback(Some("exception_callback"), "<function exception_callback>", DescribeHandled)

  lemma DescribeCallbackOnZeroDivision()
    ensures DESCRIBE.Run(Some(ZERO_DIVISION)) == Returns(PyStr("ZeroDivisionError: division by zero"))
  {
    ZeroDivisionDescribed();
  }

  /** `@ExceptionCatcher(callback=exception_callback)`: a division by zero
      gives the exception's description. */
  method DescribingCallback() returns (zero: Outcome)
    ensures zero == Returns(PyStr("ZeroDivisionError: division by zero"))
  {
    var cls, global := Load();
    var rec := new Recorder();
    var r := global.Call(None, Some(DESCRIBE), false, None);
    var w := r.catcher.Call(Some(F), None, false, None);
    assert Reciprocal([PyInt(0)]) == Raises(ZERO_DIVISION);
    DescribeCallbackOnZeroDivision();
    WrapperResult(r.catcher.Settings(), PRINT, Raises(ZERO_DIVISION), CALL_FRAMES, CALL_FRAMES, PyNone);
    zero := w.guard.Invoke(w.target, [PyInt(0)], CALL_FRAMES, CALL_FRAMES, rec);
  }


  /** A `with` block under an instance whose callback records its call and
      returns 69: the callback runs once, `failed` is set and `result` is 69. */
  method CallbackInBlock() returns (outcome: ExitOutcome, runs: nat, failed: Query<bool>, result: Query<Value>)
    ensures outcome == Exits(true) && runs == 1 && failed == Answer(true) && result == Answer(PyInt(69))
  {
    var cls, global := Load();
    var rec := new Recorder();
    var recording := Callback(Some("callback"), "<function callback>", Always(Returns(PyInt(69))));
    var r := global.Call(None, Some(recording), false, None);
    var catcher := r.catcher.Enter();
    ghost var eff := ExitSpec(catcher.Settings(), PRINT, Some(ZERO_DIVISION), CALL_FRAMES, CALL_FRAMES, PyNone);
    CallbackRule(catcher.Settings(), PRINT, Some(ZERO_DIVISION), CALL_FRAMES, CALL_FRAMES, PyNone);
    CallbackRunsOnce(catcher.Settings(), PRINT, Some(ZERO_DIVISION), CALL_FRAMES, CALL_FRAMES, PyNone);
    assert eff.outcome == Exits(true) && eff.result == PyInt(69) && Runs(eff.events) == 1;
    assert catcher.cls.output == PRINT && catcher.result == PyNone;
    outcome := catcher.Exit(Some(ZERO_DIVISION), CALL_FRAMES, CALL_FRAMES, rec);
    assert rec.events == [] + eff.events == eff.events;
    runs := Runs(rec.events);
    failed := catcher.Failed();
    result := catcher.Result();
  }

  /** `@ExceptionCatcher(callback=partial(callback, 69))`: `f(0)` gives 69,
      and the callback, which has no `__name__`, is announced by its `str`
      after the three traceback lines. */
  method NamelessCallback() returns (zero: Outcome, announced: Event)
    ensures zero == Returns(PyInt(69))
    ensures announced == Wrote(PRINT, "\nCallback '" + "functools.partial(<function callback>, 69)" + "' provided, executing.")
  {
    var cls, global := Load();
    var rec := new Recorder();
    var partial := Callback(None, "functools.partial(<function callback>, 69)", Always(Returns(PyInt(69))));
    var r := global.Call(None, Some(partial), false, None);
    var w := r.catcher.Call(Some(F), None, false, None);
    assert Reciprocal([PyInt(0)]) == Raises(ZERO_DIVISION);
    ghost var eff := ExitSpec(r.catcher.Settings(), PRINT, Some(ZERO_DIVISION), CALL_FRAMES, CALL_FRAMES, PyNone);
    CallbackRule(r.catcher.Settings(), PRINT, Some(ZERO_DIVISION), CALL_FRAMES, CALL_FRAMES, PyNone);
    WrapperResult(r.catcher.Settings(), PRINT, Raises(ZERO_DIVISION), CALL_FRAMES, CALL_FRAMES, PyNone);
    assert CallbackName(partial) == partial.repr;
    assert eff.events[3] == Wrote(PRINT, Announcement(partial));
    assert w.guard.cls.output == PRINT && w.guard.result == PyNone;
    zero := w.guard.Invoke(w.target, [PyInt(0)], CALL_FRAMES, CALL_FRAMES, rec);
    assert rec.events == [] + eff.events == eff.events;
    announced := rec.events[3];
  }

  /** `@ExceptionCatcher(silent=True, output=...)`: `f(1), f(0), f(-1)`
      write nothing, to any output. */
  method SilentWrapper() returns (events: seq<Event>)
    ensures events == []
  {
    var cls, global := Load();
    var rec := new Recorder();
    var r := global.Call(None, None, true, Some(LIST));
    var w := r.catcher.Call(Some(F), None, false, None);
    var k := 1;
    while k >= -1
      invariant -2 <= k <= 1
      invariant rec.events == []
      invariant w.guard.Settings() == Config(None, true, Some(LIST))
      decreases k + 2
    {
      ExitWithoutCallback(w.guard.Settings(), w.guard.cls.output, Raised(Reciprocal([PyInt(k)])), CALL_FRAMES, CALL_FRAMES, w.guard.result);
      var _ := w.guard.Invoke(w.target, [PyInt(k)], CALL_FRAMES, CALL_FRAMES, rec);
      k := k - 1;
    }
    events := rec.events;
  }

  /** The traceback text of a call through the wrapper: the test runner,
      the calling line, the marker in place of the wrapper's frame, and the
      failing line without its newline. */
  lemma CallTrace(caller: string)
    ensures TraceText(CallFrames(caller).stack, CallFrames(caller).tb) == Concat(["test\n", caller, MARKER, FAILING_LINE])
  {
    var frames := CallFrames(caller);
    assert DropLast(FAILING_LINE + "\n") == FAILING_LINE;
    assert CaughtFrames(frames.tb) == [MARKER, FAILING_LINE];
    assert CallerFrames(frames.stack) == ["test\n", caller];
    assert CallerFrames(frames.stack) + CaughtFrames(frames.tb) == ["test\n", caller, MARKER, FAILING_LINE];
  }

  /** A `KeyboardInterrupt` raised by the test method itself: its only frame
      becomes the marker, which loses its newline. */
  lemma InterruptTrace()
    ensures TraceText(INTERRUPT_FRAMES.stack, INTERRUPT_FRAMES.tb) == Concat(["test\n", DropLast(MARKER)])
  {
    assert CaughtFrames(INTERRUPT_FRAMES.tb) == [DropLast(MARKER)];
    assert CallerFrames(INTERRUPT_FRAMES.stack) + CaughtFrames(INTERRUPT_FRAMES.tb) == ["test\n", DropLast(MARKER)];
  }

  /** `exit(1)` in the test method: the marker, then the line of `exit`
      that raises. */
  lemma ExitTrace()
    ensures TraceText(EXIT_FRAMES.stack, EXIT_FRAMES.tb) == Concat(["test\n", MARKER, "raise SystemExit(code)"])
  {
    assert DropLast("raise SystemExit(code)\n") == "raise SystemExit(code)";
    assert CaughtFrames(EXIT_FRAMES.tb) == [MARKER, "raise SystemExit(code)"];
    assert CallerFrames(EXIT_FRAMES.stack) + CaughtFrames(EXIT_FRAMES.tb) == ["test\n", MARKER, "raise SystemExit(code)"];
  }

  lemma ZeroDivisionDescribed()
    ensures Describe(ZERO_DIVISION) == "ZeroDivisionError: division by zero"
  {
  }

  lemma ExitOneDescribed()
    ensures Describe(SystemExit(1)) == "SystemExit: 1"
  {
    assert NatString(1) == "1";
  }

  /** The three lines that log a division by zero raised through the
      wrapper called from the line `caller`. */
  function ZeroLog(caller: string): seq<string> {
    [HEADER, Concat(["test\n", caller, MARKER, FAILING_LINE]), "ZeroDivisionError: division by zero"]
  }

  /** What each output receives when that division by zero is logged to
      `sink`. */
  lemma ZeroLogged(sink: SinkId, caller: string, s: SinkId)
    ensures Received(TracebackEvents(sink, ZERO_DIVISION, CallFrames(caller)), s) == if s == sink then ZeroLog(caller) else []
  {
    TracebackReceived(sink, ZERO_DIVISION, CallFrames(caller), s);
    CallTrace(caller);
    ZeroDivisionDescribed();
  }

  /** `@ExceptionCatcher(output=...)`, then `f(0)`: the output receives the
      header, the caller's frames with the marker and the failing line, and
      the description of the division by zero. */
  method LoggedOutput() returns (lines: seq<string>)
    ensures lines == ZeroLog(F_CALLS)
  {
    var cls, global := Load();
    var rec := new Recorder();
    var r := global.Call(None, None, false, Some(LIST));
    var w := r.catcher.Call(Some(F), None, false, None);
    assert Reciprocal([PyInt(0)]) == Raises(ZERO_DIVISION);
    ExitWithoutCallback(w.guard.Settings(), PRINT, Some(ZERO_DIVISION), CALL_FRAMES, CALL_FRAMES, PyNone);
    var _ := w.guard.Invoke(w.target, [PyInt(0)], CALL_FRAMES, CALL_FRAMES, rec);
    assert rec.events == TracebackEvents(LIST, ZERO_DIVISION, CALL_FRAMES);
    ZeroLogged(LIST, F_CALLS, LIST);
    lines := Received(rec.events, LIST);
  }

  /** The global instance's exit of a division by zero called from the
      line `caller` logs the whole traceback to the class-wide default `d`
      it is given, and nothing anywhere else. */
  lemma GlobalLogsTo(d: SinkId, other: SinkId, caller: string, result: Value)
    requires other != d
    ensures var eff := ExitSpec(Config(None, false, None), d, Some(ZERO_DIVISION), CallFrames(caller), CallFrames(caller), result);
            Received(eff.events, d) == ZeroLog(caller) && Received(eff.events, other) == []
  {
    ExitWithoutCallback(Config(None, false, None), d, Some(ZERO_DIVISION), CallFrames(caller), CallFrames(caller), result);
    ZeroLogged(d, caller, d);
    ZeroLogged(d, caller, other);
  }

  /** `set_output` redirects the global instance's decorated function as
      soon as it is next called. */
  method RedirectedDefault() returns (toStderr: seq<string>, toPrint: seq<string>)
    ensures toStderr == ZeroLog(F_CALLS) && toPrint == []
  {
    var cls, global := Load();
    var w := global.Call(Some(F), None, false, None);
    assert Reciprocal([PyInt(0)]) == Raises(ZERO_DIVISION);
    global.SetOutput(STDERR);
    var rec := new Recorder();
    GlobalLogsTo(STDERR, PRINT, F_CALLS, global.result);
    ghost var eff := ExitSpec(Config(None, false, None), STDERR, Some(ZERO_DIVISION), CALL_FRAMES, CALL_FRAMES, global.result);
    assert w.guard.Settings() == Config(None, false, None) && w.guard.cls.output == STDERR;
    var _ := w.guard.Invoke(w.target, [PyInt(0)], CALL_FRAMES, CALL_FRAMES, rec);
    assert rec.events == [] + eff.events == eff.events;
    toStderr, toPrint := Received(rec.events, STDERR), Received(rec.events, PRINT);
  }

  /** Setting the default back to `print` sends the next log there, and
      nothing to the earlier default. */
  method RestoredDefault() returns (toPrint: seq<string>, toStderr: seq<string>)
    ensures toPrint == ZeroLog(G_CALLS) && toStderr == []
  {
    var cls, global := Load();
    var g := global.Call(Some(G), None, false, None);
    assert Reciprocal([PyInt(0)]) == Raises(ZERO_DIVISION);
    global.SetOutput(STDERR);
    global.SetOutput(PRINT);
    var rec := new Recorder();
    GlobalLogsTo(PRINT, STDERR, G_CALLS, global.result);
    ghost var eff := ExitSpec(Config(None, false, None), PRINT, Some(ZERO_DIVISION), CallFrames(G_CALLS), CallFrames(G_CALLS), global.result);
    assert g.guard.Settings() == Config(None, false, None) && g.guard.cls.output == PRINT;
    var _ := g.guard.Invoke(g.target, [PyInt(0)], CallFrames(G_CALLS), CallFrames(G_CALLS), rec);
    assert rec.events == [] + eff.events == eff.events;
    toPrint, toStderr := Received(rec.events, PRINT), Received(rec.events, STDERR);
  }

  /** `@ExceptionCatcher(output=partial(print, file=sys.stderr))`: `f(0)`
      logs to standard error only. */
  method OwnOutputUsed() returns (fToStderr: seq<string>, fToPrint: seq<string>)
    ensures fToStderr == ZeroLog(F_CALLS) && fToPrint == []
  {
    var cls, global := Load();
    assert Reciprocal([PyInt(0)]) == Raises(ZERO_DIVISION);
    var r := global.Call(None, None, false, Some(STDERR));
    var f := r.catcher.Call(Some(F), None, false, None);
    var recF := new Recorder();
    ExitWithoutCallback(f.guard.Settings(), PRINT, Some(ZERO_DIVISION), CALL_FRAMES, CALL_FRAMES, PyNone);
    var _ := f.guard.Invoke(f.target, [PyInt(0)], CALL_FRAMES, CALL_FRAMES, recF);
    assert recF.events == TracebackEvents(STDERR, ZERO_DIVISION, CALL_FRAMES);
    ZeroLogged(STDERR, F_CALLS, STDERR);
    ZeroLogged(STDERR, F_CALLS, PRINT);
    fToStderr, fToPrint := Received(recF.events, STDERR), Received(recF.events, PRINT);
  }

  /** Beside it, a plain `@ExceptionCatcher` on `g`: `g(0)` logs to `print`
      only. */
  method DefaultOutputBeside() returns (gToPrint: seq<string>, gToStderr: seq<string>)
    ensures gToPrint == ZeroLog(G_CALLS) && gToStderr == []
  {
    var cls, global := Load();
    assert Reciprocal([PyInt(0)]) == Raises(ZERO_DIVISION);
    var g := global.Call(Some(G), None, false, None);
    var recG := new Recorder();
    GlobalLogsTo(PRINT, STDERR, G_CALLS, global.result);
    ghost var eff := ExitSpec(Config(None, false, None), PRINT, Some(ZERO_DIVISION), CallFrames(G_CALLS), CallFrames(G_CALLS), global.result);
    assert g.guard.Settings() == Config(None, false, None) && g.guard.cls.output == PRINT;
    var _ := g.guard.Invoke(g.target, [PyInt(0)], CallFrames(G_CALLS), CallFrames(G_CALLS), recG);
    assert recG.events == [] + eff.events == eff.events;
    gToPrint, gToStderr := Received(recG.events, PRINT), Received(recG.events, STDERR);
  }

  /** An instance built with its own output, before `set_output` changes
      the default, keeps writing to its own output. */
  method OwnOutputKept() returns (own: seq<string>, toStderr: seq<string>)
    ensures own == ZeroLog(F_CALLS) && toStderr == []
  {
    var cls, global := Load();
    var r := global.Call(None, None, false, Some(LIST));
    global.SetOutput(STDERR);
    var rec := new Recorder();
    ExitWithoutCallback(r.catcher.Settings(), STDERR, Some(ZERO_DIVISION), CALL_FRAMES, CALL_FRAMES, PyNone);
    var _ := r.catcher.Exit(Some(ZERO_DIVISION), CALL_FRAMES, CALL_FRAMES, rec);
    assert rec.events == TracebackEvents(LIST, ZERO_DIVISION, CALL_FRAMES);
    ZeroLogged(LIST, F_CALLS, LIST);
    ZeroLogged(LIST, F_CALLS, STDERR);
    own, toStderr := Received(rec.events, LIST), Received(rec.events, STDERR);
  }

  /** A callback that raises `ValueError('bad')`. */
  const RAISING := Callback(Some("<lambda>"), "<function <lambda>>", Always(Raises(Other("ValueError", "bad"))))

  /** The instance logs the division by zero and the announcement to its
      own output, while the guard around the callback logs the `ValueError`
      to the class-wide default, then swallows it; `result` is unchanged. */
  lemma RaisingCallbackSinks()
    ensures var eff := ExitSpec(Config(Some(RAISING), false, Some(LIST)), PRINT, Some(ZERO_DIVISION), CALL_FRAMES, CALL_FRAMES, PyNone);
            |Received(eff.events, LIST)| == 4 && |Received(eff.events, PRINT)| == 3 &&
            eff.outcome == Exits(true) && eff.result == PyNone
  {
    var cfg := Config(Some(RAISING), false, Some(LIST));
    var eff := ExitSpec(cfg, PRINT, Some(ZERO_DIVISION), CALL_FRAMES, CALL_FRAMES, PyNone);
    CallbackRule(cfg, PRINT, Some(ZERO_DIVISION), CALL_FRAMES, CALL_FRAMES, PyNone);
    var before := TracebackEvents(LIST, ZERO_DIVISION, CALL_FRAMES) + [Wrote(LIST, Announcement(RAISING))] + [CallbackRun];
    var inner := TracebackEvents(PRINT, Other("ValueError", "bad"), CALL_FRAMES);
    assert eff.events == before + inner;
    SinkCount(before, inner, LIST);
    SinkCount(before, inner, PRINT);
  }

  /** How much sink `s` receives in the run of `RaisingCallbackSinks`. */
  lemma SinkCount(before: seq<Event>, inner: seq<Event>, s: SinkId)
    requires before == TracebackEvents(LIST, ZERO_DIVISION, CALL_FRAMES) + [Wrote(LIST, Announcement(RAISING))] + [CallbackRun]
    requires inner == TracebackEvents(PRINT, Other("ValueError", "bad"), CALL_FRAMES)
    ensures s == LIST ==> |Received(before + inner, s)| == 4
    ensures s == PRINT ==> |Received(before + inner, s)| == 3
  {
    ReceivedAppend(before, inner, s);
    ReceivedAppend(TracebackEvents(LIST, ZERO_DIVISION, CALL_FRAMES) + [Wrote(LIST, Announcement(RAISING))], [CallbackRun], s);
    ReceivedAppend(TracebackEvents(LIST, ZERO_DIVISION, CALL_FRAMES), [Wrote(LIST, Announcement(RAISING))], s);
    ReceivedOne(Wrote(LIST, Announcement(RAISING)), s);
    ReceivedOne(CallbackRun, s);
    TracebackReceived(LIST, ZERO_DIVISION, CALL_FRAMES, s);
    TracebackReceived(PRINT, Other("ValueError", "bad"), CALL_FRAMES, s);
  }

  /** The same, run: the exit swallows the division by zero and `result`
      stays `None`. */
  method RaisingCallback() returns (outcome: ExitOutcome, own: nat, printed: nat, result: Query<Value>)
    ensures outcome == Exits(true) && own == 4 && printed == 3 && result == Answer(PyNone)
  {
    var cls, global := Load();
    var rec := new Recorder();
    var r := global.Call(None, Some(RAISING), false, Some(LIST));
    RaisingCallbackSinks();
    ghost var eff := ExitSpec(Config(Some(RAISING), false, Some(LIST)), PRINT, Some(ZERO_DIVISION), CALL_FRAMES, CALL_FRAMES, PyNone);
    assert r.catcher.Settings() == Config(Some(RAISING), false, Some(LIST));
    assert r.catcher.cls.output == PRINT && r.catcher.result == PyNone;
    outcome := r.catcher.Exit(Some(ZERO_DIVISION), CALL_FRAMES, CALL_FRAMES, rec);
    assert rec.events == [] + eff.events == eff.events;
    own, printed := |Received(rec.events, LIST)|, |Received(rec.events, PRINT)|;
    result := r.catcher.Result();
  }

  /** A callback that calls `exit(2)`: the guard around it logs and lets the
      `SystemExit` through, so it escapes `__exit__`, which then records
      nothing in `failed`. */
  method ExitingCallback() returns (outcome: ExitOutcome, failed: Query<bool>)
    ensures outcome == ExitRaises(SystemExit(2)) && failed == Answer(false)
  {
    var cls, global := Load();
    var rec := new Recorder();
    var exiting := Callback(Some("<lambda>"), "<function <lambda>>", Always(Raises(SystemExit(2))));
    var r := global.Call(None, Some(exiting), true, None);
    CallbackRule(r.catcher.Settings(), PRINT, Some(ZERO_DIVISION), CALL_FRAMES, CALL_FRAMES, PyNone);
    assert r.catcher.cls.output == PRINT && r.catcher.result == PyNone;
    outcome := r.catcher.Exit(Some(ZERO_DIVISION), CALL_FRAMES, CALL_FRAMES, rec);
    failed := r.catcher.Failed();
  }
}
