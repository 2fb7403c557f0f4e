# ExceptionCatcher, modelled in Dafny

`ExceptionCatcher.py` provides one guard against exceptions, usable three ways: as a
`with` block, as a decorator, and as a factory of configured guards. The class
`__ExceptionCatcher` holds an optional zero-argument callback, a `silent` flag and an
optional output function. A class-wide default output (initially `print`) is shared by
every instance built without its own output, and `set_output` replaces it. The module
exports one global instance, `ExceptionCatcher`, and a formatter, `exception_callback`.

When a guarded block raises, `__exit__` does the following:

- It decides whether to swallow the exception. It swallows anything except `SystemExit`
  and `KeyboardInterrupt`.
- Unless the instance is silent, it logs the exception as three output calls: a header,
  the formatted frames with a marker line, and `Name: message`. Nothing is logged when the
  block ended normally or by `SystemExit` with code 0.
- When it swallows and a callback is configured, it announces the callback (unless the
  instance is silent) and runs it inside a nested guard. The callback's value becomes `result`.
- It records its decision in `failed`.

The project has four modules, plus `sequences.dfy` (module `Sequences`), which holds two
proof aids about concatenation and models nothing:

- `exceptions.dfy` (module `Exceptions`): the exceptions, values and callbacks the guard
  sees. It also holds `str()` of an exit code, the `Name: message` line and
  `exception_callback`.
- `traceback.dfy` (module `Traceback`): the traceback text. `FormatTrace` edits the frame
  list in place as `__exit__` does and is proved equal to the function `TraceText`.
- `guard.dfy` (module `Guard`):
  - `ExitSpec` is the meaning of one `__exit__`: its output events, how it ends, and the
    new `result`. Lemmas prove the guard's rules about it.
  - The class `CatcherClass` holds the class attribute `__output`.
  - The class `Catcher` has the instance's fields and the methods `__init__`,
    `set_output`, `failed`, `result`, `__call__`, the wrapper, `__enter__` and
    `__exit__`. Each method is proved against `ExitSpec` or states its new state.
  - `Load` builds the class and the global instance.
  - Outputs are not printed. Each output call is appended to a `Recorder` as
    `Wrote(sink, text)`, and each callback call as `CallbackRun`.
- `scenarios.dfy` (module `Scenarios`): concrete runs of the guard. `f(k) = 1 / k` is
  decorated or run in a block. Most scenarios replay one of the repository's tests, and
  their rows cite it. Such a scenario's `ensures` states every value and outcome the test
  asserts. Where the test only looks for text in an output, or checks that an output is
  empty or not, the `ensures` gives each output's exact lines, or says that no event was
  written at all. `f(1)` and `f(-1)` under a callback are covered once, for any callback,
  by `CallbackPassesValues`. The frames are the model's own choice: the test runner, the
  test method's line, and the frames the exception passed through. The
  scenarios whose rows cite `ExceptionCatcher.py` replay no test: they show a case of the
  code with concrete values.

Behaviour of the code that is easy to misread:

- `SystemExit` with a nonzero code is logged, but it is never swallowed (lines 91-92).
- When the block ends normally, `failed` is reset to false (line 114).
- The guard around the callback is made by calling the global instance with only
  `silent` (line 111). So it has no callback, and it writes to the class-wide default
  output even when the outer instance has its own output.
- That inner guard lets `SystemExit` and `KeyboardInterrupt` raised by the callback
  through. They then escape the outer `__exit__` before `failed` is assigned.
- With a function to wrap, `__call__` ignores `silent` and `output`, and the wrapper runs
  under the instance it was called on (lines 69-80). Passing a function to wrap together
  with a callback is always a `TypeError`. So the call at tests.py:156 raises.

## Model

| member | source | states |
|---|---|---|
| Exceptions.DecimalString | ExceptionCatcher.py:103 | `str()` of an exit code is nonempty and starts with `-` exactly for negative codes; all its other characters are digits with no leading zero (except `0` itself), and they denote the code's absolute value |
| Exceptions.DescribeLayout | ExceptionCatcher.py:103 | the `Name: message` line (also what line 120 returns) is the type name, then `": "`, then `str()` of the exception, each in its own place |
| Exceptions.DescribeSplits | ExceptionCatcher.py:103 | when the type name has no colon, the first colon of the logged `Name: message` line is followed by a space, and the line splits there back into the type name and the message |
| Exceptions.ExceptionCallback | ExceptionCatcher.py:118-120 | while an exception is being handled, it returns a string longer than the exception's type name; with none being handled, it raises `AttributeError` with Python's message |
| Exceptions.ExceptionCallbackReadsBack | ExceptionCatcher.py:118-120 | the returned string splits back into the handled exception's type name and its message |
| Traceback.CallerFrames | ExceptionCatcher.py:95 | `[:-2]` keeps a prefix of the stack, two frames shorter, or nothing when the stack is shorter than two frames |
| Traceback.CaughtFrames | ExceptionCatcher.py:96-99 | same number of frames; the first is replaced by the marker; the inner ones are unchanged; the last (the marker when it is the only one) loses its final character |
| Traceback.DropLast | ExceptionCatcher.py:99 | `s[:-1]` plus the dropped character gives back `s`, and the empty string stays empty |
| Traceback.FormatTrace | ExceptionCatcher.py:95-102 | overwriting the first frame, truncating the last and joining gives exactly `TraceText` |
| Traceback.TraceTextLayout | ExceptionCatcher.py:95-102 | the logged frames are the caller frames in order, then the marker, the inner frames, and the innermost frame without its last character |
| Traceback.OnlyTrailingNewlineDropped | ExceptionCatcher.py:99 | when the innermost frame ends in a newline, only that newline is lost |
| Guard.Reported | ExceptionCatcher.py:90-91 | an exit is reported (logged, unless silent) exactly when an exception arrived and it is not `SystemExit` with code 0 |
| Guard.Decision | ExceptionCatcher.py:88-92 | `__exit__` returns true exactly when an exception arrived and it is neither `SystemExit` nor `KeyboardInterrupt` |
| Guard.CallbackName | ExceptionCatcher.py:107-109 | the announced name is `__name__` when the callback has one, else `str(callback)` |
| Guard.NestedConfig | ExceptionCatcher.py:111 | the guard around the callback has no callback, the class-wide default output and the same `silent` |
| Guard.LogEvents | ExceptionCatcher.py:90-103 | the log before any callback contains only output calls, and a silent instance logs nothing |
| Guard.Announced | ExceptionCatcher.py:106-110 | the announcement is written exactly when the instance is not silent |
| Guard.GuardedRun | ExceptionCatcher.py:111-112 | an exception escapes the callback's run only when the callback raised it and it is a `SystemExit` or `KeyboardInterrupt` |
| Guard.ExitSpec | ExceptionCatcher.py:87-115 | with no exception, nothing is written and `result` is kept; a returned decision is the swallow rule; `__exit__` raises only what the callback raised and always lets through |
| Guard.TracebackReceived | ExceptionCatcher.py:101-103 | the three log lines go, whole and in order, to the one output and to no other |
| Guard.LogShape | ExceptionCatcher.py:101-103 | a reported, non-silent exit begins with the header, the frames and `Name: message` on the instance's output |
| Guard.ExitWithoutCallback | ExceptionCatcher.py:87-115 | without a callback to run, an exit writes only the traceback (when reported and not silent), returns its decision and keeps `result` |
| Guard.WrittenExactlyWhenReported | ExceptionCatcher.py:90-103 | the instance's output receives something exactly when an exception other than `SystemExit(0)` arrived and the instance is not silent |
| Guard.CallbackRule | ExceptionCatcher.py:105-112 | when the exit swallows and has a callback: traceback, announcement unless silent, one callback run, then either the callback's value as `result` or the inner guard's log, with the callback's exception escaping only when it always propagates |
| Guard.NestedGuardIsAnExit | ExceptionCatcher.py:111-112 | what follows the callback's run is exactly an ordinary exit of the inner guard, and the callback's exception escapes exactly when that exit does not swallow it |
| Guard.CallbackRunsOnce | ExceptionCatcher.py:105-112 | the callback runs once when the exit swallows and a callback is configured, and never otherwise |
| Guard.SilentWritesNothing | ExceptionCatcher.py:93-112 | a silent instance, together with the guard around its callback, writes nothing to any output |
| Guard.WrapperOutcome | ExceptionCatcher.py:71-80 | the wrapper returns the target's value when it returned; the target's exception when the exit returned false; `result` when the exit swallowed; and raises what escaped the exit |
| Guard.WrapperResult | ExceptionCatcher.py:69-80 | the wrapper returns the target's value; it lets through what is not swallowed; otherwise it returns `result`, which is the callback's value, or the earlier result when there is no callback or the callback raised |
| Guard.CatcherClass.constructor | ExceptionCatcher.py:12 | the class-wide default output starts as `print` |
| Guard.Catcher.constructor | ExceptionCatcher.py:14-32 | stores callback, `silent` and the own output (if given); `result` is `None`, `failed` is false |
| Guard.Catcher.Global | ExceptionCatcher.py:124 | the global instance has no callback, is not silent, has no own output and is the one instance that is global |
| Guard.Catcher.Sink | ExceptionCatcher.py:31-32 | `self.__output`, as lines 101-103 and 110 read it, is the instance's own output when one was given, else the class-wide default as it is when the output is used |
| Guard.Catcher.SetOutput | ExceptionCatcher.py:34-36 | every instance of the class without its own output now writes to the new output, including those that already exist; the others keep theirs |
| Guard.Catcher.Failed | ExceptionCatcher.py:38-48 | the global instance, and only it, raises `AssertionError` with the message "Unable to get state of global ExceptionCatcher, use an instance instead"; every other instance answers `failed` |
| Guard.Catcher.Result | ExceptionCatcher.py:50-55 | the global instance, and only it, raises `AssertionError` with the message "Unable to get result of global ExceptionCatcher, use an instance instead"; every other instance answers `result` |
| Guard.Catcher.Call | ExceptionCatcher.py:57-80 | a function to wrap together with a callback is a `TypeError`; without a function, the result is a fresh instance of the same class with exactly the given configuration; with one, the result is the wrapper bound to this instance |
| Guard.Catcher.Enter | ExceptionCatcher.py:84-85 | `__enter__` hands back the instance itself |
| Guard.Catcher.Report | ExceptionCatcher.py:94-103 | writes exactly the three traceback lines to the instance's current output |
| Guard.Catcher.Judge | ExceptionCatcher.py:88-103 | returns the swallow decision and writes exactly `LogEvents` |
| Guard.Catcher.Announce | ExceptionCatcher.py:106-110 | writes exactly the announcement, unless silent |
| Guard.Catcher.RunGuarded | ExceptionCatcher.py:111-112 | the callback's run inside a fresh inner guard has exactly the effect `GuardedRun`; `failed` is untouched |
| Guard.Catcher.Exit | ExceptionCatcher.py:87-115 | the events, the outcome and the new `result` are those of `ExitSpec`; `failed` becomes the decision when `__exit__` returns, and is unchanged when the callback's exception escapes |
| Guard.Catcher.Invoke | ExceptionCatcher.py:69-80 | one call of the wrapper: the exit of a `with self:` block around the target, and the wrapper's return as `WrapperResult` describes |
| Guard.Load | ExceptionCatcher.py:124 | loading the module gives a fresh class whose default output is `print`, and the global instance with nothing caught yet |
| Scenarios.GlobalDecorator | test_ExceptionCatcher.py:10-17 | `f(1)` gives 1.0, `f(0)` gives `None`, `f(-1)` gives -1.0 under the global decorator |
| Scenarios.GlobalRefusesState | test_ExceptionCatcher.py:24-34 | the global instance swallows the division by zero, but asking it for `failed` or `result` raises `AssertionError` |
| Scenarios.InterruptPropagates | test_ExceptionCatcher.py:36-43 | a `KeyboardInterrupt` is let through, as the test asserts; the model also shows that `print` first receives exactly the header, the runner's frame with the marker, and `KeyboardInterrupt: ` |
| Scenarios.ExitZero | test_ExceptionCatcher.py:45-54 | `exit(0)` propagates and nothing at all is written, to any output |
| Scenarios.ExitOne | test_ExceptionCatcher.py:56-67 | `exit(1)` propagates after output is written, as the test asserts; the model also shows that the output receives exactly the header, the runner's frame, the marker and the raising line of `exit`, and `SystemExit: 1` |
| Scenarios.WrongArguments | test_ExceptionCatcher.py:69-71 | a function to wrap together with a callback is a `TypeError` with the source's message |
| Scenarios.CallbackValue | test_ExceptionCatcher.py:82-89 | with `callback=lambda: 69`, `f(0)` gives 69 |
| Scenarios.CallbackPassesValues | test_ExceptionCatcher.py:82-89 | under a decorator given any callback, `f(1)` gives 1.0 and `f(-1)` gives -1.0, because the callback only runs on an exception; with `exception_callback` or `partial(callback, 69)` as the callback this is also what test_ExceptionCatcher.py lines 146 and 148 and tests.py lines 179 and 181 assert |
| Scenarios.DescribingCallback | test_ExceptionCatcher.py:141-148 | with `exception_callback` as the callback, `f(0)` gives `ZeroDivisionError: division by zero` |
| Scenarios.CallbackInBlock | test_ExceptionCatcher.py:117-139 | the callback runs once, `failed` is true and `result` is 69 |
| Scenarios.NamelessCallback | tests.py:171-181 | with `callback=partial(callback, 69)`, `f(0)` gives 69, and the callback, which has no `__name__`, is announced by its `str` |
| Scenarios.SilentWrapper | test_ExceptionCatcher.py:150-159 | a silent decorated `f(1), f(0), f(-1)` writes nothing at all, to any output |
| Scenarios.CallTrace | ExceptionCatcher.py:95-102 | the logged frames of a call through the wrapper are the runner's frame, the calling line, the marker and `return 1 / k` |
| Scenarios.InterruptTrace | ExceptionCatcher.py:95-102 | an exception raised by the test method itself has one traceback frame, which becomes the marker without its newline |
| Scenarios.ExitTrace | ExceptionCatcher.py:95-102 | `exit(1)` in a block logs the runner's frame, the marker, and the line of `exit` that raises, without its newline |
| Scenarios.ZeroLogged | ExceptionCatcher.py:100-103 | logging a division by zero to one output gives it exactly the header, the frames and `ZeroDivisionError: division by zero`, and gives every other output nothing |
| Scenarios.ExitOneDescribed | ExceptionCatcher.py:103 | `SystemExit(1)` is described as `SystemExit: 1` |
| Scenarios.LoggedOutput | test_ExceptionCatcher.py:172-188 | the output receives exactly the header, the frames with `f(1), f(0), f(-1)`, the marker and `return 1 / k`, and `ZeroDivisionError: division by zero`, so every snippet the test looks for |
| Scenarios.GlobalLogsTo | tests.py:93-121 | the global instance logs the division by zero, with the calling line, to its current class-wide default only |
| Scenarios.RedirectedDefault | tests.py:93-121 | after `set_output`, the next call of an existing decorated `f` writes the exact log with `f(1), f(0), f(-1)` to the new output and nothing to `print` |
| Scenarios.RestoredDefault | tests.py:93-121 | once the default is back to `print`, `g(0)` writes the exact log with `g(1), g(0), g(-1)` to `print` and nothing to the previous output |
| Scenarios.OwnOutputUsed | tests.py:279-304 | a function decorated with its own output writes the exact log of `f(0)`, with `f(1), f(0), f(-1)`, there, and nothing to `print` |
| Scenarios.DefaultOutputBeside | tests.py:279-304 | a plain decorated `g` writes the exact log of `g(0)`, with `g(1), g(0), g(-1)`, to `print`, and nothing to the other output |
| Scenarios.OwnOutputKept | ExceptionCatcher.py:31-36 | an instance with its own output writes the exact log there, also after `set_output` changes the class-wide default, and nothing to that default |
| Scenarios.RaisingCallbackSinks | ExceptionCatcher.py:105-112 | a callback raising `ValueError` under an instance with its own output: four lines on that output, and three on the class-wide default from the inner guard; swallowed, `result` kept |
| Scenarios.RaisingCallback | ExceptionCatcher.py:105-115 | the same run through `__exit__`: swallowed, with `result` still `None` |
| Scenarios.ExitingCallback | ExceptionCatcher.py:111-115 | a callback calling `exit(2)` makes `__exit__` raise `SystemExit(2)`, and `failed` stays false |

## Left out

- Output functions are not called. Each output call is recorded with a sink number and
  its text.
- An output function that is a plain Python function and is installed as the class-wide
  default would be bound as a method when read through an instance, so it would be called
  with the instance as an extra argument. The model treats every output as called with the
  text alone, as `print`, `functools.partial` objects and bound methods such as
  `list.append` are.
- The frames come from `traceback.extract_stack` and `traceback.extract_tb`. They are
  taken as inputs (already formatted strings) and not computed from a real call stack.
- An exception is reduced to its type name and its `str()`. `SystemExit` is modelled only
  with an integer code, so `exit("message")` and `exit(None)` are not modelled.
- The traceback of a caught exception always holds at least one frame (the type
  `RaisedFrames`), as it does for every exception raised in a guarded block. A direct call
  `__exit__(t, v, None)` would fail with `IndexError` at line 98. The model cannot express
  that call.
- Subclasses of `SystemExit` and `KeyboardInterrupt` count as other exceptions, because
  the source compares types by identity.
- A callback is modelled by what it does: it always returns or raises the same thing, or
  it behaves as `exception_callback`. Callbacks with other side effects, or whose outcome
  depends on outside state, are not modelled.
- The wrapper's `functools.wraps` metadata and keyword arguments are not modelled. The
  target is a function from a list of positional values to an outcome.
- `failed` and `result` on the global instance raise `AssertionError` through `assert`.
  Running Python with `-O` would remove those checks, and that is not modelled.
- Threads are not modelled: two guards running at once share the class-wide default
  output.
- `__is_global` compares the instance with whatever the module name `ExceptionCatcher`
  is bound to. The model fixes that binding to the instance built at load time
  (`Catcher.Global`), because the module never rebinds it.
- Exceptions.ExceptionCallback: the `ensures` states only the length and kind of the
  returned string. The exact text is the function's body, and `ExceptionCallbackReadsBack`
  states that it reads back.
