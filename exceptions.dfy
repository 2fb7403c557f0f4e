/** Python values, exceptions and zero-argument callbacks as the guard sees them.

    An exception is reduced to what the guard inspects: whether its type is
    exactly `SystemExit` (and then its exit code), exactly `KeyboardInterrupt`,
    or anything else (a type name and the text `str(exc)` gives). Subclasses of
    `SystemExit` and `KeyboardInterrupt` are `Other`, because the guard
    compares types by identity. */
module Exceptions {

  datatype Option<+T> = None | Some(value: T) {
    function GetOr(default: T): T {
      match this
      case Some(v) => v
      case None => default
    }
  }

  /** An exception value: its class and the parts of it the guard reads.
      `msg` is what `str()` gives for the exception (empty for a bare
      `raise KeyboardInterrupt`). */
  datatype Exc =
    | Other(name: string, msg: string)
    | SystemExit(code: int)
    | KeyboardInterrupt(msg: string)

  /** The values Python code hands back; only what the scenarios need. */
  datatype Value = PyNone | PyInt(i: int) | PyReal(r: real) | PyStr(s: string)

  /** What calling a piece of Python code does: return a value or raise. */
  datatype Outcome = Returns(value: Value) | Raises(error: Exc)

  /** What a callback does when called: always the same outcome (as a
      lambda returning 69 or raising does), or what `exception_callback`
      does. */
  datatype Behaviour = Always(outcome: Outcome) | DescribeHandled

  /** A zero-argument callback. `name` is its `__name__` when it has one
      (functions and lambdas do, `functools.partial` objects do not), and
      `repr` is `str(callback)`. */
  datatype Callback = Callback(name: Option<string>, repr: string, behaviour: Behaviour) {
    /** Calling it while `current` is the exception being handled, as
        `sys.exc_info()` would report it inside the callback. */
    function Run(current: Option<Exc>): Outcome {
      match behaviour
      case Always(outcome) => outcome
      case DescribeHandled => ExceptionCallback(current)
    }
  }

  /** The number a string of decimal digits denotes, read most significant
      digit first. */
  function DigitsValue(s: string): int {
    if s == [] then 0 else DigitsValue(s[..|s| - 1]) * 10 + (s[|s| - 1] as int - '0' as int)
  }

  /** The decimal digits of a natural number, most significant first, with
      no leading zero except in "0" itself. */
  function NatString(n: nat): (s: string)
    ensures |s| >= 1
    ensures forall i :: 0 <= i < |s| ==> '0' <= s[i] <= '9'
    ensures s[0] != '0' || s == "0"
    ensures DigitsValue(s) == n
    decreases n
  {
    var digit := ('0' as int + n % 10) as char;
    if n < 10 then
      assert [digit][..0] == [];
      [digit]
    else
      var high := NatString(n / 10);
      assert (high + [digit])[..|high|] == high;
      high + [digit]
  }

  /** `str(n)` for a Python `int`: the digits of `n` without leading zeros,
      after a minus sign when `n` is negative. */
  function DecimalString(n: int): (s: string)
    ensures |s| >= 1
    ensures (s[0] == '-') <==> n < 0
    ensures forall i :: 0 < i < |s| ==> '0' <= s[i] <= '9'
    ensures n >= 0 ==> '0' <= s[0] <= '9' && DigitsValue(s) == n
    ensures n < 0 ==> DigitsValue(s[1..]) == -n
    ensures n >= 0 ==> s[0] != '0' || s == "0"
    ensures n < 0 ==> |s| >= 2 && s[1] != '0'
  {
    if n < 0 then
      var digits := NatString(-n);
      assert ("-" + digits)[1..] == digits;
      "-" + digits
    else NatString(n)
  }

  /** `exc_type.__name__`. */
  function TypeName(e: Exc): string {
    match e
    case Other(name, _) => name
    case SystemExit(_) => "SystemExit"
    case KeyboardInterrupt(_) => "KeyboardInterrupt"
  }

  /** `str(exc_val)`: the message, or the exit code for `SystemExit`. */
  function Message(e: Exc): string {
    match e
    case Other(_, msg) => msg
    case SystemExit(code) => DecimalString(code)
    case KeyboardInterrupt(msg) => msg
  }

  /** The line `Name: message` that ends a logged traceback and that
      `exception_callback` returns. */
  function Describe(e: Exc): string {
    TypeName(e) + ": " + Message(e)
  }

  /** The description is the type name, a colon and a space, then `str()`
      of the exception, each in its own place. */
  lemma DescribeLayout(e: Exc)
    ensures |Describe(e)| == |TypeName(e)| + 2 + |Message(e)|
    ensures Describe(e)[..|TypeName(e)|] == TypeName(e)
    ensures Describe(e)[|TypeName(e)|..|TypeName(e)| + 2] == ": "
    ensures Describe(e)[|TypeName(e)| + 2..] == Message(e)
  {
  }

  /** Position of the first ':' in `s`, or `|s|` when there is none. */
  function FirstColon(s: string): (i: nat)
    ensures i <= |s|
    ensures forall j :: 0 <= j < i ==> s[j] != ':'
    ensures i < |s| ==> s[i] == ':'
  {
    if s == [] || s[0] == ':' then 0 else 1 + FirstColon(s[1..])
  }

  /** Reads a `Name: message` line back into its two parts; `None` when
      the first ':' is missing or not followed by a space. */
  function SplitDescription(line: string): Option<(string, string)> {
    var i := FirstColon(line);
    if i + 2 <= |line| && line[i..i + 2] == ": " then Some((line[..i], line[i + 2..])) else None
  }

  lemma {:induction false} FirstColonAfterName(name: string, rest: string)
    requires ':' !in name
    requires |rest| > 0 && rest[0] == ':'
    ensures FirstColon(name + rest) == |name|
  {
    if name != [] {
      assert (name + rest)[1..] == name[1..] + rest;
      FirstColonAfterName(name[1..], rest);
    } else {
      assert name + rest == rest;
    }
  }

  /** The description line loses nothing: an exception type name never holds
      a ':', so the name and the message can be read back from it. */
  lemma DescribeSplits(e: Exc)
    requires ':' !in TypeName(e)
    ensures SplitDescription(Describe(e)) == Some((TypeName(e), Message(e)))
  {
    var name, msg := TypeName(e), Message(e);
    assert Describe(e) == name + (": " + msg);
    FirstColonAfterName(name, ": " + msg);
  }

  /** `exception_callback()`: formats the exception currently being handled
      as `Name: message`. With none being handled, `sys.exc_info()` yields
      `None` and reading `None.__name__` raises `AttributeError`. */
  function ExceptionCallback(current: Option<Exc>): (r: Outcome)
    ensures current.Some? ==> r.Returns? && r.value.PyStr? && |r.value.s| > |TypeName(current.value)|
    ensures current.None? ==> r.Raises? && r.error == Other("AttributeError", "'NoneType' object has no attribute '__name__'")
  {
    match current
    case Some(e) =>
      Returns(PyStr(Describe(e)))
    case None => Raises(Other("AttributeError", "'NoneType' object has no attribute '__name__'"))
  }

  /** What `exception_callback` returns names the handled exception's type
      and carries its message unchanged. */
  lemma ExceptionCallbackReadsBack(e: Exc)
    requires ':' !in TypeName(e)
    ensures ExceptionCallback(Some(e)).Returns?
    ensures SplitDescription(ExceptionCallback(Some(e)).value.s) == Some((TypeName(e), Message(e)))
  {
    DescribeSplits(e);
  }
}
