/** The traceback text the guard logs for a caught exception.

    The frames are taken as already formatted: `stack` is what
    `traceback.format_list(traceback.extract_stack())` yields inside `__exit__`
    (outermost first, the two innermost being the guarded block's own frame
    and `__exit__` itself), and `tb` is what
    `traceback.format_list(traceback.extract_tb(exc_tb))` yields for the
    caught exception (first the frame holding the guarded block, then the
    frames down to the `raise`). Each entry normally ends in a newline. */
module Traceback {
  import opened Sequences

  const HEADER := "Traceback (most recent call last):"

  /** Stands in for the first frame of the exception's own traceback. */
  const MARKER := " =Exception caught here=\n"

  /** A traceback of a caught exception is never empty: it holds at least
      the frame in which the guarded block raised. */
  type RaisedFrames = s: seq<string> | |s| >= 1 witness [""]

  /** `''.join(parts)`. */
  function Concat(parts: seq<string>): string {
    if parts == [] then "" else parts[0] + Concat(parts[1..])
  }

  lemma {:induction false} ConcatAppend(a: seq<string>, b: seq<string>)
    ensures Concat(a + b) == Concat(a) + Concat(b)
  {
    if a == [] {
      assert a + b == b;
    } else {
      assert (a + b)[1..] == a[1..] + b;
      ConcatAppend(a[1..], b);
    }
  }

  /** `s[:-1]`: every character but the last; the empty string stays empty. */
  function DropLast(s: string): (r: string)
    ensures |s| > 0 ==> r + [s[|s| - 1]] == s
    ensures |s| == 0 ==> r == ""
  {
    if |s| == 0 then s else s[..|s| - 1]
  }

  /** `stack[:-2]`: the call stack without the guard's two innermost frames. */
  function CallerFrames(stack: seq<string>): (r: seq<string>)
    ensures |r| == if |stack| >= 2 then |stack| - 2 else 0
    ensures r <= stack
  {
    if |stack| >= 2 then stack[..|stack| - 2] else []
  }

  /** The exception's own frames as they are logged: the first one is
      replaced by the marker, and the last one (which is the marker itself
      when there is only one) loses its final character. */
  function CaughtFrames(tb: RaisedFrames): (r: seq<string>)
    ensures |r| == |tb|
    ensures |tb| >= 2 ==> r[0] == MARKER && r[1..|tb| - 1] == tb[1..|tb| - 1]
    ensures r[|tb| - 1] == DropLast(if |tb| == 1 then MARKER else tb[|tb| - 1])
  {
    if |tb| == 1 then [DropLast(MARKER)]
    else [MARKER] + tb[1..|tb| - 1] + [DropLast(tb[|tb| - 1])]
  }

  /** The second of the three logged outputs: caller frames, then the
      exception's frames with the marker in front. */
  function TraceText(stack: seq<string>, tb: RaisedFrames): string {
    Concat(CallerFrames(stack) + CaughtFrames(tb))
  }

  /** Builds the traceback text the way `__exit__` does: it copies the
      exception's frame list, overwrites its first entry with the marker,
      then chops the last character off its last entry, and joins the
      caller frames and this list. */
  method FormatTrace(stack: seq<string>, tb: RaisedFrames) returns (text: string)
    ensures text == TraceText(stack, tb)
  {
    var before := if |stack| >= 2 then stack[..|stack| - 2] else [];
    var after := tb;
    after := after[0 := MARKER];
    after := after[|after| - 1 := DropLast(after[|after| - 1])];
    assert |tb| == 1 ==> after == [DropLast(MARKER)];
    assert |tb| >= 2 ==> after == [MARKER] + tb[1..|tb| - 1] + [DropLast(tb[|tb| - 1])];
    assert before == CallerFrames(stack);
    text := Concat(before + after);
  }

  /** The logged text starts with every caller frame, whole and in order;
      after them come the marker, the exception's inner frames unchanged,
      and its innermost frame without its last character. */
  lemma TraceTextLayout(stack: seq<string>, tb: RaisedFrames)
    requires |tb| >= 2
    ensures TraceText(stack, tb) ==
              Concat(CallerFrames(stack)) + MARKER + Concat(tb[1..|tb| - 1]) + DropLast(tb[|tb| - 1])
  {
    var mid := tb[1..|tb| - 1];
    var last := DropLast(tb[|tb| - 1]);
    ConcatAppend(CallerFrames(stack), CaughtFrames(tb));
    ConcatAppend([MARKER] + mid, [last]);
    ConcatAppend([MARKER], mid);
    assert Concat([last]) == last + Concat([]);
    assert Concat([MARKER]) == MARKER + Concat([]);
  }

  /** Only the trailing newline is lost: when the innermost frame ends in a
      newline, putting it back gives the marker followed by all of the
      exception's frames but the first, joined. */
  lemma {:induction false} OnlyTrailingNewlineDropped(tb: RaisedFrames)
    requires |tb| >= 2
    requires |tb[|tb| - 1]| > 0 && tb[|tb| - 1][|tb[|tb| - 1]| - 1] == '\n'
    ensures Concat(CaughtFrames(tb)) + "\n" == MARKER + Concat(tb[1..])
  {
    var mid := tb[1..|tb| - 1];
    var lastFrame := tb[|tb| - 1];
    var chopped := DropLast(lastFrame);
    assert chopped + "\n" == lastFrame;
    ConcatAppend([MARKER] + mid, [chopped]);
    ConcatAppend([MARKER], mid);
    ConcatAppend(mid, [lastFrame]);
    assert tb[1..] == mid + [lastFrame];
    assert Concat([chopped]) == chopped;
    assert Concat([lastFrame]) == lastFrame;
    assert Concat([MARKER]) == MARKER;
    assert Concat(CaughtFrames(tb)) == MARKER + Concat(mid) + chopped;
    assert Concat(tb[1..]) == Concat(mid) + lastFrame;
    AppendAssoc(MARKER + Concat(mid), chopped, "\n");
    AppendAssoc(MARKER, Concat(mid), lastFrame);
  }
}
