/**
 * `io_error` of Dyon's standard library: the diagnostic reported when an I/O
 * action on a file fails. It names the action and the file, then the error,
 * and puts the error's underlying cause, if any, on a second line.
 */
module Io {
  import opened Wrappers

  /**
   * An `io::Error` as `io_error` sees it: its display text and, when it has an
   * underlying source, that source's display text.
   */
  datatype Error = Error(display: string, source: Option<string>)

  /** The fixed text the message opens with. */
  const Lead: string := "IO Error when attempting to "

  /** The second line: the cause's text, or nothing when there is no cause. */
  function CauseText(err: Error): (tail: string)
    ensures err.source.None? ==> tail == ""
    ensures err.source.Some? ==> tail == err.source.value
  {
    match err.source
    case None => ""
    case Some(cause) => cause
  }

  /** Offset of the line break that ends the first line. */
  function BreakAt(action: string, file: string, err: Error): nat {
    |Lead| + |action| + 2 + |file| + 3 + |err.display|
  }

  /**
   * `io_error(action, file, err)`. Total: every input gives a message, whose
   * first line ends at `BreakAt` and whose second line is the cause text.
   * `MessageLayout` gives the position of every piece.
   */
  function IoError(action: string, file: string, err: Error): (msg: string)
    ensures |msg| == BreakAt(action, file, err) + 1 + |CauseText(err)|
    ensures msg[BreakAt(action, file, err)] == '\n'
  {
    Lead + action + " `" + file + "`: " + err.display + "\n" + CauseText(err)
  }

  /**
   * The layout of the message, piece by piece, at its offset: the lead text,
   * the action, " `", the file, "`: ", the error text, one line break, and the
   * cause text up to the end.
   */
  lemma MessageLayout(action: string, file: string, err: Error)
    ensures var msg := IoError(action, file, err);
      && |msg| == BreakAt(action, file, err) + 1 + |CauseText(err)|
      && msg[..|Lead|] == Lead
      && msg[|Lead|..|Lead| + |action|] == action
      && msg[|Lead| + |action|..|Lead| + |action| + 2] == " `"
      && msg[|Lead| + |action| + 2..|Lead| + |action| + 2 + |file|] == file
      && msg[|Lead| + |action| + 2 + |file|..|Lead| + |action| + 5 + |file|] == "`: "
      && msg[|Lead| + |action| + 5 + |file|..BreakAt(action, file, err)] == err.display
      && msg[BreakAt(action, file, err)] == '\n'
      && msg[BreakAt(action, file, err) + 1..] == CauseText(err)
  {
  }

  /** Without a cause the second line is empty: the message ends with its one line break. */
  lemma NoCauseEndsWithBreak(action: string, file: string, display: string)
    ensures var msg := IoError(action, file, Error(display, None));
      msg == Lead + action + " `" + file + "`: " + display + "\n" && msg[|msg| - 1] == '\n'
  {
  }

  /** With a cause, the message ends with a line break followed by the cause's text. */
  lemma CauseIsLastLine(action: string, file: string, display: string, cause: string)
    ensures var msg := IoError(action, file, Error(display, Some(cause)));
      msg[..|msg| - |cause|] == IoError(action, file, Error(display, None)) &&
      msg[|msg| - |cause| - 1..] == "\n" + cause
  {
  }

  /** Number of occurrences of `c` in `s`. */
  function Count(c: char, s: string): (n: nat)
    ensures n <= |s|
    ensures n == 0 <==> c !in s
  {
    if s == [] then 0 else (if s[0] == c then 1 else 0) + Count(c, s[1..])
  }

  /** Counting distributes over concatenation. */
  lemma {:induction false} CountConcat(c: char, s: string, t: string)
    ensures Count(c, s + t) == Count(c, s) + Count(c, t)
  {
    if s == [] {
      assert s + t == t;
    } else {
      assert (s + t)[1..] == s[1..] + t;
      CountConcat(c, s[1..], t);
    }
  }

  lemma LeadHasNoBreak()
    ensures Count('\n', Lead) == 0
  {
    assert '\n' !in Lead;
  }

  /** The first line's line breaks are those of the action, the file and the error text. */
  lemma HeaderBreaks(action: string, file: string, display: string)
    ensures Count('\n', Lead + action + " `" + file + "`: " + display) ==
      Count('\n', action) + Count('\n', file) + Count('\n', display)
  {
    var s1 := Lead + action;
    var s2 := s1 + " `";
    var s3 := s2 + file;
    var s4 := s3 + "`: ";
    LeadHasNoBreak();
    assert Count('\n', " `") == 0 && Count('\n', "`: ") == 0;
    CountConcat('\n', Lead, action);
    CountConcat('\n', s1, " `");
    CountConcat('\n', s2, file);
    CountConcat('\n', s3, "`: ");
    CountConcat('\n', s4, display);
  }

  /**
   * The message holds exactly one line break of its own; every other line
   * break in it comes from the action, the file, the error text or the cause.
   */
  lemma LineBreaks(action: string, file: string, err: Error)
    ensures Count('\n', IoError(action, file, err)) ==
      1 + Count('\n', action) + Count('\n', file) + Count('\n', err.display) + Count('\n', CauseText(err))
  {
    var header := Lead + action + " `" + file + "`: " + err.display;
    HeaderBreaks(action, file, err.display);
    assert Count('\n', "\n") == 1;
    CountConcat('\n', header, "\n");
    CountConcat('\n', header + "\n", CauseText(err));
  }

  /**
   * When the action, the file and the error text hold no line break, the
   * first line break of the message is the one right after the error text,
   * and the message holds one line break plus those of the cause.
   */
  lemma FirstLineIsHeader(action: string, file: string, err: Error)
    requires '\n' !in action && '\n' !in file && '\n' !in err.display
    ensures var msg := IoError(action, file, err);
      && (forall i :: 0 <= i < BreakAt(action, file, err) ==> msg[i] != '\n')
      && msg[BreakAt(action, file, err)] == '\n'
      && Count('\n', msg) == 1 + Count('\n', CauseText(err))
  {
    var header := Lead + action + " `" + file + "`: " + err.display;
    var msg := IoError(action, file, err);
    LineBreaks(action, file, err);
    HeaderBreaks(action, file, err.display);
    assert '\n' !in header;
    assert msg == header + "\n" + CauseText(err);
    forall i | 0 <= i < BreakAt(action, file, err)
      ensures msg[i] != '\n'
    {
      assert msg[i] == (header + "\n")[i] == header[i];
    }
  }

  /** The messages for reading `data.txt`, without and with a cause. */
  lemma ReadDataTxt(display: string, cause: string)
    ensures IoError("read", "data.txt", Error(display, None)) ==
      "IO Error when attempting to read `data.txt`: " + display + "\n"
    ensures IoError("read", "data.txt", Error(display, Some(cause))) ==
      "IO Error when attempting to read `data.txt`: " + display + "\n" + cause
  {
    assert Lead + "read" + " `" + "data.txt" + "`: " == "IO Error when attempting to read `data.txt`: ";
  }
}
