/** The output capture of runScript: the script's standard output and then its standard
    error are read line by line; every line is trimmed and logged, and, when output is
    to be shown, appended with a newline to one buffer while a line counter goes up.
    The captured text is then shown either in a scrollable dialog ("big") or in a tray
    notification ("small"). */
module OutputCapture {
  import opened JavaText

  /** A line as BufferedReader.readLine delivers it: its terminator is gone, and it
      holds neither '\n' nor '\r'. */
  predicate IsReadLine(l: string) {
    forall i :: 0 <= i < |l| ==> l[i] != '\n' && l[i] != '\r'
  }

  /** A process stream as runScript sees it: the lines readLine returns, then either the
      end of the stream (None) or an IOException with its message. */
  datatype Stream = Stream(lines: seq<string>, failure: Option<string>)

  predicate WellFormed(st: Stream) {
    forall l :: l in st.lines ==> IsReadLine(l)
  }

  /** How the try block of runScript ends: the text and line count it built, or the
      message of the exception that cut it short (the buffer is then lost). */
  datatype Capture = Completed(text: string, lines: nat) | Aborted(message: string)

  /** The trimmed lines, as they are printed to the log. */
  function Trimmed(ls: seq<string>): (r: seq<string>)
    ensures |r| == |ls|
  {
    if ls == [] then [] else [Trim(ls[0])] + Trimmed(ls[1..])
  }

  /** What the StringBuilder holds after appending trim(l) and "\n" for each line. */
  function Joined(ls: seq<string>): string {
    if ls == [] then "" else Trim(ls[0]) + "\n" + Joined(ls[1..])
  }

  lemma {:induction false} TrimmedAppend(a: seq<string>, b: seq<string>)
    ensures Trimmed(a + b) == Trimmed(a) + Trimmed(b)
  {
    if a == [] {
      assert a + b == b;
    } else {
      assert (a + b)[0] == a[0] && (a + b)[1..] == a[1..] + b;
      TrimmedAppend(a[1..], b);
    }
  }

  lemma {:induction false} JoinedAppend(a: seq<string>, b: seq<string>)
    ensures Joined(a + b) == Joined(a) + Joined(b)
  {
    if a == [] {
      assert a + b == b;
    } else {
      assert (a + b)[0] == a[0] && (a + b)[1..] == a[1..] + b;
      JoinedAppend(a[1..], b);
    }
  }

  /** Reading one more line extends the log by its trimmed form. */
  lemma TrimmedSnoc(done: seq<string>, s: string)
    ensures Trimmed(done + [s]) == Trimmed(done) + [Trim(s)]
  {
    assert Trimmed([s]) == [Trim(s)] by {
      assert [s][1..] == [];
    }
    TrimmedAppend(done, [s]);
  }

  /** Reading one more shown line extends the buffer by its trimmed form and a newline. */
  lemma JoinedSnoc(done: seq<string>, s: string)
    ensures Joined(done + [s]) == Joined(done) + Trim(s) + "\n"
  {
    assert Joined([s]) == Trim(s) + "\n" by {
      assert [s][1..] == [];
    }
    JoinedAppend(done, [s]);
  }

  /** The reference definition of the capture: stdout is drained before stderr, the
      first exception ends the capture, and only a shown capture fills the buffer. */
  function Captured(stdout: Stream, stderr: Stream, showOutput: bool): Capture {
    if stdout.failure.Some? then Aborted(stdout.failure.value)
    else if stderr.failure.Some? then Aborted(stderr.failure.value)
    else if showOutput then
      Completed(Joined(stdout.lines) + Joined(stderr.lines), |stdout.lines| + |stderr.lines|)
    else Completed("", 0)
  }

  /** The lines the capture prints to the log, shown or not: all of stdout, then all of
      stderr unless stdout failed. */
  function CaptureLog(stdout: Stream, stderr: Stream): seq<string> {
    if stdout.failure.Some? then Trimmed(stdout.lines)
    else Trimmed(stdout.lines) + Trimmed(stderr.lines)
  }

  /** How a launch goes: ProcessBuilder.start throws with a message, or the process
      starts and its two streams deliver what they deliver. */
  datatype Launch = StartFailed(message: string) | Started(stdout: Stream, stderr: Stream)

  /** How the try block of runScript ends for a launch. */
  function Outcome(launch: Launch, showOutput: bool): Capture {
    match launch
    case StartFailed(message) => Aborted(message)
    case Started(stdout, stderr) => Captured(stdout, stderr, showOutput)
  }

  /** The output lines the try block prints to the log for a launch. */
  function OutcomeLog(launch: Launch): seq<string> {
    match launch
    case StartFailed(_) => []
    case Started(stdout, stderr) => CaptureLog(stdout, stderr)
  }

  /** One `while ((s = reader.readLine()) != null)` loop of runScript over the lines a
      stream delivers: each trimmed line goes to the log and, when output is shown, to
      the buffer with a '\n' while the counter goes up. */
  method ReadLoop(lines: seq<string>, showOutput: bool, output0: string, count0: int,
                  ghost logged0: seq<string>)
    returns (output: string, count: int, ghost logged: seq<string>)
    ensures logged == logged0 + Trimmed(lines)
    ensures output == if showOutput then output0 + Joined(lines) else output0
    ensures count == if showOutput then count0 + |lines| else count0
  {
    output, count, logged := output0, count0, logged0;
    var i := 0;
    while i < |lines|
      invariant 0 <= i <= |lines|
      invariant logged == logged0 + Trimmed(lines[..i])
      invariant output == if showOutput then output0 + Joined(lines[..i]) else output0
      invariant count == if showOutput then count0 + i else count0
    {
      var s := lines[i];
      assert lines[..i + 1] == lines[..i] + [s];
      TrimmedSnoc(lines[..i], s);
      JoinedSnoc(lines[..i], s);
      logged := logged + [Trim(s)];
      if showOutput {
        output := output + Trim(s) + "\n";
        count := count + 1;
      }
      i := i + 1;
    }
    assert lines[..i] == lines;
  }

  /** The capture part of runScript: stdout is drained first, then stderr, into one
      buffer and one counter; `logged` is what the two loops print to the log. */
  method CaptureOutput(stdout: Stream, stderr: Stream, showOutput: bool)
    returns (c: Capture, ghost logged: seq<string>)
    ensures c == Captured(stdout, stderr, showOutput)
    ensures logged == CaptureLog(stdout, stderr)
  {
    var output, lines;
    output, lines, logged := ReadLoop(stdout.lines, showOutput, "", 0, []);
    assert "" + Joined(stdout.lines) == Joined(stdout.lines);
    assert [] + Trimmed(stdout.lines) == Trimmed(stdout.lines);
    if stdout.failure.Some? {
      return Aborted(stdout.failure.value), logged;
    }
    output, lines, logged := ReadLoop(stderr.lines, showOutput, output, lines, logged);
    if stderr.failure.Some? {
      return Aborted(stderr.failure.value), logged;
    }
    assert lines >= 0;
    c := Completed(output, lines);
  }

  // ---------------------------------------------------------------- reading the text back

  /** The position of the first '\n' in t, or |t| if there is none. */
  function NewlineIndex(t: string): (k: nat)
    ensures k <= |t|
    ensures forall i :: 0 <= i < k ==> t[i] != '\n'
    ensures k < |t| ==> t[k] == '\n'
  {
    if t == [] || t[0] == '\n' then 0 else 1 + NewlineIndex(t[1..])
  }

  /** The lines a reader sees in a captured text, each one ended by '\n'. */
  function TextLines(t: string): seq<string>
    decreases |t|
  {
    if t == [] then []
    else
      var k := NewlineIndex(t);
      if k == |t| then [t] else [t[..k]] + TextLines(t[k + 1..])
  }

  lemma TrimKeepsReadLine(l: string)
    requires IsReadLine(l)
    ensures IsReadLine(Trim(l))
  {
    TrimIsInfix(l);
    var k := |l| - |TrimLeading(l)|;
    var r := Trim(l);
    forall i | 0 <= i < |r|
      ensures r[i] != '\n' && r[i] != '\r'
    {
      assert r[i] == l[k + i];
    }
  }

  lemma NewlineIndexOf(a: string, b: string)
    requires IsReadLine(a)
    ensures NewlineIndex(a + "\n" + b) == |a|
  {
    var t := a + "\n" + b;
    var k := NewlineIndex(t);
    assert t[|a|] == '\n';
  }

  /** The buffer splits back into exactly the trimmed lines that built it. */
  lemma {:induction false} TextLinesOfJoined(ls: seq<string>)
    requires forall l :: l in ls ==> IsReadLine(l)
    ensures TextLines(Joined(ls)) == Trimmed(ls)
  {
    if ls != [] {
      var head := Trim(ls[0]);
      TrimKeepsReadLine(ls[0]);
      NewlineIndexOf(head, Joined(ls[1..]));
      var t := Joined(ls);
      assert t == head + "\n" + Joined(ls[1..]);
      assert t[..|head|] == head;
      assert t[|head| + 1..] == Joined(ls[1..]);
      TextLinesOfJoined(ls[1..]);
    }
  }

  /** Each captured line adds at least its '\n' to the text. */
  lemma {:induction false} JoinedLength(ls: seq<string>)
    ensures JavaLength(Joined(ls)) >= |ls|
  {
    if ls != [] {
      JoinedLength(ls[1..]);
      JavaLengthAppend(Trim(ls[0]) + "\n", Joined(ls[1..]));
    }
  }

  /** A shown capture: the counter is the number of stdout and stderr lines, and the
      text reads back as the trimmed stdout lines followed by the trimmed stderr lines,
      in their original order, whatever order the process wrote them in. */
  lemma ShownCapture(stdout: Stream, stderr: Stream)
    requires WellFormed(stdout) && WellFormed(stderr)
    requires stdout.failure.None? && stderr.failure.None?
    ensures Captured(stdout, stderr, true).lines == |stdout.lines| + |stderr.lines|
    ensures TextLines(Captured(stdout, stderr, true).text)
         == Trimmed(stdout.lines) + Trimmed(stderr.lines)
    ensures JavaLength(Captured(stdout, stderr, true).text) >= |stdout.lines| + |stderr.lines|
  {
    JoinedAppend(stdout.lines, stderr.lines);
    TextLinesOfJoined(stdout.lines + stderr.lines);
    TrimmedAppend(stdout.lines, stderr.lines);
    JoinedLength(stdout.lines + stderr.lines);
  }

  /** A hidden capture leaves the buffer empty and the counter at zero, yet the log
      still receives every trimmed line of both streams in read order. */
  lemma HiddenCapture(stdout: Stream, stderr: Stream)
    requires stdout.failure.None? && stderr.failure.None?
    ensures Captured(stdout, stderr, false) == Completed("", 0)
    ensures CaptureLog(stdout, stderr) == Trimmed(stdout.lines + stderr.lines)
  {
    TrimmedAppend(stdout.lines, stderr.lines);
  }

  // ---------------------------------------------------------------- classification

  /** The condition of runScript choosing the dialog over the notification. */
  predicate IsBigOutput(textLength: int, lines: int, lettersUntilBigOutput: int, linesUntilBigOutput: int)
    ensures lines <= linesUntilBigOutput ==>
      (IsBigOutput(textLength, lines, lettersUntilBigOutput, linesUntilBigOutput)
       <==> lettersUntilBigOutput <= textLength)
    ensures textLength < lettersUntilBigOutput ==>
      (IsBigOutput(textLength, lines, lettersUntilBigOutput, linesUntilBigOutput)
       <==> linesUntilBigOutput < lines)
  {
    textLength >= lettersUntilBigOutput || lines > linesUntilBigOutput
  }

  /** What runScript puts on screen at the end of a run. */
  datatype Display =
    | NoDisplay
    | OutputDialog(title: string, text: string)   // scrollable, read-only text area
    | TrayNotification(caption: string, text: string)
    | ErrorDialog(message: string)

  /** The rendering of a completed capture: nothing unless output is shown, otherwise
      exactly one of the dialog (big) and the notification (small). */
  function Presentation(showOutput: bool, scriptName: string, text: string, lines: int,
                        lettersUntilBigOutput: int, linesUntilBigOutput: int): (d: Display)
    ensures !showOutput <==> d == NoDisplay
    ensures d.OutputDialog? <==>
      showOutput && IsBigOutput(JavaLength(text), lines, lettersUntilBigOutput, linesUntilBigOutput)
    ensures d.TrayNotification? <==>
      showOutput && !IsBigOutput(JavaLength(text), lines, lettersUntilBigOutput, linesUntilBigOutput)
    ensures d.OutputDialog? || d.TrayNotification? ==> d.text == text
  {
    if !showOutput then NoDisplay
    else if IsBigOutput(JavaLength(text), lines, lettersUntilBigOutput, linesUntilBigOutput) then
      OutputDialog("Output (" + scriptName + ")", text)
    else TrayNotification(scriptName, text)
  }

  /** The default thresholds 120 and 4: 119 characters on 4 lines is small, 120
      characters is big, 5 lines is big whatever the length. */
  lemma DefaultThresholdExamples(length: nat)
    ensures !IsBigOutput(119, 4, 120, 4)
    ensures IsBigOutput(120, 0, 120, 4)
    ensures IsBigOutput(length, 5, 120, 4)
  {
  }

  /** Longer text or more lines never turns big output small. */
  lemma BigOutputMonotone(l1: int, n1: int, l2: int, n2: int, letters: int, lines: int)
    requires IsBigOutput(l1, n1, letters, lines)
    requires l1 <= l2 && n1 <= n2
    ensures IsBigOutput(l2, n2, letters, lines)
  {
  }

  /** An empty shown capture reaches the notification branch, so an empty tray message
      is displayed, exactly when the letters threshold is above 0 and the lines threshold
      is not negative, as with the defaults 120 and 4; otherwise it opens the dialog. */
  lemma EmptyCaptureIsNotified(scriptName: string, letters: int, linesLimit: int)
    ensures (Presentation(true, scriptName, "", 0, letters, linesLimit)
             == TrayNotification(scriptName, "")) <==> 0 < letters && 0 <= linesLimit
    ensures !(0 < letters && 0 <= linesLimit) ==>
      Presentation(true, scriptName, "", 0, letters, linesLimit).OutputDialog?
  {
    assert JavaLength("") == 0;
  }

  /** Once a shown capture has as many lines as the character threshold, it is big
      whatever the line threshold, because every line brings its '\n'. */
  lemma ManyLinesAreBig(stdout: Stream, stderr: Stream, letters: int, linesLimit: int)
    requires stdout.failure.None? && stderr.failure.None?
    requires |stdout.lines| + |stderr.lines| >= letters
    ensures var c := Captured(stdout, stderr, true);
      Presentation(true, "", c.text, c.lines, letters, linesLimit).OutputDialog?
  {
    JoinedAppend(stdout.lines, stderr.lines);
    JoinedLength(stdout.lines + stderr.lines);
  }
}
