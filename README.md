# TrayScriptRunner in Dafny

TrayScriptRunner is a system-tray tool. It lists the scripts of a chosen folder, re-runs the
last script on a click, and can show what a script printed. Its logic sits in one class,
`net.taskid.TrayScriptRunner`, around a few static fields and a `Properties` settings map.
This project models that logic and proves what it does:

- `java_text.dfy` (module `JavaText`): the java.lang and java.io behaviour the class relies on.
  It covers `String.trim`, `String.endsWith`, `String.length` in UTF-16 code units,
  `Integer.parseInt`, and `Boolean.parseBoolean` and `Boolean.toString`. A reference decimal
  printer, `DecimalString`, states the `Integer.parseInt` round trip; the class itself never
  prints an int.
  It also covers `File.getName` and `File.getAbsolutePath` with Unix path rules.
- `script_filter.dfy` (module `ScriptFilter`): the file-name filter `reloadScripts` passes to
  `File.listFiles`, and the filtered listing.
- `output_capture.dfy` (module `OutputCapture`): the two read loops of `runScript`.
  - A process stream is the sequence of lines `readLine` returns, then either the end of the
    stream or an `IOException`.
  - A launch either fails in `ProcessBuilder.start` or yields two such streams.
  - The module also models the big/small rule that picks the dialog or the tray notification.
- `settings.dfy` (module `Settings`): the settings keys, the defaults written when there is no
  `config.ini`, the shared try block that parses the two thresholds, and the rule that records
  the last script after a run.
- `runner.dfy` (module `Runner`): class `TrayScriptRunner`, which holds the static state.
  - Its fields are the settings map, the saved copy of `config.ini`, the script folder, the
    last script, the show-output flag and the two thresholds.
  - A ghost field holds the log file that `System.out` and `System.err` are redirected to.
  - Constructor `Start` runs the static initialisers and the settings part of `main`.
  - `ToggleShowOutput` is the checkbox handler.
  - `RunScript` is `runScript`. It returns what it would put on screen.
  - The invariant `Valid()` says four things:
    - the saved file equals the in-memory map;
    - the map holds `script_folder` and `last_script`;
    - the show-output flag is exactly what that map reads as;
    - the two thresholds are exactly what that map reads as.
  - So a restart from the saved file gives the same flag and thresholds
    (`Runner.Restart`).

Behaviour worth noting:

- Each captured line is trimmed at both ends by `String.trim` (line 237).
- When output is shown, an empty capture takes the small branch exactly when the letters
  threshold is above 0 and the lines threshold is 0 or more, as with the defaults (lines 255
  and 264). An empty tray message is then displayed. Other thresholds send the empty text to
  the dialog (`OutputCapture.EmptyCaptureIsNotified`).
- Both thresholds are parsed in one try block (lines 80-86). If the letters value fails to
  parse, the lines value is never read and both keep their defaults. If only the lines value
  fails, the parsed letters value is kept.
- Keys missing from an existing config file are read as null (lines 77-82):
  - a missing `script_folder` or `last_script` makes `main` throw;
  - a missing `show_output` reads as false;
  - a missing threshold key counts as a parse failure (`Settings.MissingThresholdKeys`).
- Integer.parseInt accepts a leading `+` and leading zeros, so `+120` and `0120` both read
  as 120 (`JavaText.ParseIntOfSignedDigits`).

## Model

| member | source | states |
|---|---|---|
| JavaText.Trim | src/net/taskid/TrayScriptRunner.java:237-239 | a trimmed line is no longer than the line and neither starts nor ends with a character at or below U+0020 |
| JavaText.TrimLeadingSpec | src/net/taskid/TrayScriptRunner.java:237 | skipping the leading blanks leaves a suffix whose removed prefix is all blank and whose first character is not blank |
| JavaText.TrimTrailingSpec | src/net/taskid/TrayScriptRunner.java:237 | dropping the trailing blanks leaves a prefix whose removed tail is all blank and whose last character is not blank |
| JavaText.TrimIsInfix | src/net/taskid/TrayScriptRunner.java:237 | the trimmed line is a contiguous piece of the original line |
| JavaText.TrimOf | src/net/taskid/TrayScriptRunner.java:237 | trimming any blank padding around a string that neither starts nor ends with a blank gives back exactly that string, so trim is determined by its result |
| JavaText.TrimIdempotent | src/net/taskid/TrayScriptRunner.java:237 | trimming a trimmed line changes nothing |
| JavaText.JavaLength | src/net/taskid/TrayScriptRunner.java:255 | text.length() counts UTF-16 code units: at least one and at most two per character |
| JavaText.JavaLengthAppend | src/net/taskid/TrayScriptRunner.java:239 | the length of appended text is the sum of the lengths |
| JavaText.ParseInt | src/net/taskid/TrayScriptRunner.java:81-82 | a successful Integer.parseInt has a value in the 32-bit int range and was an optional sign followed by at least one decimal digit |
| JavaText.LoneSignRejected | src/net/taskid/TrayScriptRunner.java:81-83 | a lone "+" or "-" does not parse, so it ends in the catch of the shared try block |
| JavaText.ParseIntOfSignedDigits | src/net/taskid/TrayScriptRunner.java:81-82 | an optional "+" or "-" followed by decimal digits, leading zeros included, parses to its signed value when that fits in 32 bits, and fails otherwise |
| JavaText.ParseIntOrNull | src/net/taskid/TrayScriptRunner.java:81-82 | Integer.parseInt of a null property fails, so the catch of the shared try block handles it; a present value gives exactly the ParseInt result, always in the 32-bit range on success |
| JavaText.ParseIntOfDecimal | src/net/taskid/TrayScriptRunner.java:81-82 | every 32-bit int written in decimal is parsed back to itself |
| JavaText.ParseBoolean | src/net/taskid/TrayScriptRunner.java:79 | a true result needs a present value of exactly four characters |
| JavaText.ParseBooleanIff | src/net/taskid/TrayScriptRunner.java:79 | show_output reads as true exactly when it is "true" with each letter in either case; null and everything else read as false |
| JavaText.ParseBooleanOfToString | src/net/taskid/TrayScriptRunner.java:79 | the show_output value written by Boolean.toString is read back to the same flag by Boolean.parseBoolean |
| JavaText.EndsWithIff | src/net/taskid/TrayScriptRunner.java:204 | String.endsWith holds exactly when the string is some string followed by the suffix |
| JavaText.File.Name | src/net/taskid/TrayScriptRunner.java:262-264 | the name is a suffix of the path that holds no '/' |
| JavaText.NameIsLastSegment | src/net/taskid/TrayScriptRunner.java:262-264 | the name is the whole path or is preceded by a '/', so it is the part after the last '/' |
| JavaText.File.AbsolutePath | src/net/taskid/TrayScriptRunner.java:221 | an absolute path is kept; an empty path gives the working directory; a relative path is the working directory, one '/' (none extra after the root "/"), then the path |
| ScriptFilter.IsScriptName | src/net/taskid/TrayScriptRunner.java:204 | an accepted name has at least three characters and a '.' three or four characters from its end |
| ScriptFilter.IsScriptNameIff | src/net/taskid/TrayScriptRunner.java:204 | a file name passes the filter if and only if it ends with one of ".cmd", ".bat", ".sh" |
| ScriptFilter.ExtensionMakesScript | src/net/taskid/TrayScriptRunner.java:204 | any stem followed by a script extension passes the filter |
| ScriptFilter.ScriptNamesAccepted | src/net/taskid/TrayScriptRunner.java:204 | build.sh, deploy.cmd and setup.bat pass the filter |
| ScriptFilter.TextFileRefused | src/net/taskid/TrayScriptRunner.java:204 | notes.txt does not pass the filter |
| ScriptFilter.UpperCaseExtensionRefused | src/net/taskid/TrayScriptRunner.java:204 | run.SH does not pass: the suffix test is case-sensitive |
| ScriptFilter.DotAndLastExtensionNeeded | src/net/taskid/TrayScriptRunner.java:204 | sh (no dot) and build.sh.txt (script extension not last) do not pass |
| ScriptFilter.ListScripts | src/net/taskid/TrayScriptRunner.java:204 | the filtered listing is never longer than the folder listing |
| ScriptFilter.ListScriptsContents | src/net/taskid/TrayScriptRunner.java:204 | the filtered listing holds only script names, and every script name of the folder as often as the folder lists it |
| ScriptFilter.ListScriptsCons | src/net/taskid/TrayScriptRunner.java:204 | the listing is filtered one name at a time from the front: a script name is kept at the head, any other name is dropped |
| ScriptFilter.ListScriptsDropsBetween | src/net/taskid/TrayScriptRunner.java:204 | for any two script names around a non-script name, the listing is the two script names in their order |
| ScriptFilter.ListScriptsAppend | src/net/taskid/TrayScriptRunner.java:204 | filtering keeps the listing order |
| ScriptFilter.ListScriptsExample | src/net/taskid/TrayScriptRunner.java:204 | a folder listing build.sh, notes.txt, deploy.sh offers exactly build.sh and deploy.sh, in that order |
| OutputCapture.Trimmed | src/net/taskid/TrayScriptRunner.java:237 | one logged line per line read |
| OutputCapture.TrimmedSnoc | src/net/taskid/TrayScriptRunner.java:237 | reading one more line adds its trimmed form to the end of the log |
| OutputCapture.JoinedSnoc | src/net/taskid/TrayScriptRunner.java:239 | reading one more shown line adds its trimmed form and a newline to the end of the buffer |
| OutputCapture.ReadLoop | src/net/taskid/TrayScriptRunner.java:236-242 | one read loop appends every trimmed line to the log and, only when output is shown, appends trim(l)+"\n" for every line to the buffer and adds the number of lines to the counter; otherwise buffer and counter are untouched |
| OutputCapture.CaptureOutput | src/net/taskid/TrayScriptRunner.java:232-250 | stdout is drained completely before stderr into one buffer and counter; an IOException ends the capture with its message and, after a failing stdout, stderr is not read; the result and the log are those of the reference definitions Captured and CaptureLog |
| OutputCapture.TextLinesOfJoined | src/net/taskid/TrayScriptRunner.java:239 | the buffer splits at its newlines back into exactly the trimmed lines that built it |
| OutputCapture.JoinedLength | src/net/taskid/TrayScriptRunner.java:239 | every buffered line adds at least one character (its newline) |
| OutputCapture.ShownCapture | src/net/taskid/TrayScriptRunner.java:233-250 | with output shown, the counter equals the number of stdout lines plus stderr lines, and the text reads back as all trimmed stdout lines followed by all trimmed stderr lines, each in their order |
| OutputCapture.HiddenCapture | src/net/taskid/TrayScriptRunner.java:237-241 | with output hidden, the buffer stays "" and the counter 0, while the log still receives every trimmed line of stdout and then of stderr |
| OutputCapture.IsBigOutput | src/net/taskid/TrayScriptRunner.java:255 | with at most the lines threshold of lines, the text length alone decides (big from the letters threshold on); with text shorter than the letters threshold, the line count alone decides (big above the lines threshold) |
| OutputCapture.Presentation | src/net/taskid/TrayScriptRunner.java:253-266 | nothing is shown when output is hidden; otherwise exactly one of the dialog (when length >= letters threshold or lines > lines threshold) and the tray notification, both carrying the captured text |
| OutputCapture.DefaultThresholdExamples | src/net/taskid/TrayScriptRunner.java:41-42 | with the defaults 120 and 4, 119 characters on 4 lines is small, 120 characters is big, and 5 lines is big at any length |
| OutputCapture.BigOutputMonotone | src/net/taskid/TrayScriptRunner.java:255 | longer text or more lines never turns big output into small output |
| OutputCapture.EmptyCaptureIsNotified | src/net/taskid/TrayScriptRunner.java:255-264 | an empty shown capture is displayed as an empty tray message exactly when the letters threshold is above 0 and the lines threshold is not negative (so under the defaults 120 and 4); otherwise it opens the dialog |
| OutputCapture.ManyLinesAreBig | src/net/taskid/TrayScriptRunner.java:239-255 | once a shown capture has at least as many lines as the letters threshold, it is big whatever the lines threshold |
| Settings.GetProperty | src/net/taskid/TrayScriptRunner.java:77-82 | getProperty yields the stored value for a present key and null exactly for a missing one |
| Settings.DefaultSettingsContents | src/net/taskid/TrayScriptRunner.java:66-71 | without a config file the map holds exactly five keys: script_folder="", last_script="", show_output="false", letters_until_big_output="120", lines_until_big_output="4" |
| Settings.DefaultSettingsReadBack | src/net/taskid/TrayScriptRunner.java:40-42 | the default map reads back as the built-in state: output hidden, thresholds 120 and 4 |
| Settings.ParseThresholds | src/net/taskid/TrayScriptRunner.java:80-86 | both thresholds always end up as 32-bit ints |
| Settings.ThresholdFallback | src/net/taskid/TrayScriptRunner.java:80-86 | an unparsable letters value leaves 120 and 4; a parsed letters value with an unparsable lines value keeps the letters and leaves 4; two parsed values are both taken |
| Settings.MissingThresholdKeys | src/net/taskid/TrayScriptRunner.java:80-86 | for every config map: without letters_until_big_output both thresholds keep 120 and 4; with a parsable letters value but no lines_until_big_output the letters value is taken and the lines stay 4 |
| Settings.ThresholdsRoundTrip | src/net/taskid/TrayScriptRunner.java:80-82 | thresholds stored in decimal are read back exactly |
| Settings.RecordLastScript | src/net/taskid/TrayScriptRunner.java:276-281 | after a run the last script is always the script just attempted; only when it differs from (or there was no) previous last script does last_script become its absolute path, and no other key changes |
| Settings.RecordLastScriptKeepsReadings | src/net/taskid/TrayScriptRunner.java:279 | recording the last script leaves show_output and both thresholds reading as before and keeps script_folder and last_script present |
| Settings.RecordLastScriptIdempotent | src/net/taskid/TrayScriptRunner.java:276-281 | running the same script again records nothing new |
| Runner.TrayScriptRunner.Start | src/net/taskid/TrayScriptRunner.java:63-87 | without a config file the defaults are stored and saved and the static defaults stay; with one, the map is the file, the folder and last script are read from it, the flag is parsed, and the thresholds follow the shared try block |
| Runner.TrayScriptRunner.ToggleShowOutput | src/net/taskid/TrayScriptRunner.java:116-119 | the flag flips, show_output is set to its Boolean.toString form and saved, and nothing else changes |
| Runner.TrayScriptRunner.RememberLastScript | src/net/taskid/TrayScriptRunner.java:276-281 | the field and the map change as RecordLastScript says, the map is saved, and the flag, the thresholds, the folder and the log are unchanged |
| Runner.TrayScriptRunner.RunScript | src/net/taskid/TrayScriptRunner.java:220-282 | the run logs its start, every captured line and "Done." or the error; shows the classified output or the error dialog; and records the last script by RecordLastScript whether the run succeeded or threw, keeping the invariant |
| Runner.Restart | src/net/taskid/TrayScriptRunner.java:73-86 | starting again from the saved config.ini of a running instance gives the same map, flag and thresholds, and takes the stored script_folder and last_script paths as its files |

## Left out

- Launching the process is not modelled: `ProcessBuilder`, the choice of working directory
  (lines 224-228) and the decoding of the streams are OS plumbing. A run takes the launch
  outcome as an input (`OutputCapture.Launch`). Exit codes are never inspected by the code.
- The GUI is not modelled: dialogs, tray messages, the tooltip (line 278), `setImage`
  (lines 222, 252, 274, 284-294), the menus, the mouse handler (lines 149-163), the folder
  chooser handler (lines 122-137), `openExplorerFolder` and the menu filling of
  `reloadScripts`. `RunScript` returns a `Display` value naming what would be shown.
  src/net/taskid/MenuItemBuilder.java is not part of this model.
- The `Properties` file format and the file writing of `saveSettings` are library code and
  I/O. Saving is modelled as the `persisted` copy becoming equal to the map. A failed save
  (lines 190-193) is not modelled.
- OS and folder detection (lines 54-61) and the redirection of `System.out` and `System.err`
  (lines 89-91) are environment set-up. The log starts empty after start-up. Stack traces
  are not logged in the model. The threshold parse message (line 84) is printed before the
  redirection, so it is not in the log.
- `Runner.TrayScriptRunner.Start`: a config file that cannot be read, or one without
  script_folder or last_script, makes `main` throw. These cases are excluded by its
  precondition.
- The single-thread `Executor` (lines 94, 213) is not modelled: each run is one sequential
  call. The source reads `showOutput` on every line, so a checkbox toggle during a run could
  change the capture halfway. `RunScript` reads the flag once per run.
- `OutputCapture.ReadLoop`: the line counter is an unbounded integer, not a Java `int`.
  2^31 lines would need a buffer longer than the largest Java string, which fails first.
- `JavaText.ParseInt`: only ASCII digits are modelled. `Integer.parseInt` also accepts other
  Unicode decimal digits.
- `JavaText.ParseBoolean`: case folding is ASCII only.
- `JavaText.File.AbsolutePath`: Unix rules only, without path normalisation.
  `File.equals` is modelled as equality of path strings.
- `JavaText.File.Name`: without the normalisation `java.io.File` applies on construction.
  In Java no path the program runs ends in '/', so `new File("/a/b/").getName()` is "b".
  `Runner.TrayScriptRunner.Start` keeps the `last_script` value as written. A hand-edited value
  ending in '/' gets the empty name here, and that is where the model and the code differ.
