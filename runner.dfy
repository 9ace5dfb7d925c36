/** The process-wide state of TrayScriptRunner and the three things that change it:
    start-up (the static initialisers and the settings part of main), the Show Output
    checkbox, and a script run. The tray, menus and dialogs are not modelled; a run
    returns what it would put on screen instead. */
module Runner {
  import opened JavaText
  import opened OutputCapture
  import opened Settings

  /** The message of the dialog runScript shows when the run threw. */
  function ErrorMessage(absolutePath: string, programFolder: string): string {
    "Error while trying to execute:\n" + absolutePath + "\n\nLogs: " + programFolder
  }

  /** The last line runScript logs for how the try block ended. */
  function ClosingLine(c: Capture): string {
    match c
    case Completed(_, _) => "Done."
    case Aborted(message) => "Exit with error: " + message
  }

  class TrayScriptRunner {
    var settings: map<string, string>
    /** The content of config.ini as of the last saveSettings (or as loaded). */
    var persisted: map<string, string>
    var scriptFolder: Option<File>
    var lastScript: Option<File>
    var showOutput: bool
    var lettersUntilBigOutput: int
    var linesUntilBigOutput: int
    /** The working directory relative paths are resolved against. */
    const userDir: string
    /** The absolute path of the folder holding config.ini and the log. */
    const programFolder: string
    /** The lines printed to system_output.log, which both System.out and System.err
        are redirected to once main has read the settings. */
    ghost var log: seq<string>

    /** The settings map is what config.ini holds, and the fields read from it agree
        with it: the show-output flag and the two thresholds. */
    ghost predicate Valid()
      reads this
    {
      persisted == settings &&
      SCRIPT_FOLDER in settings && LAST_SCRIPT in settings &&
      showOutput == ParseBoolean(GetProperty(settings, SHOW_OUTPUT)) &&
      (lettersUntilBigOutput, linesUntilBigOutput)
        == ParseThresholds(GetProperty(settings, LETTERS_UNTIL_BIG_OUTPUT),
                           GetProperty(settings, LINES_UNTIL_BIG_OUTPUT))
    }

    /** Start-up: `config` is the content of config.ini, or None when there is no such
        file. A config without script_folder or last_script makes main throw, so such
        a config is excluded. */
    constructor Start(config: Option<map<string, string>>, userDir: string, programFolder: string)
      requires config.Some? ==> SCRIPT_FOLDER in config.value && LAST_SCRIPT in config.value
      ensures Valid()
      ensures this.userDir == userDir && this.programFolder == programFolder && log == []
      ensures config.None? ==>
        settings == DEFAULT_SETTINGS && scriptFolder == None && lastScript == None &&
        !showOutput && lettersUntilBigOutput == 120 && linesUntilBigOutput == 4
      ensures config.Some? ==>
        settings == config.value &&
        scriptFolder == Some(File(config.value[SCRIPT_FOLDER])) &&
        lastScript == Some(File(config.value[LAST_SCRIPT])) &&
        showOutput == ParseBoolean(GetProperty(config.value, SHOW_OUTPUT)) &&
        (lettersUntilBigOutput, linesUntilBigOutput)
          == ParseThresholds(GetProperty(config.value, LETTERS_UNTIL_BIG_OUTPUT),
                             GetProperty(config.value, LINES_UNTIL_BIG_OUTPUT))
    {
      this.userDir := userDir;
      this.programFolder := programFolder;
      showOutput := false;
      lettersUntilBigOutput := DEFAULT_LETTERS;
      linesUntilBigOutput := DEFAULT_LINES;
      scriptFolder := None;
      lastScript := None;
      settings, persisted := map[], map[];
      log := [];
      new;
      if config.None? {
        settings := DEFAULT_SETTINGS;
        persisted := settings;
        DefaultSettingsReadBack();
        assert SCRIPT_FOLDER in settings && LAST_SCRIPT in settings;
      } else {
        settings := config.value;
        persisted := config.value;
        scriptFolder := Some(File(settings[SCRIPT_FOLDER]));
        lastScript := Some(File(settings[LAST_SCRIPT]));
        showOutput := ParseBoolean(GetProperty(settings, SHOW_OUTPUT));
        var letters := ParseIntOrNull(GetProperty(settings, LETTERS_UNTIL_BIG_OUTPUT));
        if letters.Some? {
          lettersUntilBigOutput := letters.value;
          var lines := ParseIntOrNull(GetProperty(settings, LINES_UNTIL_BIG_OUTPUT));
          if lines.Some? {
            linesUntilBigOutput := lines.value;
          }
        }
        assert (lettersUntilBigOutput, linesUntilBigOutput)
            == ParseThresholds(GetProperty(settings, LETTERS_UNTIL_BIG_OUTPUT),
                               GetProperty(settings, LINES_UNTIL_BIG_OUTPUT));
      }
    }

    /** The Show Output checkbox handler: flip the flag, store it and save. */
    method ToggleShowOutput()
      requires Valid()
      modifies this
      ensures Valid()
      ensures showOutput == !old(showOutput)
      ensures settings == old(settings)[SHOW_OUTPUT := BoolToString(showOutput)]
      ensures lastScript == old(lastScript) && scriptFolder == old(scriptFolder)
      ensures lettersUntilBigOutput == old(lettersUntilBigOutput)
      ensures linesUntilBigOutput == old(linesUntilBigOutput)
      ensures log == old(log)
    {
      showOutput := !showOutput;
      settings := settings[SHOW_OUTPUT := BoolToString(showOutput)];
      persisted := settings;
      ParseBooleanOfToString(showOutput);
      assert GetProperty(settings, LETTERS_UNTIL_BIG_OUTPUT)
          == GetProperty(old(settings), LETTERS_UNTIL_BIG_OUTPUT) by {
        assert |SHOW_OUTPUT| != |LETTERS_UNTIL_BIG_OUTPUT|;
      }
      assert GetProperty(settings, LINES_UNTIL_BIG_OUTPUT)
          == GetProperty(old(settings), LINES_UNTIL_BIG_OUTPUT) by {
        assert |SHOW_OUTPUT| != |LINES_UNTIL_BIG_OUTPUT|;
      }
    }

    /** The end of runScript: remember a script other than the last one and save. */
    method RememberLastScript(f: File)
      requires Valid()
      modifies this
      ensures Valid()
      ensures (lastScript, settings)
           == RecordLastScript(old(lastScript), old(settings), f, f.AbsolutePath(userDir))
      ensures showOutput == old(showOutput) && scriptFolder == old(scriptFolder)
      ensures lettersUntilBigOutput == old(lettersUntilBigOutput)
      ensures linesUntilBigOutput == old(linesUntilBigOutput)
      ensures log == old(log)
    {
      RecordLastScriptKeepsReadings(lastScript, settings, f, f.AbsolutePath(userDir));
      if lastScript == None || lastScript.value != f {
        lastScript := Some(f);
        settings := settings[LAST_SCRIPT := f.AbsolutePath(userDir)];
        persisted := settings;
      }
    }

    /** runScript(f): log the start, capture the output, show it (or the error), and
        record f as the last script. The launch stands for what the operating system
        does with the process. */
    method RunScript(f: File, launch: Launch) returns (shown: Display)
      requires Valid()
      modifies this
      ensures Valid()
      ensures (lastScript, settings)
           == RecordLastScript(old(lastScript), old(settings), f, f.AbsolutePath(userDir))
      ensures lastScript == Some(f)
      ensures showOutput == old(showOutput) && scriptFolder == old(scriptFolder)
      ensures lettersUntilBigOutput == old(lettersUntilBigOutput)
      ensures linesUntilBigOutput == old(linesUntilBigOutput)
      ensures shown == match Outcome(launch, showOutput)
        case Completed(text, lines) =>
          Presentation(showOutput, f.Name(), text, lines, lettersUntilBigOutput, linesUntilBigOutput)
        case Aborted(_) => ErrorDialog(ErrorMessage(f.AbsolutePath(userDir), programFolder))
      ensures log == old(log) + ["Running script " + f.AbsolutePath(userDir) + "..."]
                     + OutcomeLog(launch) + [ClosingLine(Outcome(launch, showOutput))]
    {
      var path := f.AbsolutePath(userDir);
      log := log + ["Running script " + path + "..."];
      var c: Capture;
      ghost var logged: seq<string>;
      match launch {
        case StartFailed(message) =>
          c, logged := Aborted(message), [];
        case Started(stdout, stderr) =>
          c, logged := CaptureOutput(stdout, stderr, showOutput);
      }
      assert c == Outcome(launch, showOutput) && logged == OutcomeLog(launch);
      log := log + logged;
      match c {
        case Completed(text, lines) =>
          shown := Presentation(showOutput, f.Name(), text, lines,
                                lettersUntilBigOutput, linesUntilBigOutput);
          log := log + ["Done."];
        case Aborted(message) =>
          shown := ErrorDialog(ErrorMessage(path, programFolder));
          log := log + ["Exit with error: " + message];
      }
      RememberLastScript(f);
    }
  }

  /** A restart from the saved config.ini: the new process reads back the flag, the
      thresholds and the map the running one had, and takes the stored last_script
      and script_folder paths as its files. */
  method Restart(running: TrayScriptRunner) returns (restarted: TrayScriptRunner)
    requires running.Valid()
    ensures restarted.Valid()
    ensures restarted.settings == running.settings
    ensures restarted.showOutput == running.showOutput
    ensures restarted.lettersUntilBigOutput == running.lettersUntilBigOutput
    ensures restarted.linesUntilBigOutput == running.linesUntilBigOutput
    ensures restarted.lastScript == Some(File(running.settings[LAST_SCRIPT]))
    ensures restarted.scriptFolder == Some(File(running.settings[SCRIPT_FOLDER]))
  {
    restarted := new TrayScriptRunner.Start(Some(running.persisted), running.userDir,
                                            running.programFolder);
  }
}
