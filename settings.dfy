/** The settings of the tray runner: a flat string map kept in config.ini, the defaults
    written when there is none, the reading of the two output thresholds, and the rule
    that records the last script run. */
module Settings {
  import opened JavaText

  const SCRIPT_FOLDER: string := "script_folder"
  const LAST_SCRIPT: string := "last_script"
  const SHOW_OUTPUT: string := "show_output"
  const LETTERS_UNTIL_BIG_OUTPUT: string := "letters_until_big_output"
  const LINES_UNTIL_BIG_OUTPUT: string := "lines_until_big_output"

  /** The initial values of the static threshold fields. */
  const DEFAULT_LETTERS: int := 120
  const DEFAULT_LINES: int := 4

  /** The map main writes when config.ini does not exist. */
  const DEFAULT_SETTINGS: map<string, string> := map[
    SCRIPT_FOLDER := "",
    LAST_SCRIPT := "",
    SHOW_OUTPUT := "false",
    LETTERS_UNTIL_BIG_OUTPUT := "120",
    LINES_UNTIL_BIG_OUTPUT := "4"
  ]

  /** Properties.getProperty: the stored value, or null for a missing key. */
  function GetProperty(settings: map<string, string>, key: string): (r: Option<string>)
    ensures r.Some? <==> key in settings
    ensures r.Some? ==> r.value == settings[key]
  {
    if key in settings then Some(settings[key]) else None
  }

  /** The default map holds exactly the five keys with their documented values. */
  lemma DefaultSettingsContents()
    ensures DEFAULT_SETTINGS.Keys
         == {SCRIPT_FOLDER, LAST_SCRIPT, SHOW_OUTPUT, LETTERS_UNTIL_BIG_OUTPUT, LINES_UNTIL_BIG_OUTPUT}
    ensures |DEFAULT_SETTINGS| == 5
    ensures DEFAULT_SETTINGS[SCRIPT_FOLDER] == "" && DEFAULT_SETTINGS[LAST_SCRIPT] == ""
    ensures DEFAULT_SETTINGS[SHOW_OUTPUT] == "false"
    ensures DEFAULT_SETTINGS[LETTERS_UNTIL_BIG_OUTPUT] == "120"
    ensures DEFAULT_SETTINGS[LINES_UNTIL_BIG_OUTPUT] == "4"
  {
    var keys := DEFAULT_SETTINGS.Keys;
    assert |SCRIPT_FOLDER| == 13 && |LAST_SCRIPT| == 11 && |SHOW_OUTPUT| == 11;
    assert LAST_SCRIPT[0] != SHOW_OUTPUT[0];
    assert |LETTERS_UNTIL_BIG_OUTPUT| == 24 && |LINES_UNTIL_BIG_OUTPUT| == 22;
    assert keys == {SCRIPT_FOLDER} + {LAST_SCRIPT} + {SHOW_OUTPUT}
                 + {LETTERS_UNTIL_BIG_OUTPUT} + {LINES_UNTIL_BIG_OUTPUT};
  }

  /** The try block of main reading the two thresholds: both parses share it, so a
      letters value that does not parse leaves both defaults, and a lines value that
      does not parse keeps the letters already parsed and the default lines. */
  function ParseThresholds(letters: Option<string>, lines: Option<string>): (r: (int, int))
    ensures INT_MIN <= r.0 <= INT_MAX && INT_MIN <= r.1 <= INT_MAX
  {
    match ParseIntOrNull(letters)
    case None => (DEFAULT_LETTERS, DEFAULT_LINES)
    case Some(a) =>
      match ParseIntOrNull(lines)
      case None => (a, DEFAULT_LINES)
      case Some(b) => (a, b)
  }

  /** The three ways the threshold parse ends. */
  lemma ThresholdFallback(letters: Option<string>, lines: Option<string>)
    ensures ParseIntOrNull(letters).None? ==> ParseThresholds(letters, lines) == (120, 4)
    ensures ParseIntOrNull(letters).Some? && ParseIntOrNull(lines).None? ==>
      ParseThresholds(letters, lines) == (ParseIntOrNull(letters).value, 4)
    ensures ParseIntOrNull(letters).Some? && ParseIntOrNull(lines).Some? ==>
      ParseThresholds(letters, lines) == (ParseIntOrNull(letters).value, ParseIntOrNull(lines).value)
  {
  }

  /** A config file without the letters key keeps both defaults; one with a parsable
      letters value but without the lines key keeps the letters and the default lines:
      the null from getProperty fails Integer.parseInt inside the shared try block. */
  lemma MissingThresholdKeys(m: map<string, string>)
    ensures LETTERS_UNTIL_BIG_OUTPUT !in m ==>
      ParseThresholds(GetProperty(m, LETTERS_UNTIL_BIG_OUTPUT),
                      GetProperty(m, LINES_UNTIL_BIG_OUTPUT)) == (DEFAULT_LETTERS, DEFAULT_LINES)
    ensures LETTERS_UNTIL_BIG_OUTPUT in m && LINES_UNTIL_BIG_OUTPUT !in m &&
            ParseInt(m[LETTERS_UNTIL_BIG_OUTPUT]).Some? ==>
      ParseThresholds(GetProperty(m, LETTERS_UNTIL_BIG_OUTPUT),
                      GetProperty(m, LINES_UNTIL_BIG_OUTPUT))
        == (ParseInt(m[LETTERS_UNTIL_BIG_OUTPUT]).value, DEFAULT_LINES)
  {
  }

  /** Thresholds written in decimal are read back exactly. */
  lemma ThresholdsRoundTrip(letters: int, lines: int)
    requires INT_MIN <= letters <= INT_MAX && INT_MIN <= lines <= INT_MAX
    ensures ParseThresholds(Some(DecimalString(letters)), Some(DecimalString(lines))) == (letters, lines)
  {
    ParseIntOfDecimal(letters);
    ParseIntOfDecimal(lines);
  }

  /** The default map describes the built-in state: output hidden, thresholds 120 and 4. */
  lemma DefaultSettingsReadBack()
    ensures !ParseBoolean(GetProperty(DEFAULT_SETTINGS, SHOW_OUTPUT))
    ensures ParseThresholds(GetProperty(DEFAULT_SETTINGS, LETTERS_UNTIL_BIG_OUTPUT),
                            GetProperty(DEFAULT_SETTINGS, LINES_UNTIL_BIG_OUTPUT))
         == (DEFAULT_LETTERS, DEFAULT_LINES)
  {
    DefaultSettingsContents();
    assert DecimalString(120) == "120" by {
      assert NatDigits(1) == "1";
      assert NatDigits(12) == "12";
    }
    assert DecimalString(4) == "4";
    ThresholdsRoundTrip(120, 4);
  }

  /** The end of runScript, reached whether the run succeeded or threw: a script other
      than the remembered one becomes the last script and its absolute path is stored;
      the remembered script itself changes nothing. */
  function RecordLastScript(lastScript: Option<File>, settings: map<string, string>,
                            f: File, absolutePath: string): (r: (Option<File>, map<string, string>))
    ensures r.0 == Some(f)
    ensures lastScript == Some(f) ==> r.1 == settings
    ensures lastScript != Some(f) ==> LAST_SCRIPT in r.1 && r.1[LAST_SCRIPT] == absolutePath
    ensures r.1.Keys == settings.Keys + (if lastScript == Some(f) then {} else {LAST_SCRIPT})
    ensures forall k :: k in settings && k != LAST_SCRIPT ==> r.1[k] == settings[k]
  {
    if lastScript == None || lastScript.value != f then
      (Some(f), settings[LAST_SCRIPT := absolutePath])
    else (lastScript, settings)
  }

  /** Running the same script again records nothing new. */
  lemma RecordLastScriptIdempotent(lastScript: Option<File>, settings: map<string, string>,
                                   f: File, absolutePath: string)
    ensures var r := RecordLastScript(lastScript, settings, f, absolutePath);
      RecordLastScript(r.0, r.1, f, absolutePath) == r
  {
  }

  /** Recording the last script leaves the other settings reading as before and keeps
      both file keys present. */
  lemma RecordLastScriptKeepsReadings(lastScript: Option<File>, settings: map<string, string>,
                                      f: File, absolutePath: string)
    ensures var r := RecordLastScript(lastScript, settings, f, absolutePath);
      GetProperty(r.1, SHOW_OUTPUT) == GetProperty(settings, SHOW_OUTPUT) &&
      GetProperty(r.1, LETTERS_UNTIL_BIG_OUTPUT) == GetProperty(settings, LETTERS_UNTIL_BIG_OUTPUT) &&
      GetProperty(r.1, LINES_UNTIL_BIG_OUTPUT) == GetProperty(settings, LINES_UNTIL_BIG_OUTPUT) &&
      (SCRIPT_FOLDER in settings ==> SCRIPT_FOLDER in r.1) &&
      (LAST_SCRIPT in settings ==> LAST_SCRIPT in r.1)
  {
    assert LAST_SCRIPT != SHOW_OUTPUT by {
      assert LAST_SCRIPT[0] != SHOW_OUTPUT[0];
    }
    assert LAST_SCRIPT != LETTERS_UNTIL_BIG_OUTPUT && LAST_SCRIPT != LINES_UNTIL_BIG_OUTPUT by {
      assert |LAST_SCRIPT| != |LETTERS_UNTIL_BIG_OUTPUT| && |LAST_SCRIPT| != |LINES_UNTIL_BIG_OUTPUT|;
    }
  }
}
