/** The filter reloadScripts hands to File.listFiles: a file in the script folder is
    offered in the Scripts menu when its name ends with one of three extensions. */
module ScriptFilter {
  import opened JavaText

  const SCRIPT_EXTENSIONS: seq<string> := [".cmd", ".bat", ".sh"]

  /** The filter lambda: a case-sensitive suffix test. */
  predicate IsScriptName(name: string)
    ensures IsScriptName(name) ==>
      3 <= |name| && (name[|name| - 3] == '.' || (4 <= |name| && name[|name| - 4] == '.'))
  {
    EndsWith(name, ".cmd") || EndsWith(name, ".bat") || EndsWith(name, ".sh")
  }

  /** A name is accepted exactly when it ends with one of the script extensions. */
  lemma IsScriptNameIff(name: string)
    ensures IsScriptName(name) <==> exists ext :: ext in SCRIPT_EXTENSIONS && EndsWith(name, ext)
  {
    if IsScriptName(name) {
      var ext := if EndsWith(name, ".cmd") then ".cmd"
                 else if EndsWith(name, ".bat") then ".bat" else ".sh";
      assert ext in SCRIPT_EXTENSIONS && EndsWith(name, ext);
    }
  }

  /** Any stem followed by a script extension is accepted, including the empty stem. */
  lemma ExtensionMakesScript(stem: string, ext: string)
    requires ext in SCRIPT_EXTENSIONS
    ensures IsScriptName(stem + ext)
  {
    assert (stem + ext)[|stem + ext| - |ext|..] == ext;
  }

  /** A name whose character at position j of the would-be suffix differs does not
      end with that suffix. */
  lemma NotEndsWithAt(name: string, suffix: string, j: nat)
    requires j < |suffix| <= |name|
    requires name[|name| - |suffix| + j] != suffix[j]
    ensures !EndsWith(name, suffix)
  {
    assert name[|name| - |suffix|..][j] == name[|name| - |suffix| + j];
  }

  /** Names with a script extension pass the filter. */
  lemma ScriptNamesAccepted()
    ensures IsScriptName("build.sh") && IsScriptName("deploy.cmd") && IsScriptName("setup.bat")
  {
    ExtensionMakesScript("build", ".sh");
    ExtensionMakesScript("deploy", ".cmd");
    ExtensionMakesScript("setup", ".bat");
  }

  /** Other extensions are refused. */
  lemma TextFileRefused()
    ensures !IsScriptName("notes.txt")
  {
    NotEndsWithAt("notes.txt", ".cmd", 1);
    NotEndsWithAt("notes.txt", ".bat", 1);
    NotEndsWithAt("notes.txt", ".sh", 0);
  }

  /** The suffix test is case-sensitive. */
  lemma UpperCaseExtensionRefused()
    ensures !IsScriptName("run.SH")
  {
    NotEndsWithAt("run.SH", ".cmd", 0);
    NotEndsWithAt("run.SH", ".bat", 0);
    NotEndsWithAt("run.SH", ".sh", 1);
  }

  /** The extension needs its dot, and only the last extension counts. */
  lemma DotAndLastExtensionNeeded()
    ensures !IsScriptName("sh") && !IsScriptName("build.sh.txt")
  {
    NotEndsWithAt("build.sh.txt", ".cmd", 1);
    NotEndsWithAt("build.sh.txt", ".bat", 1);
    NotEndsWithAt("build.sh.txt", ".sh", 0);
  }

  /** File.listFiles with the filter: the directory listing, in the order the file
      system returns it, restricted to script names. */
  function ListScripts(names: seq<string>): (r: seq<string>)
    ensures |r| <= |names|
  {
    if names == [] then []
    else (if IsScriptName(names[0]) then [names[0]] else []) + ListScripts(names[1..])
  }

  /** The listing holds only script names, and every script name of the folder as often
      as the folder lists it. */
  lemma {:induction false} ListScriptsContents(names: seq<string>)
    ensures forall n :: n in ListScripts(names) ==> IsScriptName(n)
    ensures forall n :: multiset(ListScripts(names))[n]
                     == if IsScriptName(n) then multiset(names)[n] else 0
  {
    if names != [] {
      ListScriptsContents(names[1..]);
      assert names == [names[0]] + names[1..];
    }
  }

  /** Filtering distributes over concatenation, so the scripts keep their listing order. */
  lemma {:induction false} ListScriptsAppend(a: seq<string>, b: seq<string>)
    ensures ListScripts(a + b) == ListScripts(a) + ListScripts(b)
  {
    if a == [] {
      assert a + b == b;
    } else {
      assert a + b == [a[0]] + (a[1..] + b) && a == [a[0]] + a[1..];
      ListScriptsCons(a[0], a[1..] + b);
      ListScriptsCons(a[0], a[1..]);
      ListScriptsAppend(a[1..], b);
    }
  }

  /** The listing is filtered one name at a time, front to back. */
  lemma ListScriptsCons(name: string, rest: seq<string>)
    ensures ListScripts([name] + rest)
         == (if IsScriptName(name) then [name] else []) + ListScripts(rest)
  {
    assert ([name] + rest)[1..] == rest;
  }

  /** Two scripts around another file: the listing keeps the scripts in order and drops
      the other file. */
  lemma ListScriptsDropsBetween(first: string, other: string, last: string)
    requires IsScriptName(first) && !IsScriptName(other) && IsScriptName(last)
    ensures ListScripts([first, other, last]) == [first, last]
  {
    ListScriptsCons(last, []);
    assert [last] + [] == [last];
    ListScriptsCons(other, [last]);
    assert [other] + [last] == [other, last];
    ListScriptsCons(first, [other, last]);
    assert [first] + [other, last] == [first, other, last];
  }

  /** A folder holding build.sh, notes.txt and deploy.sh lists exactly the two scripts. */
  lemma ListScriptsExample()
    ensures ListScripts(["build.sh", "notes.txt", "deploy.sh"]) == ["build.sh", "deploy.sh"]
  {
    ScriptNamesAccepted();
    TextFileRefused();
    ExtensionMakesScript("deploy", ".sh");
    ListScriptsDropsBetween("build.sh", "notes.txt", "deploy.sh");
  }
}
