/** The few java.lang behaviours the tray runner relies on, stated over Dafny strings:
    String.trim, String.endsWith, String.length (UTF-16 code units), Integer.parseInt,
    Boolean.parseBoolean and Boolean.toString. A decimal printer stands beside
    Integer.parseInt to state its round trip. */
module JavaText {

  /** A Java reference that may be null. */
  datatype Option<T> = None | Some(value: T)

  // ---------------------------------------------------------------- String.trim

  /** String.trim removes every character whose code is at most U+0020 from both ends. */
  predicate IsBlank(c: char) {
    c <= ' '
  }

  predicate AllBlank(s: string) {
    forall i :: 0 <= i < |s| ==> IsBlank(s[i])
  }

  /** The first loop of String.trim: skip blanks at the front. */
  function TrimLeading(s: string): string {
    if s != [] && IsBlank(s[0]) then TrimLeading(s[1..]) else s
  }

  /** The second loop of String.trim: drop blanks at the back. */
  function TrimTrailing(s: string): string {
    if s != [] && IsBlank(s[|s| - 1]) then TrimTrailing(s[..|s| - 1]) else s
  }

  lemma AllBlankConcat(a: string, b: string)
    requires AllBlank(a) && AllBlank(b)
    ensures AllBlank(a + b)
  {
    forall i | 0 <= i < |a + b|
      ensures IsBlank((a + b)[i])
    {
      if i >= |a| {
        assert (a + b)[i] == b[i - |a|];
      }
    }
  }

  /** Skipping the front blanks leaves a suffix that does not start with a blank. */
  lemma {:induction false} TrimLeadingSpec(s: string)
    ensures var r := TrimLeading(s); |r| <= |s| && r == s[|s| - |r|..]
    ensures var r := TrimLeading(s); AllBlank(s[..|s| - |r|]) && (r == [] || !IsBlank(r[0]))
  {
    if s != [] && IsBlank(s[0]) {
      var rest := s[1..];
      TrimLeadingSpec(rest);
      var r := TrimLeading(rest);
      assert s[..|s| - |r|] == [s[0]] + rest[..|rest| - |r|];
      AllBlankConcat([s[0]], rest[..|rest| - |r|]);
    } else {
      assert s[..0] == [];
    }
  }

  /** Dropping the back blanks leaves a prefix that does not end with a blank. */
  lemma {:induction false} TrimTrailingSpec(s: string)
    ensures var r := TrimTrailing(s); |r| <= |s| && r == s[..|r|]
    ensures var r := TrimTrailing(s); AllBlank(s[|r|..]) && (r == [] || !IsBlank(r[|r| - 1]))
  {
    if s != [] && IsBlank(s[|s| - 1]) {
      var shorter := s[..|s| - 1];
      TrimTrailingSpec(shorter);
      var r := TrimTrailing(shorter);
      assert s[|r|..] == shorter[|r|..] + [s[|s| - 1]];
      AllBlankConcat(shorter[|r|..], [s[|s| - 1]]);
    } else {
      assert s[|s|..] == [];
    }
  }

  /** Java's String.trim. */
  function Trim(s: string): (r: string)
    ensures |r| <= |s|
    ensures r == [] || (!IsBlank(r[0]) && !IsBlank(r[|r| - 1]))
  {
    TrimLeadingSpec(s);
    TrimTrailingSpec(TrimLeading(s));
    TrimTrailing(TrimLeading(s))
  }

  /** The trimmed string is a piece of the original. */
  lemma TrimIsInfix(s: string)
    ensures |TrimLeading(s)| <= |s|
    ensures var k := |s| - |TrimLeading(s)|; k + |Trim(s)| <= |s| && Trim(s) == s[k..k + |Trim(s)|]
  {
    TrimLeadingSpec(s);
    TrimTrailingSpec(TrimLeading(s));
    var t := TrimLeading(s);
    var r := TrimTrailing(t);
    assert t == s[|s| - |t|..] && r == t[..|r|];
  }

  lemma {:induction false} TrimLeadingOf(pre: string, rest: string)
    requires AllBlank(pre)
    requires rest == [] || !IsBlank(rest[0])
    ensures TrimLeading(pre + rest) == rest
  {
    if pre != [] {
      assert (pre + rest)[1..] == pre[1..] + rest;
      TrimLeadingOf(pre[1..], rest);
    }
  }

  lemma {:induction false} TrimTrailingOf(rest: string, post: string)
    requires AllBlank(post)
    requires rest == [] || !IsBlank(rest[|rest| - 1])
    ensures TrimTrailing(rest + post) == rest
  {
    if post != [] {
      assert (rest + post)[..|rest + post| - 1] == rest + post[..|post| - 1];
      TrimTrailingOf(rest, post[..|post| - 1]);
    }
  }

  /** Trim is determined by its result alone: whatever blank padding surrounds a string
      that neither starts nor ends with a blank, trimming returns exactly that string. */
  lemma TrimOf(pre: string, mid: string, post: string)
    requires AllBlank(pre) && AllBlank(post)
    requires mid == [] || (!IsBlank(mid[0]) && !IsBlank(mid[|mid| - 1]))
    ensures Trim(pre + mid + post) == mid
  {
    if mid == [] {
      assert pre + mid + post == (pre + post) + [];
      TrimLeadingOf(pre + post, []);
    } else {
      assert pre + mid + post == pre + (mid + post);
      TrimLeadingOf(pre, mid + post);
      TrimTrailingOf(mid, post);
    }
  }

  /** Trimming twice is trimming once. */
  lemma TrimIdempotent(s: string)
    ensures Trim(Trim(s)) == Trim(s)
  {
    var r := Trim(s);
    assert [] + r + [] == r;
    TrimOf([], r, []);
  }

  // ---------------------------------------------------------------- String.endsWith

  /** Java's String.endsWith: the last |suffix| characters are the suffix. */
  predicate EndsWith(s: string, suffix: string) {
    |suffix| <= |s| && s[|s| - |suffix|..] == suffix
  }

  /** A string ends with a suffix exactly when it is some string followed by that suffix. */
  lemma EndsWithIff(s: string, suffix: string)
    ensures EndsWith(s, suffix) <==> exists pre :: pre + suffix == s
  {
    if EndsWith(s, suffix) {
      assert s[..|s| - |suffix|] + suffix == s;
    }
    if pre :| pre + suffix == s {
      assert s[|s| - |suffix|..] == (pre + suffix)[|pre|..];
    }
  }

  // ---------------------------------------------------------------- String.length

  /** Java's String.length counts UTF-16 code units: a character outside the Basic
      Multilingual Plane is a surrogate pair and counts twice. */
  function JavaLength(s: string): (n: nat)
    ensures |s| <= n <= 2 * |s|
  {
    if s == [] then 0 else (if s[0] as int <= 0xFFFF then 1 else 2) + JavaLength(s[1..])
  }

  lemma {:induction false} JavaLengthAppend(a: string, b: string)
    ensures JavaLength(a + b) == JavaLength(a) + JavaLength(b)
  {
    if a != [] {
      assert (a + b)[0] == a[0] && (a + b)[1..] == a[1..] + b;
      JavaLengthAppend(a[1..], b);
    } else {
      assert a + b == b;
    }
  }

  // ---------------------------------------------------------------- Integer.parseInt

  const INT_MIN: int := -0x8000_0000
  const INT_MAX: int := 0x7FFF_FFFF

  predicate IsDigit(c: char) {
    '0' <= c <= '9'
  }

  predicate AllDigits(s: string) {
    forall i :: 0 <= i < |s| ==> IsDigit(s[i])
  }

  /** The value of a string of decimal digits, most significant first. */
  function DigitsValue(ds: string): nat
    requires AllDigits(ds)
  {
    if ds == [] then 0
    else DigitsValue(ds[..|ds| - 1]) * 10 + (ds[|ds| - 1] as int - '0' as int)
  }

  /** Integer.parseInt(s), radix 10: an optional '+' or '-', then at least one digit,
      and the value must fit in a 32-bit int; anything else is a NumberFormatException
      (None). */
  function ParseInt(s: string): (r: Option<int>)
    ensures r.Some? ==> INT_MIN <= r.value <= INT_MAX
    ensures r.Some? ==> (s != [] &&
      var digits := if s[0] == '-' || s[0] == '+' then s[1..] else s;
      digits != [] && AllDigits(digits))
  {
    if s == [] then None
    else
      var digits := if s[0] == '-' || s[0] == '+' then s[1..] else s;
      if digits == [] || !AllDigits(digits) then None
      else
        var v: int := if s[0] == '-' then -(DigitsValue(digits) as int) else DigitsValue(digits);
        if INT_MIN <= v <= INT_MAX then Some(v) else None
  }

  /** Every optional sign followed by decimal digits parses, leading zeros included,
      to its signed value when that fits in 32 bits; otherwise the parse fails. */
  lemma ParseIntOfSignedDigits(sign: string, ds: string)
    requires sign == "" || sign == "+" || sign == "-"
    requires ds != [] && AllDigits(ds)
    ensures var v := if sign == "-" then -(DigitsValue(ds) as int) else DigitsValue(ds) as int;
      ParseInt(sign + ds) == if INT_MIN <= v <= INT_MAX then Some(v) else None
  {
    var s := sign + ds;
    if sign == "" {
      assert s == ds;
      assert IsDigit(ds[0]);
    } else {
      assert s[0] == sign[0] && s[1..] == ds;
    }
  }

  /** Integer.parseInt of a reference that may be null: null is a NumberFormatException. */
  function ParseIntOrNull(s: Option<string>): (r: Option<int>)
    ensures s.None? ==> r.None?
    ensures s.Some? ==> r == ParseInt(s.value)
    ensures r.Some? ==> INT_MIN <= r.value <= INT_MAX
  {
    if s.None? then None else ParseInt(s.value)
  }

  /** The decimal digits of a natural number, most significant first, without leading zeros. */
  function NatDigits(n: nat): (r: string)
    ensures r != [] && AllDigits(r) && DigitsValue(r) == n
    ensures n > 0 ==> r[0] != '0'
  {
    if n < 10 then ['0' + n as char]
    else
      var r := NatDigits(n / 10) + ['0' + (n % 10) as char];
      assert r[..|r| - 1] == NatDigits(n / 10);
      r
  }

  /** A reference decimal printer (the form Integer.toString uses), against which the
      parse is checked. */
  function DecimalString(n: int): (r: string)
    ensures r != []
  {
    if n < 0 then "-" + NatDigits(-n) else NatDigits(n)
  }

  /** A sign alone is not a number. */
  lemma LoneSignRejected()
    ensures ParseInt("+") == None && ParseInt("-") == None
  {
    assert "+"[1..] == [] && "-"[1..] == [];
  }

  /** Every 32-bit int written in decimal is read back by Integer.parseInt. */
  lemma ParseIntOfDecimal(n: int)
    requires INT_MIN <= n <= INT_MAX
    ensures ParseInt(DecimalString(n)) == Some(n)
  {
    var s := DecimalString(n);
    if n < 0 {
      assert s[1..] == NatDigits(-n);
    } else {
      assert IsDigit(s[0]);
    }
  }

  // ---------------------------------------------------------------- Boolean

  function LowerAscii(c: char): char {
    if 'A' <= c <= 'Z' then c - 'A' + 'a' else c
  }

  /** Boolean.parseBoolean: true exactly for a non-null "true" in any letter case
      (modelled with ASCII case folding). */
  function ParseBoolean(s: Option<string>): (b: bool)
    ensures b ==> s.Some? && |s.value| == 4
  {
    s.Some? && |s.value| == 4 &&
    forall i :: 0 <= i < 4 ==> LowerAscii(s.value[i]) == "true"[i]
  }

  /** parseBoolean accepts "true" with each letter in either case, and nothing else. */
  lemma ParseBooleanIff(s: Option<string>)
    ensures ParseBoolean(s) <==> (s.Some? && |s.value| == 4 &&
      forall i :: 0 <= i < 4 ==> s.value[i] == "true"[i] || s.value[i] == "TRUE"[i])
  {
  }

  /** Boolean.toString. */
  function BoolToString(b: bool): string {
    if b then "true" else "false"
  }

  /** What Boolean.toString writes, Boolean.parseBoolean reads back. */
  lemma ParseBooleanOfToString(b: bool)
    ensures ParseBoolean(Some(BoolToString(b))) == b
  {
    if !b {
      assert |BoolToString(b)| == 5;
    }
  }

  // ---------------------------------------------------------------- java.io.File (Unix)

  /** A java.io.File: an abstract path name. Two files are equal when their paths are. */
  datatype File = File(path: string) {

    /** File.getName: the part of the path after its last '/'. */
    function Name(): (r: string)
      ensures |r| <= |path| && r == path[|path| - |r|..]
      ensures forall i :: 0 <= i < |r| ==> r[i] != '/'
      decreases |path|
    {
      if path == [] || path[|path| - 1] == '/' then []
      else
        var front := File(path[..|path| - 1]).Name();
        assert path[..|path| - 1][|path| - 1 - |front|..] + [path[|path| - 1]]
            == path[|path| - 1 - |front|..];
        front + [path[|path| - 1]]
    }

    /** File.getAbsolutePath: an absolute path is kept; a relative one is resolved
        against the working directory the program was started in. */
    function AbsolutePath(userDir: string): (r: string)
      ensures path != [] && path[0] == '/' ==> r == path
      ensures path == [] ==> r == userDir
      ensures path != [] && path[0] != '/' ==>
        var k := |r| - |path|;
        k == (if userDir == "/" then 1 else |userDir| + 1) && r[..|userDir|] == userDir &&
        r[k - 1] == '/' && r[k..] == path
    {
      if path != [] && path[0] == '/' then path
      else if path == [] then userDir
      else if userDir == "/" then userDir + path
      else userDir + "/" + path
    }
  }

  /** getName is the last segment: either the whole path or what follows its last '/'. */
  lemma {:induction false} NameIsLastSegment(f: File)
    ensures |f.Name()| <= |f.path|
    ensures |f.Name()| < |f.path| ==> f.path[|f.path| - |f.Name()| - 1] == '/'
    decreases |f.path|
  {
    var p := f.path;
    if p != [] && p[|p| - 1] != '/' {
      var g := File(p[..|p| - 1]);
      NameIsLastSegment(g);
      var n := g.Name();
      assert f.Name() == n + [p[|p| - 1]];
      if |n| < |g.path| {
        assert p[|p| - |n| - 2] == g.path[|g.path| - |n| - 1];
      }
    }
  }
}
