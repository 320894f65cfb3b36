/** The two Python string operations the analysis relies on: `str.strip()` with
    no argument, and `str.startswith`. */
module PyStrings {

  /** Python's `str.isspace()` on one character: the ASCII separators
      TAB..CR and FS..SPACE, NEL, NO-BREAK SPACE, and the Unicode space
      separators and line/paragraph separators. */
  predicate IsSpace(c: char) {
    var n := c as int;
    (0x09 <= n <= 0x0D) || (0x1C <= n <= 0x20) || n == 0x85 || n == 0xA0
    || n == 0x1680 || (0x2000 <= n <= 0x200A) || n == 0x2028 || n == 0x2029
    || n == 0x202F || n == 0x205F || n == 0x3000
  }

  predicate AllSpace(s: string) {
    forall i :: 0 <= i < |s| ==> IsSpace(s[i])
  }

  /** Neither end of `s` is whitespace (vacuously true of the empty string). */
  predicate NoBoundarySpace(s: string) {
    |s| == 0 || (!IsSpace(s[0]) && !IsSpace(s[|s| - 1]))
  }

  /** `s.startswith(prefix)` */
  predicate StartsWith(s: string, prefix: string) {
    |prefix| <= |s| && s[..|prefix|] == prefix
  }

  /** `s.lstrip()`: the suffix of `s` left after dropping its leading whitespace. */
  function TrimStart(s: string): (r: string)
    ensures |r| <= |s| && r == s[|s| - |r|..]
    ensures AllSpace(s[..|s| - |r|])
    ensures |r| > 0 ==> !IsSpace(r[0])
    decreases |s|
  {
    if |s| > 0 && IsSpace(s[0]) then
      var r := TrimStart(s[1..]);
      assert s[..|s| - |r|] == [s[0]] + s[1..][..|s[1..]| - |r|];
      r
    else
      s
  }

  /** `s.rstrip()`: the prefix of `s` left after dropping its trailing whitespace. */
  function TrimEnd(s: string): (r: string)
    ensures |r| <= |s| && r == s[..|r|]
    ensures AllSpace(s[|r|..])
    ensures |r| > 0 ==> !IsSpace(r[|r| - 1])
    decreases |s|
  {
    if |s| > 0 && IsSpace(s[|s| - 1]) then
      var r := TrimEnd(s[..|s| - 1]);
      assert s[|r|..] == s[..|s| - 1][|r|..] + [s[|s| - 1]];
      r
    else
      s
  }

  /** `s.strip()`: whitespace removed from both ends. The result is empty
      exactly when `s` is all whitespace. */
  function Strip(s: string): (r: string)
    ensures |r| <= |s|
    ensures NoBoundarySpace(r)
    ensures r == [] <==> AllSpace(s)
  {
    var t := TrimStart(s);
    var r := TrimEnd(t);
    if r == [] then
      assert t[|r|..] == t;
      assert s == s[..|s| - |t|] + t;
      AllSpaceAppend(s[..|s| - |t|], t);
      r
    else
      assert t[0] == s[|s| - |t|];
      r
  }

  lemma AllSpaceAppend(a: string, b: string)
    requires AllSpace(a) && AllSpace(b)
    ensures AllSpace(a + b)
  {
  }

  lemma {:induction false} TrimStartSkips(pre: string, t: string)
    requires AllSpace(pre)
    requires |t| == 0 || !IsSpace(t[0])
    ensures TrimStart(pre + t) == t
    decreases |pre|
  {
    if |pre| > 0 {
      assert (pre + t)[1..] == pre[1..] + t;
      TrimStartSkips(pre[1..], t);
    } else {
      assert pre + t == t;
    }
  }

  lemma {:induction false} TrimEndSkips(t: string, suf: string)
    requires AllSpace(suf)
    requires |t| == 0 || !IsSpace(t[|t| - 1])
    ensures TrimEnd(t + suf) == t
    decreases |suf|
  {
    if |suf| > 0 {
      assert (t + suf)[..|t + suf| - 1] == t + suf[..|suf| - 1];
      TrimEndSkips(t, suf[..|suf| - 1]);
    } else {
      assert t + suf == t;
    }
  }

  /** `strip` is determined by the decomposition of its input into leading
      whitespace, a core with no whitespace at either end, and trailing
      whitespace. */
  lemma StripUnique(pre: string, core: string, suf: string)
    requires AllSpace(pre) && AllSpace(suf)
    requires NoBoundarySpace(core)
    ensures Strip(pre + core + suf) == core
  {
    if |core| == 0 {
      assert pre + core + suf == (pre + suf) + [];
      TrimStartSkips(pre + suf, []);
    } else {
      assert pre + core + suf == pre + (core + suf);
      TrimStartSkips(pre, core + suf);
      TrimEndSkips(core, suf);
    }
  }

  /** Stripping twice is stripping once. */
  lemma StripIdempotent(s: string)
    ensures Strip(Strip(s)) == Strip(s)
  {
    var r := Strip(s);
    var e: string := [];
    assert e + r + e == r;
    StripUnique(e, r, e);
  }
}
