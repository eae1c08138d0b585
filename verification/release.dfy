/**
 * The best-effort release identifier every snapshot carries in `new_version`:
 * the standard output of `lsb_release -r -s` with trailing whitespace removed,
 * or "0.0.0" when that output cannot be had.
 */
module Release {

  const VersionZero: string := "0.0.0"

  /** What running `lsb_release -r -s` produced. The exit status is never inspected. */
  datatype ReleaseQuery =
    | SpawnFailed          // the command could not be run at all
    | NotUtf8              // it ran, but its standard output is not valid UTF-8
    | Stdout(text: string) // it ran, and this is its decoded standard output

  /** Rust's `char::is_whitespace`: the Unicode White_Space property. */
  predicate IsWhitespace(c: char)
  {
    var n := c as int;
    || (0x09 <= n <= 0x0D)
    || n == 0x20
    || n == 0x85
    || n == 0xA0
    || n == 0x1680
    || (0x2000 <= n <= 0x200A)
    || n == 0x2028
    || n == 0x2029
    || n == 0x202F
    || n == 0x205F
    || n == 0x3000
  }

  /** `s` is empty or its last character is not whitespace. */
  predicate EndsClean(s: string)
  {
    |s| == 0 || !IsWhitespace(s[|s| - 1])
  }

  predicate AllWhitespace(s: string)
  {
    forall i | 0 <= i < |s| :: IsWhitespace(s[i])
  }

  /**
   * `str::trim_right`: the longest prefix of `s` that does not end in whitespace;
   * everything cut off is whitespace.
   */
  function TrimEnd(s: string): (r: string)
    ensures r <= s
    ensures EndsClean(r)
    ensures AllWhitespace(s[|r|..])
  {
    if |s| == 0 || !IsWhitespace(s[|s| - 1]) then
      s
    else
      var r := TrimEnd(s[..|s| - 1]);
      assert s[|r|..] == s[..|s| - 1][|r|..] + [s[|s| - 1]];
      r
  }

  /** A prefix reaching into an all-whitespace tail of `s` ends in whitespace. */
  lemma LongerPrefixEndsInWhitespace(s: string, short: string, long: string)
    ensures short <= s && long <= s && |short| < |long| && AllWhitespace(s[|short|..])
            ==> !EndsClean(long)
  {
    if short <= s && long <= s && |short| < |long| && AllWhitespace(s[|short|..]) {
      assert s[|short|..][|long| - 1 - |short|] == long[|long| - 1];
    }
  }

  /** The three properties of `TrimEnd` determine its result: any such prefix is it. */
  lemma TrimEndUnique(s: string, p: string)
    requires p <= s
    requires EndsClean(p)
    requires AllWhitespace(s[|p|..])
    ensures p == TrimEnd(s)
  {
    var r := TrimEnd(s);
    LongerPrefixEndsInWhitespace(s, p, r);
    LongerPrefixEndsInWhitespace(s, r, p);
    assert p == s[..|p|] == r;
  }

  /** Trimming twice is trimming once. */
  lemma TrimEndIdempotent(s: string)
    ensures TrimEnd(TrimEnd(s)) == TrimEnd(s)
  {
    var r := TrimEnd(s);
    TrimEndUnique(r, r);
  }

  /** `UpdateStatusIndication::version`, given the result of running `lsb_release`. */
  function Version(q: ReleaseQuery): (v: string)
    ensures !q.Stdout? ==> v == VersionZero
    ensures q.Stdout? ==> v <= q.text && EndsClean(v) && AllWhitespace(q.text[|v|..])
  {
    match q
    case Stdout(text) => TrimEnd(text)
    case _ => VersionZero
  }

  /** A version never ends in whitespace, and an empty output gives an empty version, not "0.0.0". */
  lemma VersionExamples()
    ensures Version(Stdout("16.04\n")) == "16.04"
    ensures Version(Stdout(" \n")) == ""
    ensures Version(NotUtf8) == Version(SpawnFailed) == "0.0.0"
  {
    TrimEndUnique("16.04\n", "16.04");
    TrimEndUnique(" \n", "");
  }

  /**
   * The same computation as the source performs it: measure the length of the
   * trimmed output, then truncate the output to that length.
   */
  method ComputeVersion(q: ReleaseQuery) returns (v: string)
    ensures v == Version(q)
  {
    match q
    case Stdout(text) =>
      var len := |text|;
      while len > 0 && IsWhitespace(text[len - 1])
        invariant 0 <= len <= |text|
        invariant AllWhitespace(text[len..])
        decreases len
      {
        len := len - 1;
      }
      TrimEndUnique(text, text[..len]);
      v := text[..len];
    case SpawnFailed =>
      v := VersionZero;
    case NotUtf8 =>
      v := VersionZero;
  }
}
