/** The parts of the .NET string API that the OAuth2 configuration code relies on:
    null references, `char.IsWhiteSpace`, `Trim`, `IsNullOrEmpty`, `IsNullOrWhiteSpace`
    and `ToLowerInvariant`. */
module Text {
  import opened Nullable

  /** `char.IsWhiteSpace`: the Unicode space, line and paragraph separators, the control
      characters U+0009 to U+000D, and U+0085. */
  predicate IsWhiteSpace(c: char)
  {
    var n := c as int;
    || (0x09 <= n <= 0x0D)
    || n == 0x20
    || n == 0x85
    || n == 0xA0
    || n == 0x1680
    || (0x2000 <= n <= 0x200A)
    || n == 0x2028
    || n == 0x2029
    || n == 0x202F
    || n == 0x205F
    || n == 0x3000
  }

  predicate AllWhiteSpace(s: string)
  {
    forall i :: 0 <= i < |s| ==> IsWhiteSpace(s[i])
  }

  /** A non-null string with at least one character that is not white space. */
  predicate HasVisibleChar(s: Option<string>)
  {
    s.Some? && exists i :: 0 <= i < |s.value| && !IsWhiteSpace(s.value[i])
  }

  /** `string.IsNullOrEmpty`. */
  predicate IsNullOrEmpty(s: Option<string>)
  {
    s.None? || s.value == []
  }

  /** `string.IsNullOrWhiteSpace`: null, or every character is white space. */
  predicate IsNullOrWhiteSpace(s: Option<string>)
  {
    s.None? || AllWhiteSpace(s.value)
  }

  /** `TrimStart()`: what is left is a suffix of `s`, everything dropped was white space,
      and the suffix does not itself start with white space. */
  function TrimStart(s: string): (r: string)
    ensures |r| <= |s| && r == s[|s| - |r|..]
    ensures forall i :: 0 <= i < |s| - |r| ==> IsWhiteSpace(s[i])
    ensures r != [] ==> !IsWhiteSpace(r[0])
    decreases |s|
  {
    if s != [] && IsWhiteSpace(s[0]) then TrimStart(s[1..]) else s
  }

  /** `TrimEnd()`: what is left is a prefix of `s`, everything dropped was white space,
      and the prefix does not itself end with white space. */
  function TrimEnd(s: string): (r: string)
    ensures |r| <= |s| && r == s[..|r|]
    ensures forall i :: |r| <= i < |s| ==> IsWhiteSpace(s[i])
    ensures r != [] ==> !IsWhiteSpace(r[|r| - 1])
    decreases |s|
  {
    if s != [] && IsWhiteSpace(s[|s| - 1]) then TrimEnd(s[..|s| - 1]) else s
  }

  /** `Trim()`: a string trims to nothing exactly when it is all white space. */
  function Trim(s: string): (r: string)
    ensures r == [] <==> AllWhiteSpace(s)
    ensures r != [] ==> !IsWhiteSpace(r[0]) && !IsWhiteSpace(r[|r| - 1])
  {
    TrimEnd(TrimStart(s))
  }

  /** `s?.Trim()`: null stays null. */
  function Trimmed(s: Option<string>): Option<string>
  {
    match s
    case None => None
    case Some(v) => Some(Trim(v))
  }

  /** The two spellings of "blank" used across the settings code agree:
      `IsNullOrEmpty(s?.Trim())` holds exactly when `IsNullOrWhiteSpace(s)` does,
      and both fail exactly when `s` has a visible character. */
  lemma TrimmedBlankIffWhiteSpace(s: Option<string>)
    ensures IsNullOrEmpty(Trimmed(s)) <==> IsNullOrWhiteSpace(s)
    ensures !IsNullOrWhiteSpace(s) <==> HasVisibleChar(s)
  {
  }

  /** `!string.IsNullOrEmpty(s?.Trim())`, the test the settings predicates use. */
  function TrimsToContent(s: Option<string>): (r: bool)
    ensures r <==> HasVisibleChar(s)
  {
    TrimmedBlankIffWhiteSpace(s);
    !IsNullOrEmpty(Trimmed(s))
  }

  function ToLowerChar(c: char): char
  {
    if 'A' <= c <= 'Z' then (c as int - 'A' as int + 'a' as int) as char else c
  }

  /** `ToLowerInvariant()`, restricted to the ASCII letters (the only letters in the
      cloud-environment aliases). */
  function ToLowerInvariant(s: string): (r: string)
    ensures |r| == |s|
    ensures forall i :: 0 <= i < |s| ==> r[i] == ToLowerChar(s[i])
  {
    seq(|s|, i requires 0 <= i < |s| => ToLowerChar(s[i]))
  }
}
