/** `DatabaseUtils` and the `PathType` enumeration of the first provider
    generation: the path separator, the name pattern and the name check that
    guards every identifier spliced into SQL text. */
module DatabaseUtils {

  /** The kinds of path of the first generation: {Database}/{Schema}/{Table}/{Row}. */
  datatype PathType = Database | Schema | Table | Row | Invalid

  /** The regular expression names must match. */
  const VALIDATION_PATTERN: string := "^[a-zA-Z0-9_]+$"

  /** The path separator, as a string and as the character it holds. */
  const PATH_SEPARATOR: string := "\\"
  const SEPARATOR: char := '\\'

  /** One character of the class `[a-zA-Z0-9_]`. */
  predicate IsNameChar(c: char) {
    'a' <= c <= 'z' || 'A' <= c <= 'Z' || '0' <= c <= '9' || c == '_'
  }

  predicate AllNameChars(s: string) {
    forall i :: 0 <= i < |s| ==> IsNameChar(s[i])
  }

  /** How many characters `[a-zA-Z0-9_]+` consumes from the start of `s`:
      the longest run of name characters (the class never holds a line feed,
      so backtracking never helps `$` afterwards). */
  function NameRunLength(s: string): (n: nat)
    ensures n <= |s|
    ensures AllNameChars(s[..n])
    ensures n < |s| ==> !IsNameChar(s[n])
    decreases |s|
  {
    if s == [] || !IsNameChar(s[0]) then 0
    else
      var n := 1 + NameRunLength(s[1..]);
      assert s[..n] == [s[0]] + s[1..][..n - 1];
      n
  }

  /** `NameIsValid`: `Regex.IsMatch(name)` for `VALIDATION_PATTERN` under
      `RegexOptions.IgnoreCase`. `^` anchors at the start; after the run of
      name characters, `$` (without `RegexOptions.Multiline`) matches at the
      end of the input or just before a final line feed. */
  function NameIsValid(name: string): bool {
    var n := NameRunLength(name);
    n >= 1 && (n == |name| || (n == |name| - 1 && name[n] == '\n'))
  }

  /** The accepted names, described without the matcher: a non-empty run of
      `[a-zA-Z0-9_]`, optionally followed by one line feed. */
  lemma NameIsValidIff(name: string)
    ensures NameIsValid(name) <==>
      (|name| > 0 && AllNameChars(name)) ||
      (|name| > 1 && name[|name| - 1] == '\n' && AllNameChars(name[..|name| - 1]))
  {
    var n := NameRunLength(name);
    if |name| > 0 && AllNameChars(name) {
      assert name[..|name|] == name;
    }
    if NameIsValid(name) && n == |name| - 1 {
      assert name[..|name| - 1] == name[..n];
    }
    if NameIsValid(name) && n == |name| {
      assert name[..n] == name;
    }
  }

  /** Every non-empty string of ASCII letters, digits and `_` is accepted. */
  lemma AcceptsIdentifiers(name: string)
    requires |name| > 0 && AllNameChars(name)
    ensures NameIsValid(name)
  {
    NameIsValidIff(name);
  }

  /** The empty string is rejected: `+` asks for one character at least. */
  lemma RejectsEmpty()
    ensures !NameIsValid("")
  {
  }

  /** A name holding `;`, `'`, `-`, a space or the path separator is rejected,
      wherever that character stands. */
  lemma {:induction false} RejectsInjectionCharacters(name: string, i: int)
    requires 0 <= i < |name|
    requires name[i] in {';', '\'', '-', ' ', SEPARATOR}
    ensures !NameIsValid(name)
  {
    NameIsValidIff(name);
    assert !IsNameChar(name[i]);
    if |name| > 1 && name[|name| - 1] == '\n' {
      assert name[..|name| - 1][i] == name[i];
    }
  }

  /** The .NET meaning of `$`: one trailing line feed still passes. */
  lemma AcceptsTrailingLineFeed()
    ensures NameIsValid("ABC\n")
    ensures !NameIsValid("ABC\n\n") && !NameIsValid("\n")
  {
    NameIsValidIff("ABC\n");
    assert "ABC\n"[..3] == "ABC";
  }

  /** Exchanges the case of an ASCII letter. */
  function SwapCase(c: char): char {
    if 'a' <= c <= 'z' then (c as int - 32) as char
    else if 'A' <= c <= 'Z' then (c as int + 32) as char
    else c
  }

  function SwapCaseString(s: string): (r: string)
    ensures |r| == |s|
    ensures forall i :: 0 <= i < |s| ==> r[i] == SwapCase(s[i])
  {
    seq(|s|, i requires 0 <= i < |s| => SwapCase(s[i]))
  }

  lemma {:induction false} SwapCaseKeepsRun(s: string)
    ensures NameRunLength(SwapCaseString(s)) == NameRunLength(s)
    decreases |s|
  {
    if s != [] {
      var t := SwapCaseString(s);
      assert t[1..] == SwapCaseString(s[1..]);
      SwapCaseKeepsRun(s[1..]);
    }
  }

  /** Changing the case of letters never changes the verdict: the class
      already holds both cases of every letter. */
  lemma CaseDoesNotMatter(name: string)
    ensures NameIsValid(SwapCaseString(name)) == NameIsValid(name)
  {
    SwapCaseKeepsRun(name);
  }
}
