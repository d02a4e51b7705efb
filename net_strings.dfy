/** The .NET `System.String` operations the provider code relies on:
    ordinal and ASCII ignore-case comparison, left-to-right non-overlapping
    `Replace`, and `Split` on a character that keeps empty elements. The
    framework's culture-sensitive `StartsWith(string)` and `EndsWith(string)`
    overloads, which skip ignorable characters, are modelled by the ordinal
    tests. */
module NetStrings {
  import opened Common

  /** Ordinal case folding, restricted to the ASCII letters. */
  function FoldChar(c: char): char {
    if 'a' <= c <= 'z' then (c as int - 32) as char else c
  }

  function Fold(s: string): (r: string)
    ensures |r| == |s|
    ensures forall i :: 0 <= i < |s| ==> r[i] == FoldChar(s[i])
  {
    seq(|s|, i requires 0 <= i < |s| => FoldChar(s[i]))
  }

  /** `s.StartsWith(prefix)`, ordinal. */
  predicate StartsWith(s: string, prefix: string) {
    |prefix| <= |s| && s[..|prefix|] == prefix
  }

  /** `s.EndsWith(suffix)`, ordinal. */
  predicate EndsWith(s: string, suffix: string) {
    |suffix| <= |s| && s[|s| - |suffix|..] == suffix
  }

  /** `t` occurs in `s` at index `i`, compared ordinally or ignoring case. */
  predicate OccursAt(s: string, t: string, i: int, ignoreCase: bool) {
    0 <= i && i + |t| <= |s| &&
    if ignoreCase then Fold(s[i..i + |t|]) == Fold(t) else s[i..i + |t|] == t
  }

  /** The first index at or after `from` where `t` occurs in `s`, or -1. */
  function IndexOfFrom(s: string, t: string, from: nat, ignoreCase: bool): (r: int)
    ensures r == -1 || (from <= r && OccursAt(s, t, r, ignoreCase))
    ensures forall j :: from <= j && (r == -1 || j < r) ==> !OccursAt(s, t, j, ignoreCase)
    decreases |s| - from
  {
    if from + |t| > |s| then -1
    else if OccursAt(s, t, from, ignoreCase) then from
    else IndexOfFrom(s, t, from + 1, ignoreCase)
  }

  /** `s.IndexOf(t)` (ordinal) or `s.IndexOf(t, StringComparison.OrdinalIgnoreCase)`. */
  function IndexOf(s: string, t: string, ignoreCase: bool): int {
    IndexOfFrom(s, t, 0, ignoreCase)
  }

  /** `s.Contains(t)`, ordinal. */
  predicate Contains(s: string, t: string) {
    IndexOf(s, t, false) >= 0
  }

  /** `Contains` holds exactly when some index carries an occurrence. */
  lemma ContainsIff(s: string, t: string, i: int)
    requires OccursAt(s, t, i, false)
    ensures Contains(s, t) && 0 <= IndexOf(s, t, false) <= i
  {
  }

  /** An ordinal occurrence is also an occurrence when case is ignored, so
      a case-insensitive search finds one no later than the ordinal one. */
  lemma IgnoreCaseFindsNoLater(s: string, t: string)
    requires Contains(s, t)
    ensures 0 <= IndexOf(s, t, true) <= IndexOf(s, t, false)
  {
    var i := IndexOf(s, t, false);
    assert OccursAt(s, t, i, true);
  }

  /** Searching for a one-character string finds exactly the strings that
      hold that character. */
  lemma ContainsChar(s: string, c: char)
    ensures Contains(s, [c]) <==> c in s
  {
    if c in s {
      var i :| 0 <= i < |s| && s[i] == c;
      assert s[i..i + 1] == [c];
      ContainsIff(s, [c], i);
    }
    if Contains(s, [c]) {
      var r := IndexOf(s, [c], false);
      assert s[r..r + 1] == [c];
      assert s[r] == c;
    }
  }

  /** `s.LastIndexOf(c)`: the last index holding `c`, or -1. */
  function LastIndexOfChar(s: string, c: char): (r: int)
    ensures -1 <= r < |s|
    ensures r >= 0 ==> s[r] == c
    ensures forall j :: r < j < |s| ==> s[j] != c
    decreases |s|
  {
    if |s| == 0 then -1
    else if s[|s| - 1] == c then |s| - 1
    else LastIndexOfChar(s[..|s| - 1], c)
  }

  /** `s.Replace(oldValue, newValue)`: every non-overlapping occurrence of
      `oldValue`, scanning from the left, is replaced by `newValue`. .NET
      throws `ArgumentException` for an empty `oldValue`; callers decide
      what that means for them. */
  function Replace(s: string, oldValue: string, newValue: string): string
    requires oldValue != ""
    decreases |s|
  {
    if |s| < |oldValue| then s
    else if s[..|oldValue|] == oldValue then newValue + Replace(s[|oldValue|..], oldValue, newValue)
    else [s[0]] + Replace(s[1..], oldValue, newValue)
  }

  /** A string found in the tail of `s` is found in `s`. */
  lemma ContainsInTail(s: string, t: string)
    requires s != ""
    ensures Contains(s[1..], t) ==> Contains(s, t)
  {
    var rest := s[1..];
    if Contains(rest, t) {
      var j := IndexOf(rest, t, false);
      assert rest[j..j + |t|] == s[j + 1..j + 1 + |t|];
      ContainsIff(s, t, j + 1);
    }
  }

  /** Replacing a string that does not occur changes nothing. */
  lemma {:induction false} ReplaceAbsent(s: string, oldValue: string, newValue: string)
    requires oldValue != "" && !Contains(s, oldValue)
    ensures Replace(s, oldValue, newValue) == s
    decreases |s|
  {
    if |s| >= |oldValue| {
      assert !OccursAt(s, oldValue, 0, false);
      var rest := s[1..];
      ContainsInTail(s, oldValue);
      ReplaceAbsent(rest, oldValue, newValue);
      assert s == [s[0]] + rest;
    }
  }

  /** `s` is `t` written zero or more times in a row. */
  predicate IsRepetition(s: string, t: string)
    requires t != ""
    decreases |s|
  {
    s == "" || (StartsWith(s, t) && IsRepetition(s[|t|..], t))
  }

  /** Deleting every occurrence of `t` leaves nothing exactly when `s` is
      made of copies of `t`. */
  lemma {:induction false} ReplaceToEmptyIff(s: string, t: string)
    requires t != ""
    ensures Replace(s, t, "") == "" <==> IsRepetition(s, t)
    decreases |s|
  {
    if s == "" {
    } else if |s| < |t| {
      assert !StartsWith(s, t);
    } else if s[..|t|] == t {
      ReplaceToEmptyIff(s[|t|..], t);
    } else {
      assert !StartsWith(s, t);
    }
  }

  /** `s` with every `a` turned into `b`. */
  function MapChar(s: string, a: char, b: char): (r: string)
    ensures |r| == |s|
    ensures forall i :: 0 <= i < |s| ==> r[i] == if s[i] == a then b else s[i]
  {
    seq(|s|, i requires 0 <= i < |s| => if s[i] == a then b else s[i])
  }

  /** Replacing a one-character string by another is a character map. */
  lemma {:induction false} ReplaceCharIsMap(s: string, a: char, b: char)
    ensures Replace(s, [a], [b]) == MapChar(s, a, b)
    decreases |s|
  {
    if |s| > 0 {
      ReplaceCharIsMap(s[1..], a, b);
      assert s[..1] == [s[0]];
    }
  }

  /** `s.Split(sep)`: the pieces between separators, empty ones included;
      the empty string gives one empty piece. */
  function Split(s: string, sep: char): (r: seq<string>)
    ensures |r| >= 1
    decreases |s|
  {
    if |s| == 0 then [""]
    else
      var rest := Split(s[1..], sep);
      if s[0] == sep then [""] + rest else [[s[0]] + rest[0]] + rest[1..]
  }

  /** `String.Join(sep, parts)`. */
  function Join(parts: seq<string>, sep: char): string
    decreases |parts|
  {
    if |parts| == 0 then ""
    else if |parts| == 1 then parts[0]
    else parts[0] + [sep] + Join(parts[1..], sep)
  }

  /** No piece of a split contains the separator. */
  lemma {:induction false} SplitPiecesHaveNoSeparator(s: string, sep: char)
    ensures forall k :: 0 <= k < |Split(s, sep)| ==> sep !in Split(s, sep)[k]
    decreases |s|
  {
    if |s| > 0 {
      SplitPiecesHaveNoSeparator(s[1..], sep);
    }
  }

  /** Joining the pieces of a split gives back the string. */
  lemma {:induction false} JoinSplit(s: string, sep: char)
    ensures Join(Split(s, sep), sep) == s
    decreases |s|
  {
    if |s| > 0 {
      var rest := Split(s[1..], sep);
      JoinSplit(s[1..], sep);
      if s[0] == sep {
        assert Split(s, sep) == [""] + rest;
        assert Split(s, sep)[1..] == rest;
      } else {
        var r := Split(s, sep);
        assert r == [[s[0]] + rest[0]] + rest[1..];
        if |rest| == 1 {
          assert r == [[s[0]] + rest[0]];
        } else {
          assert r[1..] == rest[1..];
          assert Join(rest, sep) == rest[0] + [sep] + Join(rest[1..], sep);
        }
      }
    }
  }

  /** Splitting a string that starts with `c`: a separator opens an empty
      piece, any other character joins the first piece of the rest. */
  lemma SplitCons(c: char, t: string, sep: char)
    ensures c == sep ==> Split([c] + t, sep) == [""] + Split(t, sep)
    ensures c != sep ==>
      Split([c] + t, sep) == [[c] + Split(t, sep)[0]] + Split(t, sep)[1..]
  {
    assert ([c] + t)[1..] == t;
  }

  /** A join whose first piece starts with `c` is `c` followed by the join
      with that character removed. */
  lemma JoinDropsFirstChar(parts: seq<string>, sep: char)
    requires |parts| >= 1 && |parts[0]| > 0
    ensures var p := parts[0];
      Join(parts, sep) == [p[0]] + Join([p[1..]] + parts[1..], sep)
  {
    var p := parts[0];
    var shorter := [p[1..]] + parts[1..];
    assert shorter[1..] == parts[1..];
    assert p == [p[0]] + p[1..];
  }

  /** The inductive step of `SplitJoin` for an empty first piece. */
  lemma SplitJoinEmptyHead(parts: seq<string>, sep: char)
    requires |parts| >= 2 && parts[0] == ""
    requires Split(Join(parts[1..], sep), sep) == parts[1..]
    ensures Split(Join(parts, sep), sep) == parts
  {
    var tail := Join(parts[1..], sep);
    assert Join(parts, sep) == [sep] + tail;
    SplitCons(sep, tail, sep);
    assert parts == [""] + parts[1..];
  }

  /** The inductive step of `SplitJoin` for a first piece that starts with
      a character other than the separator. */
  lemma SplitJoinCharHead(parts: seq<string>, sep: char)
    requires |parts| >= 1 && |parts[0]| > 0 && parts[0][0] != sep
    requires var p := parts[0];
      Split(Join([p[1..]] + parts[1..], sep), sep) == [p[1..]] + parts[1..]
    ensures Split(Join(parts, sep), sep) == parts
  {
    var p := parts[0];
    var shorter := [p[1..]] + parts[1..];
    JoinDropsFirstChar(parts, sep);
    SplitCons(p[0], Join(shorter, sep), sep);
    assert shorter[1..] == parts[1..];
    assert [p[0]] + p[1..] == p;
    assert parts == [p] + parts[1..];
  }

  /** Splitting a join of separator-free pieces gives back the pieces. */
  lemma {:induction false} SplitJoin(parts: seq<string>, sep: char)
    requires |parts| >= 1
    requires forall k :: 0 <= k < |parts| ==> sep !in parts[k]
    ensures Split(Join(parts, sep), sep) == parts
    decreases |parts|, |parts[0]|
  {
    var p := parts[0];
    if |p| > 0 {
      var shorter := [p[1..]] + parts[1..];
      assert p[0] in p;
      assert forall k :: 1 <= k < |shorter| ==> shorter[k] == parts[k];
      SplitJoin(shorter, sep);
      SplitJoinCharHead(parts, sep);
    } else if |parts| > 1 {
      SplitJoin(parts[1..], sep);
      SplitJoinEmptyHead(parts, sep);
    }
  }

  /** Every separator in `s` is followed by a character that is not one. */
  predicate SeparatorsFollowed(s: string, sep: char) {
    forall i :: 0 <= i < |s| && s[i] == sep ==> i + 1 < |s| && s[i + 1] != sep
  }

  /** Every piece after the first is non-empty exactly when every separator is
      followed by a non-separator character. */
  lemma {:induction false} LaterPiecesNonEmpty(s: string, sep: char)
    ensures (forall k :: 1 <= k < |Split(s, sep)| ==> Split(s, sep)[k] != "")
        <==> SeparatorsFollowed(s, sep)
    decreases |s|
  {
    if |s| > 0 {
      var rest := Split(s[1..], sep);
      var r := Split(s, sep);
      LaterPiecesNonEmpty(s[1..], sep);
      FirstPieceEmpty(s[1..], sep);
      assert SeparatorsFollowed(s, sep) <==>
        (SeparatorsFollowed(s[1..], sep) && (s[0] == sep ==> |s| > 1 && s[1] != sep)) by {
        if SeparatorsFollowed(s[1..], sep) && (s[0] == sep ==> |s| > 1 && s[1] != sep) {
          forall i | 0 <= i < |s| && s[i] == sep ensures i + 1 < |s| && s[i + 1] != sep {
            if i > 0 {
              assert s[1..][i - 1] == s[i];
            }
          }
        }
        if SeparatorsFollowed(s, sep) {
          forall i | 0 <= i < |s[1..]| && s[1..][i] == sep
            ensures i + 1 < |s[1..]| && s[1..][i + 1] != sep
          {
            assert s[i + 1] == sep;
          }
        }
      }
      if s[0] == sep {
        assert r == [""] + rest;
        assert forall k :: 1 <= k < |r| ==> r[k] == rest[k - 1];
        assert |s| > 1 ==> s[1..][0] == s[1];
        assert (forall k :: 1 <= k < |r| ==> r[k] != "")
          <==> (rest[0] != "" && forall k :: 1 <= k < |rest| ==> rest[k] != "") by {
          if forall k :: 1 <= k < |r| ==> r[k] != "" {
            assert r[1] == rest[0];
            forall k | 1 <= k < |rest| ensures rest[k] != "" {
              assert r[k + 1] == rest[k];
            }
          }
        }
      } else {
        assert r == [[s[0]] + rest[0]] + rest[1..];
        assert forall k :: 1 <= k < |r| ==> r[k] == rest[k];
      }
    }
  }

  /** The first piece is empty exactly when `s` is empty or starts with the
      separator. */
  lemma {:induction false} FirstPieceEmpty(s: string, sep: char)
    ensures Split(s, sep)[0] == "" <==> (s == "" || s[0] == sep)
  {
  }

  /** All pieces are non-empty exactly when `s` is non-empty, does not start or
      end with the separator, and never holds two separators in a row. */
  lemma AllPiecesNonEmpty(s: string, sep: char)
    ensures (forall k :: 0 <= k < |Split(s, sep)| ==> Split(s, sep)[k] != "")
        <==> (s != "" && s[0] != sep && s[|s| - 1] != sep &&
              forall i :: 0 <= i < |s| - 1 ==> !(s[i] == sep && s[i + 1] == sep))
  {
    LaterPiecesNonEmpty(s, sep);
    FirstPieceEmpty(s, sep);
    if s != "" && s[|s| - 1] != sep && (forall i :: 0 <= i < |s| - 1 ==> !(s[i] == sep && s[i + 1] == sep)) {
      forall i | 0 <= i < |s| && s[i] == sep ensures i + 1 < |s| && s[i + 1] != sep {
      }
    }
  }

  /** The static `String.Equals(a, b)`, ordinal and null-safe: two nulls are
      equal, a null and a string are not. */
  predicate StringEquals(a: NString, b: NString) {
    if a.None? || b.None? then a.None? && b.None? else a.value == b.value
  }

  /** `String.Equals(a, b, …IgnoreCase)`: as `StringEquals`, letters compared
      without regard to case. */
  predicate StringEqualsIgnoreCase(a: NString, b: NString) {
    if a.None? || b.None? then a.None? && b.None? else Fold(a.value) == Fold(b.value)
  }

  /** The static comparison agrees with equality of the references' values. */
  lemma StringEqualsIsEquality(a: NString, b: NString)
    ensures StringEquals(a, b) <==> a == b
  {
  }

  /** The instance call `a.Equals(b)`: ordinal, and a null receiver throws. */
  function InstanceEquals(a: NString, b: NString): (r: Result<bool>)
    ensures a.None? <==> r.Throw?
    ensures r.Throw? ==> r.error == NullReferenceException
    ensures r.Ok? ==> (r.value <==> a == b)
  {
    if a.None? then Throw(NullReferenceException) else Ok(StringEquals(a, b))
  }
}
