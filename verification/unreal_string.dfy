/**
 * Specification functions for the Unreal Engine string and array primitives
 * the importer relies on (FString, TArray<FString>), each stated for the way
 * the importer calls it.  Case folding is ASCII only.
 */
module UnrealString {

  /** Unreal's character lower-casing, restricted to ASCII letters. */
  function ToLowerChar(c: char): char {
    if 'A' <= c <= 'Z' then (c as int + 32) as char else c
  }

  function ToLower(s: string): (r: string)
    ensures |r| == |s|
    ensures forall i :: 0 <= i < |s| ==> r[i] == ToLowerChar(s[i])
  {
    seq(|s|, i requires 0 <= i < |s| => ToLowerChar(s[i]))
  }

  /** FString equality: `operator==` on FString compares ignoring case. */
  predicate EqualsIgnoreCase(a: string, b: string) {
    ToLower(a) == ToLower(b)
  }

  /** TArray<FString>::Find(x) != INDEX_NONE, with FString's case-insensitive `==`. */
  predicate ContainsIgnoreCase(xs: seq<string>, x: string) {
    exists i :: 0 <= i < |xs| && EqualsIgnoreCase(xs[i], x)
  }

  /** `sub` occurs at position `i` of `s`, ignoring case. */
  predicate MatchAt(s: string, sub: string, i: int) {
    0 <= i && i + |sub| <= |s| && EqualsIgnoreCase(s[i..i + |sub|], sub)
  }

  function FindFrom(s: string, sub: string, i: nat): (r: int)
    requires i <= |s|
    ensures r == -1 || (i <= r && MatchAt(s, sub, r))
    ensures r == -1 ==> forall j :: i <= j ==> !MatchAt(s, sub, j)
    ensures r != -1 ==> forall j :: i <= j < r ==> !MatchAt(s, sub, j)
    decreases |s| - i
  {
    if i + |sub| > |s| then -1
    else if MatchAt(s, sub, i) then i
    else FindFrom(s, sub, i + 1)
  }

  /**
   * FString::Find(sub) with the default case-insensitive search from the
   * start: the first index where `sub` occurs, or -1 (INDEX_NONE).  An empty
   * `sub` is never found.
   */
  function Find(s: string, sub: string): (r: int)
    ensures r == -1 || (0 <= r && MatchAt(s, sub, r))
    ensures r == -1 <==> (|sub| == 0 || forall j :: !MatchAt(s, sub, j))
    ensures r != -1 ==> forall j :: 0 <= j < r ==> !MatchAt(s, sub, j)
  {
    if |sub| == 0 then -1 else FindFrom(s, sub, 0)
  }

  /** FString::LeftInline(n): keep the first n characters, n clamped to [0, Len()]. */
  function Left(s: string, n: int): (r: string)
    ensures |r| == if n < 0 then 0 else if n > |s| then |s| else n
    ensures r <= s
  {
    if n < 0 then [] else if n > |s| then s else s[..n]
  }

  /** FString::LeftChopInline(n): drop the last n characters, clamped at the empty string. */
  function LeftChop(s: string, n: nat): (r: string)
    ensures |r| == if |s| >= n then |s| - n else 0
    ensures r <= s
  {
    if |s| >= n then s[..|s| - n] else []
  }

  /** FString::EndsWith(suffix), case-insensitive; an empty suffix never matches. */
  predicate EndsWith(s: string, suffix: string) {
    0 < |suffix| <= |s| && MatchAt(s, suffix, |s| - |suffix|)
  }

  /** Whitespace as FChar::IsWhitespace sees it, for the ASCII range. */
  predicate IsWhitespace(c: char) {
    c == ' ' || c == '\t' || c == '\n' || c == '\r' || c as int == 11 || c as int == 12
  }

  /**
   * FString::TrimStartInline: a suffix that does not start with whitespace;
   * TrimStartRemovesWhitespace shows that only whitespace goes.
   */
  function TrimStart(s: string): (r: string)
    ensures |r| <= |s| && r == s[|s| - |r|..]
    ensures |r| > 0 ==> !IsWhitespace(r[0])
    decreases |s|
  {
    if |s| > 0 && IsWhitespace(s[0]) then TrimStart(s[1..]) else s
  }

  /** What TrimStart removes is all whitespace. */
  lemma {:induction false} TrimStartRemovesWhitespace(s: string)
    ensures forall k :: 0 <= k < |s| - |TrimStart(s)| ==> IsWhitespace(s[k])
    decreases |s|
  {
    if |s| > 0 && IsWhitespace(s[0]) {
      TrimStartRemovesWhitespace(s[1..]);
      forall k | 1 <= k < |s| - |TrimStart(s)|
        ensures IsWhitespace(s[k])
      {
        assert s[k] == s[1..][k - 1];
      }
    }
  }

  /**
   * FString::TrimEndInline: a prefix that does not end with whitespace;
   * TrimEndRemovesWhitespace shows that only whitespace goes.
   */
  function TrimEnd(s: string): (r: string)
    ensures |r| <= |s| && r == s[..|r|]
    ensures |r| > 0 ==> !IsWhitespace(r[|r| - 1])
    decreases |s|
  {
    if |s| > 0 && IsWhitespace(s[|s| - 1]) then TrimEnd(s[..|s| - 1]) else s
  }

  /** What TrimEnd removes is all whitespace. */
  lemma {:induction false} TrimEndRemovesWhitespace(s: string)
    ensures forall k :: |TrimEnd(s)| <= k < |s| ==> IsWhitespace(s[k])
    decreases |s|
  {
    if |s| > 0 && IsWhitespace(s[|s| - 1]) {
      TrimEndRemovesWhitespace(s[..|s| - 1]);
      forall k | |TrimEnd(s)| <= k < |s| - 1
        ensures IsWhitespace(s[k])
      {
        assert s[k] == s[..|s| - 1][k];
      }
    }
  }

  /** FString::TrimStartAndEndInline. */
  function TrimStartAndEnd(s: string): string {
    TrimStart(TrimEnd(s))
  }

  /**
   * FString::TrimQuotesInline: drop one leading '"' and, independently, one
   * trailing '"' when the string is longer than one character.
   */
  function TrimQuotes(s: string): (r: string)
    ensures |r| <= |s|
  {
    if |s| == 0 then s
    else
      var start := if s[0] == '"' then 1 else 0;
      var stop := if |s| > 1 && s[|s| - 1] == '"' then |s| - 1 else |s|;
      s[start..stop]
  }

  /** Putting the removed quotes back around the result gives the input again. */
  lemma TrimQuotesRestores(s: string)
    ensures s == (if |s| > 0 && s[0] == '"' then "\"" else "") + TrimQuotes(s)
                 + (if |s| > 1 && s[|s| - 1] == '"' then "\"" else "")
  {
  }

  /**
   * FString::ReplaceInline(from, to) with the default case-insensitive
   * search: every leftmost, non-overlapping occurrence of `from` is replaced.
   */
  function ReplaceAll(s: string, from: string, to: string): string
    decreases |s|
  {
    if |from| == 0 || |s| < |from| then s
    else if MatchAt(s, from, 0) then to + ReplaceAll(s[|from|..], from, to)
    else [s[0]] + ReplaceAll(s[1..], from, to)
  }

  /** Splitting on one delimiter character, keeping empty pieces ("" gives [""]). */
  function Split(s: string, d: char): (r: seq<string>)
    ensures |r| >= 1
    decreases |s|
  {
    if |s| == 0 then [""]
    else
      var rest := Split(s[1..], d);
      if s[0] == d then [""] + rest else [[s[0]] + rest[0]] + rest[1..]
  }

  /** FString::Join(parts, sep). */
  function Join(parts: seq<string>, sep: string): string {
    if |parts| == 0 then ""
    else if |parts| == 1 then parts[0]
    else parts[0] + sep + Join(parts[1..], sep)
  }

  /** The culling step of ParseIntoArray: the empty pieces are dropped. */
  function RemoveEmpty(parts: seq<string>): (r: seq<string>)
    ensures forall k :: 0 <= k < |r| ==> r[k] != ""
  {
    if |parts| == 0 then []
    else if parts[0] == "" then RemoveEmpty(parts[1..])
    else [parts[0]] + RemoveEmpty(parts[1..])
  }

  /** Culling keeps every non-empty piece, as often as it occurs. */
  lemma {:induction false} RemoveEmptyKeeps(parts: seq<string>)
    ensures multiset(RemoveEmpty(parts)) == multiset(parts)["" := 0]
  {
    if |parts| > 0 {
      assert parts == [parts[0]] + parts[1..];
      RemoveEmptyKeeps(parts[1..]);
    }
  }

  /** Culling works piece by piece, so the kept pieces stay in their order. */
  lemma {:induction false} RemoveEmptyAppend(a: seq<string>, b: seq<string>)
    ensures RemoveEmpty(a + b) == RemoveEmpty(a) + RemoveEmpty(b)
    decreases |a|
  {
    if |a| > 0 {
      assert (a + b)[0] == a[0];
      assert (a + b)[1..] == a[1..] + b;
      RemoveEmptyAppend(a[1..], b);
    } else {
      assert a + b == b;
    }
  }

  /**
   * FString::ParseIntoArray(out, delimiter, cullEmpty) for a one-character
   * delimiter: the output array is reset, an empty input gives no pieces,
   * otherwise the pieces between delimiters, with the empty ones dropped
   * when `cullEmpty` is set.
   */
  function ParseIntoArray(s: string, d: char, cullEmpty: bool): seq<string> {
    if |s| == 0 then []
    else if cullEmpty then RemoveEmpty(Split(s, d))
    else Split(s, d)
  }

  /** TArray<FString>::Remove(x): removes every element equal to x (ignoring case). */
  function RemoveAllIgnoreCase(xs: seq<string>, x: string): (r: seq<string>)
    ensures forall k :: 0 <= k < |r| ==> !EqualsIgnoreCase(r[k], x)
  {
    if |xs| == 0 then []
    else if EqualsIgnoreCase(xs[0], x) then RemoveAllIgnoreCase(xs[1..], x)
    else [xs[0]] + RemoveAllIgnoreCase(xs[1..], x)
  }

  /** Removal keeps every element that does not match, as often as it occurs. */
  lemma {:induction false} RemoveAllKeeps(xs: seq<string>, x: string, y: string)
    requires !EqualsIgnoreCase(y, x)
    ensures multiset(RemoveAllIgnoreCase(xs, x))[y] == multiset(xs)[y]
  {
    if |xs| > 0 {
      assert xs == [xs[0]] + xs[1..];
      RemoveAllKeeps(xs[1..], x, y);
    }
  }

  /** Removal works element by element, so the remaining elements stay in their order. */
  lemma {:induction false} RemoveAllAppend(a: seq<string>, b: seq<string>, x: string)
    ensures RemoveAllIgnoreCase(a + b, x) == RemoveAllIgnoreCase(a, x) + RemoveAllIgnoreCase(b, x)
    decreases |a|
  {
    if |a| > 0 {
      assert (a + b)[0] == a[0];
      assert (a + b)[1..] == a[1..] + b;
      RemoveAllAppend(a[1..], b, x);
    } else {
      assert a + b == b;
    }
  }

  predicate IsDigit(c: char) { '0' <= c <= '9' }

  function SkipWhitespace(s: string): string { TrimStart(s) }

  function LeadingDigits(s: string): string
    decreases |s|
  {
    if |s| > 0 && IsDigit(s[0]) then [s[0]] + LeadingDigits(s[1..]) else []
  }

  /** atoi(s) != 0: the digits after optional whitespace and sign are not all zero. */
  predicate LeadingIntegerNonZero(s: string) {
    var t := SkipWhitespace(s);
    var u := if |t| > 0 && (t[0] == '+' || t[0] == '-') then t[1..] else t;
    exists k :: 0 <= k < |LeadingDigits(u)| && LeadingDigits(u)[k] != '0'
  }

  /**
   * FString::ToBool: "true", "yes" and "on" (any case) are true, "false",
   * "no" and "off" are false, anything else is true iff it parses to a
   * nonzero integer.
   */
  predicate ToBool(s: string) {
    if EqualsIgnoreCase(s, "true") || EqualsIgnoreCase(s, "yes") || EqualsIgnoreCase(s, "on") then true
    else if EqualsIgnoreCase(s, "false") || EqualsIgnoreCase(s, "no") || EqualsIgnoreCase(s, "off") then false
    else LeadingIntegerNonZero(s)
  }

  /** The text a C++ bool is written as by the importer. */
  function BoolText(b: bool): string {
    if b then "true" else "false"
  }

  // ---------------------------------------------------------------------
  // Lemmas about the primitives
  // ---------------------------------------------------------------------

  /** ToBool reads back what BoolText writes. */
  lemma BoolTextRoundTrip(b: bool)
    ensures ToBool(BoolText(b)) == b
  {
    if !b {
      assert ToLower("false") != ToLower("true") by { assert |"false"| != |"true"|; }
      assert ToLower("false") == ToLower("false");
    }
  }

  lemma JoinCons(c: char, parts: seq<string>, sep: string)
    requires |parts| >= 1
    ensures Join([[c] + parts[0]] + parts[1..], sep) == [c] + Join(parts, sep)
  {
    var q := [[c] + parts[0]] + parts[1..];
    assert q[1..] == parts[1..];
  }

  /** Joining the pieces of a split with the delimiter gives the input back. */
  lemma {:induction false} JoinSplit(s: string, d: char)
    ensures Join(Split(s, d), [d]) == s
    decreases |s|
  {
    if |s| > 0 {
      var rest := Split(s[1..], d);
      JoinSplit(s[1..], d);
      if s[0] == d {
        var q := [""] + rest;
        assert q[1..] == rest;
        assert Join(q, [d]) == "" + [d] + Join(rest, [d]);
        assert s == [s[0]] + s[1..];
      } else {
        JoinCons(s[0], rest, [d]);
        assert s == [s[0]] + s[1..];
      }
    }
  }

  /** Splitting after a delimiter-free prefix extends the first piece. */
  lemma {:induction false} SplitPrefix(p: string, t: string, d: char)
    requires d !in p
    ensures Split(p + t, d) == [p + Split(t, d)[0]] + Split(t, d)[1..]
    decreases |p|
  {
    if |p| > 0 {
      SplitPrefix(p[1..], t, d);
      assert (p + t)[1..] == p[1..] + t;
      var rest := Split(p[1..] + t, d);
      assert (p + t)[0] == p[0] && p[0] != d;
      assert Split(p + t, d) == [[p[0]] + rest[0]] + rest[1..];
      assert rest[0] == p[1..] + Split(t, d)[0];
      assert rest[1..] == Split(t, d)[1..];
      assert [p[0]] + (p[1..] + Split(t, d)[0]) == p + Split(t, d)[0];
    } else {
      assert p + t == t;
      var r := Split(t, d);
      assert p + r[0] == r[0];
      assert r == [r[0]] + r[1..];
    }
  }

  lemma SplitAfterDelimiter(t: string, d: char)
    ensures Split([d] + t, d) == [""] + Split(t, d)
  {
    assert ([d] + t)[1..] == t;
  }

  /** Splitting a join of delimiter-free pieces gives the pieces back. */
  lemma {:induction false} SplitJoin(parts: seq<string>, d: char)
    requires |parts| >= 1
    requires forall k :: 0 <= k < |parts| ==> d !in parts[k]
    ensures Split(Join(parts, [d]), d) == parts
    decreases |parts|
  {
    if |parts| == 1 {
      SplitPrefix(parts[0], "", d);
      assert parts[0] + "" == parts[0];
    } else {
      var rest := Join(parts[1..], [d]);
      assert Join(parts, [d]) == parts[0] + ([d] + rest);
      SplitPrefix(parts[0], [d] + rest, d);
      SplitAfterDelimiter(rest, d);
      SplitJoin(parts[1..], d);
      var after := Split([d] + rest, d);
      assert after == [""] + parts[1..];
      assert after[0] == "" && after[1..] == parts[1..];
      assert parts[0] + "" == parts[0];
      assert parts == [parts[0]] + parts[1..];
    }
  }

  lemma {:induction false} RemoveEmptyOfNonEmpty(parts: seq<string>)
    requires forall k :: 0 <= k < |parts| ==> parts[k] != ""
    ensures RemoveEmpty(parts) == parts
  {
    if |parts| > 0 {
      RemoveEmptyOfNonEmpty(parts[1..]);
      assert parts == [parts[0]] + parts[1..];
    }
  }

  /**
   * ParseIntoArray with culling recovers any list of non-empty,
   * delimiter-free pieces from their join (the empty list included).
   */
  lemma ParseJoinCulled(parts: seq<string>, d: char)
    requires forall k :: 0 <= k < |parts| ==> parts[k] != "" && d !in parts[k]
    ensures ParseIntoArray(Join(parts, [d]), d, true) == parts
  {
    if |parts| > 0 {
      SplitJoin(parts, d);
      RemoveEmptyOfNonEmpty(parts);
      JoinNonEmpty(parts, [d]);
    }
  }

  lemma {:induction false} JoinNonEmpty(parts: seq<string>, sep: string)
    requires |parts| > 0 && parts[0] != ""
    ensures Join(parts, sep) != ""
  {
    if |parts| > 1 {
      assert Join(parts, sep) == parts[0] + sep + Join(parts[1..], sep);
      assert |Join(parts, sep)| >= |parts[0]|;
    }
  }

  /** MatchAt on a suffix is MatchAt on the whole string, shifted. */
  lemma MatchAtShift(s: string, k: nat, sub: string, i: int)
    requires k <= |s| && 0 <= i
    ensures MatchAt(s[k..], sub, i) == MatchAt(s, sub, i + k)
  {
    if 0 <= i && i + |sub| <= |s| - k {
      assert s[k..][i..i + |sub|] == s[i + k..i + k + |sub|];
    }
  }

  /** A prefix in which no occurrence of `from` starts passes through ReplaceAll unchanged. */
  lemma {:induction false} ReplaceAllPrefix(a: string, t: string, from: string, to: string)
    requires forall i :: 0 <= i < |a| ==> !MatchAt(a + t, from, i)
    ensures ReplaceAll(a + t, from, to) == a + ReplaceAll(t, from, to)
    decreases |a|
  {
    if |a| == 0 {
      assert a + t == t;
    } else if |from| == 0 || |a + t| < |from| {
      if |from| > 0 {
        assert |t| < |from|;
      }
    } else {
      assert !MatchAt(a + t, from, 0);
      assert (a + t)[1..] == a[1..] + t;
      forall i | 0 <= i < |a[1..]|
        ensures !MatchAt(a[1..] + t, from, i)
      {
        MatchAtShift(a + t, 1, from, i);
      }
      ReplaceAllPrefix(a[1..], t, from, to);
      FirstThenRest(a, ReplaceAll(t, from, to));
    }
  }

  lemma FirstThenRest(a: string, r: string)
    requires |a| > 0
    ensures [a[0]] + (a[1..] + r) == a + r
  {
    assert a == [a[0]] + a[1..];
  }

  /** A string with no occurrence of `from` is left as it is. */
  lemma ReplaceAllNoMatch(s: string, from: string, to: string)
    requires forall i :: 0 <= i < |s| ==> !MatchAt(s, from, i)
    ensures ReplaceAll(s, from, to) == s
  {
    assert s + "" == s;
    ReplaceAllPrefix(s, "", from, to);
  }

  /** A string that starts with `from` has that occurrence replaced. */
  lemma ReplaceAllHead(from: string, t: string, to: string)
    requires |from| > 0
    ensures ReplaceAll(from + t, from, to) == to + ReplaceAll(t, from, to)
  {
    assert (from + t)[..|from|] == from;
    assert MatchAt(from + t, from, 0);
    assert (from + t)[|from|..] == t;
  }

  /**
   * Regrouping a concatenation; a call keeps this extensional equality out
   * of larger proofs, where the solver would look for it among every
   * sequence term in scope.
   */
  lemma ConcatAssociative<T>(a: seq<T>, b: seq<T>, c: seq<T>)
    ensures (a + b) + c == a + (b + c)
  {
  }
}
