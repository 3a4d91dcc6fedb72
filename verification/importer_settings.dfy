/**
 * UBlendImporterSettings: the project settings of the importer, the
 * clean-up applied to the Blender executable path whenever it is set, and
 * the check made before Blender is launched.
 */
module ImporterSettings {
  import opened Wrappers
  import opened UnrealString


  const ExeSuffix := ".exe"
  const LauncherSuffix := "-launcher.exe"
  const BlenderExeName := "blender.exe"

  /**
   * The path SanitizeBlenderPathInline leaves: cut after the first ".exe"
   * (to three characters when there is none), trim white space, drop
   * surrounding quotes, trim again, and turn a trailing "-launcher.exe"
   * into ".exe".
   */
  function SanitizedPath(path: string): string {
    var trimmed := TrimmedPath(path);
    if EndsWith(trimmed, LauncherSuffix) then ReplaceAll(trimmed, LauncherSuffix, ExeSuffix) else trimmed
  }

  /** The path after the cut and the trims, before the launcher rewrite. */
  function TrimmedPath(path: string): string {
    TrimStartAndEnd(TrimQuotes(TrimStartAndEnd(Left(path, Find(path, ExeSuffix) + 4))))
  }

  /** The executable path GetBlenderExecutable hands out for a configured path. */
  function ValidatedExecutable(path: string): (r: string)
    ensures r == "" || r == path
    ensures r != "" <==> EndsWith(path, BlenderExeName)
    ensures r != "" ==> |r| >= |BlenderExeName|
  {
    if path == "" then ""
    else if !EndsWith(path, BlenderExeName) then ""
    else path
  }

  /** SanitizeBlenderPathInline, step by step on the path it is given. */
  method SanitizeBlenderPathInline(path: string) returns (sanitised: string)
    ensures sanitised == SanitizedPath(path)
  {
    sanitised := path;
    var exeIdx := Find(sanitised, ExeSuffix);
    sanitised := Left(sanitised, exeIdx + 4);
    sanitised := TrimStartAndEnd(sanitised);
    sanitised := TrimQuotes(sanitised);
    sanitised := TrimStartAndEnd(sanitised);
    if EndsWith(sanitised, LauncherSuffix) {
      sanitised := ReplaceAll(sanitised, LauncherSuffix, ExeSuffix);
    }
  }

  class BlendImporterSettings {
    var blenderExecutable: string
    var runInBackground: bool
    var fixMaterials: bool
    /** Seconds before a running Blender is reported as unresponsive. */
    var unresponsiveWarningDuration: real
    var debug: bool
    var factoryStartup: bool

    /** The declared defaults; the path is empty until configured. */
    constructor ()
      ensures blenderExecutable == ""
      ensures runInBackground && fixMaterials && !debug && !factoryStartup
      ensures unresponsiveWarningDuration == 15.0
    {
      blenderExecutable := "";
      runInBackground := true;
      fixMaterials := true;
      unresponsiveWarningDuration := 15.0;
      debug := false;
      factoryStartup := false;
    }

    /**
     * GetBlenderExecutable: the configured path when it ends in
     * "blender.exe" (any case), otherwise the empty path.  The dialog that
     * offers to open the settings is not modelled.
     */
    function GetBlenderExecutable(): (r: string)
      reads this
      ensures r == ValidatedExecutable(blenderExecutable)
      ensures r != "" ==> r == blenderExecutable && EndsWith(r, BlenderExeName)
    {
      ValidatedExecutable(blenderExecutable)
    }

    function IsRunInBackground(): bool reads this { runInBackground }
    function IsDebug(): bool reads this { debug }
    function IsFactoryStartup(): bool reads this { factoryStartup }
    function IsFixMaterials(): bool reads this { fixMaterials }
    function GetUnresponsiveWarningDuration(): real reads this { unresponsiveWarningDuration }

    /**
     * PostInitProperties: an empty path is first filled from the registry
     * value for .blend files, when there is one, then sanitised.
     */
    method PostInitProperties(registryValue: Option<string>)
      modifies this
      ensures old(blenderExecutable) == "" && registryValue.Some? ==>
                blenderExecutable == SanitizedPath(registryValue.value)
      ensures !(old(blenderExecutable) == "" && registryValue.Some?) ==>
                blenderExecutable == SanitizedPath(old(blenderExecutable))
      ensures runInBackground == old(runInBackground) && fixMaterials == old(fixMaterials)
      ensures debug == old(debug) && factoryStartup == old(factoryStartup)
      ensures unresponsiveWarningDuration == old(unresponsiveWarningDuration)
    {
      if blenderExecutable == "" && registryValue.Some? {
        blenderExecutable := registryValue.value;
      }
      blenderExecutable := SanitizeBlenderPathInline(blenderExecutable);
    }

    /** PostEditChangeProperty: any edit re-sanitises the path. */
    method PostEditChangeProperty()
      modifies this
      ensures blenderExecutable == SanitizedPath(old(blenderExecutable))
      ensures runInBackground == old(runInBackground) && fixMaterials == old(fixMaterials)
      ensures debug == old(debug) && factoryStartup == old(factoryStartup)
      ensures unresponsiveWarningDuration == old(unresponsiveWarningDuration)
    {
      blenderExecutable := SanitizeBlenderPathInline(blenderExecutable);
    }
  }

  // ---------------------------------------------------------------------
  // Properties of the sanitiser
  // ---------------------------------------------------------------------

  /** The first cut keeps the path up to and including its first ".exe". */
  lemma CutAtFirstExe(path: string)
    ensures var i := Find(path, ExeSuffix);
            i >= 0 ==> Left(path, i + 4) == path[..i + 4]
                       && EqualsIgnoreCase(path[i..i + 4], ExeSuffix)
                       && forall j :: 0 <= j < i ==> !MatchAt(path, ExeSuffix, j)
    ensures Find(path, ExeSuffix) == -1 ==> Left(path, Find(path, ExeSuffix) + 4) == Left(path, 3)
  {
  }

  /**
   * A path without ".exe" is cut to at most three characters, so the
   * sanitised path is then always refused by GetBlenderExecutable.
   */
  lemma PathWithoutExeRejected(path: string)
    requires Find(path, ExeSuffix) == -1
    ensures |SanitizedPath(path)| <= 3
    ensures ValidatedExecutable(SanitizedPath(path)) == ""
  {
    var cut := Left(path, 3);
    var t1 := TrimStartAndEnd(cut);
    assert |TrimEnd(cut)| <= |cut|;
    assert |t1| <= |cut|;
    var t2 := TrimQuotes(t1);
    var t3 := TrimStartAndEnd(t2);
    assert |TrimEnd(t2)| <= |t2|;
    assert |t3| <= 3;
    assert !EndsWith(t3, LauncherSuffix);
  }

  /** White space and quotes are trimmed from the front only as far as the first other character. */
  lemma {:induction false} TrimStartKeepsFrom(s: string, k: nat)
    requires k < |s| && !IsWhitespace(s[k])
    ensures |TrimStart(s)| >= |s| - k
    decreases k
  {
    if k > 0 && IsWhitespace(s[0]) {
      TrimStartKeepsFrom(s[1..], k - 1);
    }
  }

  /** A suffix at least as long as `x` ends with `x` exactly when the whole string does. */
  lemma EndsWithSuffix(s: string, k: nat, x: string)
    requires k <= |s| && |s| - k >= |x|
    ensures EndsWith(s[k..], x) == EndsWith(s, x)
  {
    assert s[k..][|s[k..]| - |x|..] == s[|s| - |x|..];
  }

  predicate IsExeTailChar(c: char) {
    c == '.' || c == 'e' || c == 'E' || c == 'x' || c == 'X'
  }

  /** The last four characters of a string ending in ".exe" are neither white space nor quotes. */
  lemma ExeTail(s: string, k: nat)
    requires EndsWith(s, ExeSuffix) && |s| - 4 <= k < |s|
    ensures IsExeTailChar(s[k]) && !IsWhitespace(s[k]) && s[k] != '"'
  {
    var tail := s[|s| - 4..];
    assert ToLower(tail) == ToLower(ExeSuffix);
    assert ToLower(tail)[k - (|s| - 4)] == ToLowerChar(s[k]);
    assert ToLower(ExeSuffix) == ".exe" by {
      assert ToLower(ExeSuffix)[0] == '.' && ToLower(ExeSuffix)[1] == 'e';
      assert ToLower(ExeSuffix)[2] == 'x' && ToLower(ExeSuffix)[3] == 'e';
    }
  }

  /** Trimming keeps a trailing ".exe". */
  lemma TrimKeepsExe(s: string)
    requires EndsWith(s, ExeSuffix)
    ensures EndsWith(TrimStartAndEnd(s), ExeSuffix)
    ensures EndsWith(TrimQuotes(s), ExeSuffix)
  {
    ExeTail(s, |s| - 1);
    assert TrimEnd(s) == s;
    ExeTail(s, |s| - 4);
    TrimStartKeepsFrom(s, |s| - 4);
    var r := TrimStart(s);
    EndsWithSuffix(s, |s| - |r|, ExeSuffix);
    var start := if s[0] == '"' then 1 else 0;
    assert TrimQuotes(s) == s[start..];
    EndsWithSuffix(s, start, ExeSuffix);
  }

  /** Each character of a case-insensitive match agrees with the pattern up to case. */
  lemma MatchAtChar(s: string, sub: string, j: int, k: nat)
    requires MatchAt(s, sub, j) && k < |sub|
    ensures ToLowerChar(s[j + k]) == ToLowerChar(sub[k])
  {
    assert ToLower(s[j..j + |sub|])[k] == ToLowerChar(s[j + k]);
    assert ToLower(sub)[k] == ToLowerChar(sub[k]);
  }

  /**
   * Replacing `from` everywhere in a string that ends with an occurrence of
   * it, when no earlier occurrence overlaps that last one, ends with `to`.
   */
  lemma {:induction false} ReplaceAllEndsWithTo(s: string, from: string, to: string, n: nat)
    requires |from| > 0 && n + |from| == |s| && MatchAt(s, from, n)
    requires forall j :: 0 <= j < n && j + |from| > n ==> !MatchAt(s, from, j)
    ensures EndsExactlyWith(ReplaceAll(s, from, to), to)
    decreases n
  {
    if n == 0 {
      assert s[|from|..] == "";
      assert ReplaceAll(s, from, to) == to + ReplaceAll("", from, to);
      assert to + "" == to;
      assert to[|to| - |to|..] == to;
    } else if MatchAt(s, from, 0) {
      ShiftPastMatch(s, from, n);
      ReplaceAllEndsWithTo(s[|from|..], from, to, n - |from|);
      assert ReplaceAll(s, from, to) == to + ReplaceAll(s[|from|..], from, to);
      SuffixKept(to, ReplaceAll(s[|from|..], from, to), to);
    } else {
      ShiftPastChar(s, from, n);
      ReplaceAllEndsWithTo(s[1..], from, to, n - 1);
      assert ReplaceAll(s, from, to) == [s[0]] + ReplaceAll(s[1..], from, to);
      SuffixKept([s[0]], ReplaceAll(s[1..], from, to), to);
    }
  }

  /** `s` ends with `x`, compared exactly. */
  predicate EndsExactlyWith(s: string, x: string) {
    |s| >= |x| && s[|s| - |x|..] == x
  }

  /** A string's suffix is still its suffix after something is put in front. */
  lemma SuffixKept(a: string, b: string, x: string)
    requires EndsExactlyWith(b, x)
    ensures EndsExactlyWith(a + b, x)
  {
    assert (a + b)[|a + b| - |x|..] == b[|b| - |x|..];
  }

  /** The conditions of ReplaceAllEndsWithTo after a leading occurrence of `from`. */
  lemma ShiftPastMatch(s: string, from: string, n: nat)
    requires |from| > 0 && n + |from| == |s| && MatchAt(s, from, n) && 0 < n && MatchAt(s, from, 0)
    requires forall j :: 0 <= j < n && j + |from| > n ==> !MatchAt(s, from, j)
    ensures |from| <= n
    ensures MatchAt(s[|from|..], from, n - |from|)
    ensures forall j :: 0 <= j < n - |from| && j + |from| > n - |from| ==> !MatchAt(s[|from|..], from, j)
  {
    var n' := n - |from|;
    MatchAtShift(s, |from|, from, n');
    forall j | 0 <= j < n' && j + |from| > n'
      ensures !MatchAt(s[|from|..], from, j)
    {
      MatchAtShift(s, |from|, from, j);
    }
  }

  /** The conditions of ReplaceAllEndsWithTo after a leading character that starts no occurrence. */
  lemma ShiftPastChar(s: string, from: string, n: nat)
    requires |from| > 0 && n + |from| == |s| && MatchAt(s, from, n) && 0 < n
    requires forall j :: 0 <= j < n && j + |from| > n ==> !MatchAt(s, from, j)
    ensures MatchAt(s[1..], from, n - 1)
    ensures forall j :: 0 <= j < n - 1 && j + |from| > n - 1 ==> !MatchAt(s[1..], from, j)
  {
    MatchAtShift(s, 1, from, n - 1);
    forall j | 0 <= j < n - 1 && j + |from| > n - 1
      ensures !MatchAt(s[1..], from, j)
    {
      MatchAtShift(s, 1, from, j);
    }
  }

  /** The cut and the trims leave a path that ends with ".exe" when it contained one. */
  lemma TrimmedEndsWithExe(path: string)
    requires Find(path, ExeSuffix) != -1
    ensures EndsWith(TrimmedPath(path), ExeSuffix)
  {
    var i := Find(path, ExeSuffix);
    var cut := Left(path, i + 4);
    CutEndsWithExe(path, i);
    TrimsKeepExe(path, cut);
  }

  /** The trims of the sanitiser, applied to a cut ending with ".exe", keep it. */
  lemma TrimsKeepExe(path: string, cut: string)
    requires EndsWith(cut, ExeSuffix) && cut == Left(path, Find(path, ExeSuffix) + 4)
    ensures EndsWith(TrimmedPath(path), ExeSuffix)
  {
    TrimKeepsExe(cut);
    var t1 := TrimStartAndEnd(cut);
    TrimKeepsExe(t1);
    var t2 := TrimQuotes(t1);
    TrimKeepsExe(t2);
  }

  lemma CutEndsWithExe(path: string, i: int)
    requires 0 <= i && MatchAt(path, ExeSuffix, i)
    ensures EndsWith(Left(path, i + 4), ExeSuffix)
  {
    var cut := Left(path, i + 4);
    assert cut == path[..i + 4];
    assert cut[i..i + 4] == path[i..i + 4];
  }

  /** In a path ending with "-launcher.exe", no earlier occurrence overlaps the last one. */
  lemma LauncherOnlyOverlapIsLast(t: string)
    requires EndsWith(t, LauncherSuffix)
    ensures forall j :: 0 <= j < |t| - 13 && j + 13 > |t| - 13 ==> !MatchAt(t, LauncherSuffix, j)
  {
    var m := |t| - 13;
    forall j | 0 <= j < m && j + 13 > m
      ensures !MatchAt(t, LauncherSuffix, j)
    {
      if MatchAt(t, LauncherSuffix, j) {
        MatchAtChar(t, LauncherSuffix, m, 0);
        MatchAtChar(t, LauncherSuffix, j, m - j);
      }
    }
  }

  /** An exact suffix is also a suffix ignoring case. */
  lemma ExactSuffixEndsWith(r: string, x: string)
    requires 0 < |x| && EndsExactlyWith(r, x)
    ensures EndsWith(r, x)
  {
    assert r[|r| - |x|..|r| - |x| + |x|] == x;
  }

  /** Rewriting a trailing "-launcher.exe" leaves a path ending with ".exe". */
  lemma LauncherRewriteEndsWithExe(t: string)
    requires EndsWith(t, LauncherSuffix)
    ensures EndsWith(ReplaceAll(t, LauncherSuffix, ExeSuffix), ExeSuffix)
  {
    LauncherOnlyOverlapIsLast(t);
    ReplaceAllEndsWithTo(t, LauncherSuffix, ExeSuffix, |t| - 13);
    ExactSuffixEndsWith(ReplaceAll(t, LauncherSuffix, ExeSuffix), ExeSuffix);
  }

  /** A path containing ".exe" is sanitised to one that still ends with ".exe". */
  lemma SanitizedEndsWithExe(path: string)
    requires Find(path, ExeSuffix) != -1
    ensures EndsWith(SanitizedPath(path), ExeSuffix)
  {
    TrimmedEndsWithExe(path);
    var trimmed := TrimmedPath(path);
    if EndsWith(trimmed, LauncherSuffix) {
      LauncherRewriteEndsWithExe(trimmed);
    }
  }

  /**
   * A path that can stand before "-launcher.exe" in the registry's open
   * command: not empty, starting with neither white space nor a quote, and
   * holding no ".exe" of its own in any case.  Install folders with a
   * version, such as "Blender 4.1" or "blender-4.1.0-windows-x64", qualify.
   */
  predicate InstallPath(n: string) {
    |n| > 0 && !IsWhitespace(n[0]) && n[0] != '"' && Find(n, ExeSuffix) == -1
  }

  /** Where a ".exe" may start: only at a '.'. */
  lemma ExeStartsAtDot(s: string, j: int)
    requires MatchAt(s, ExeSuffix, j)
    ensures s[j] == '.'
  {
    MatchAtChar(s, ExeSuffix, j, 0);
  }

  /** Where "-launcher.exe" may start: only at a '-'. */
  lemma LauncherStartsAtDash(s: string, j: int)
    requires MatchAt(s, LauncherSuffix, j)
    ensures s[j] == '-'
  {
    MatchAtChar(s, LauncherSuffix, j, 0);
  }

  /** A match that lies inside the first part of a concatenation is a match in that part. */
  lemma MatchInPrefix(a: string, b: string, x: string, j: int)
    requires MatchAt(a + b, x, j) && j + |x| <= |a|
    ensures MatchAt(a, x, j)
  {
    assert (a + b)[j..j + |x|] == a[j..j + |x|];
  }

  /** A match of `x` holds a match of every piece of `x`. */
  lemma MatchAtInner(s: string, x: string, i: int, k: nat, y: string)
    requires MatchAt(s, x, i) && k + |y| <= |x| && x[k..k + |y|] == y
    ensures MatchAt(s, y, i + k)
  {
    var a := s[i..i + |x|];
    forall m | 0 <= m < |y|
      ensures ToLower(s[i + k..i + k + |y|])[m] == ToLower(y)[m]
    {
      assert a[k + m] == s[i + k + m];
      assert ToLower(a)[k + m] == ToLower(x)[k + m];
      assert x[k + m] == y[m];
    }
  }

  /** An install path holds no ".exe" ending before `|n|` in n + t. */
  lemma NoExeInInstallPath(n: string, t: string, j: int)
    requires Find(n, ExeSuffix) == -1 && 0 <= j && j + 4 <= |n|
    ensures !MatchAt(n + t, ExeSuffix, j)
  {
    if MatchAt(n + t, ExeSuffix, j) {
      MatchInPrefix(n, t, ExeSuffix, j);
    }
  }

  /** No ".exe" straddles the end of n when what follows starts with '-'. */
  lemma NoExeAcrossDash(n: string, t: string, j: int)
    requires |t| > 0 && t[0] == '-' && j < |n| < j + 4
    ensures !MatchAt(n + t, ExeSuffix, j)
  {
    if MatchAt(n + t, ExeSuffix, j) {
      assert (n + t)[|n|] == '-';
      MatchAtChar(n + t, ExeSuffix, j, |n| - j);
    }
  }

  /** Find of ".exe" when nothing before `i` matches. */
  lemma FindExeAt(s: string, i: nat)
    requires i + 4 <= |s| && s[i..i + 4] == ExeSuffix
    requires forall j :: 0 <= j < i ==> !MatchAt(s, ExeSuffix, j)
    ensures Find(s, ExeSuffix) == i
  {
    assert MatchAt(s, ExeSuffix, i);
  }

  /** n + "-launcher.exe" loses "-launcher" in the rewrite. */
  lemma ReplaceLauncherOfInstallPath(n: string)
    requires Find(n, ExeSuffix) == -1
    ensures ReplaceAll(n + LauncherSuffix, LauncherSuffix, ExeSuffix) == n + ExeSuffix
  {
    var s := n + LauncherSuffix;
    EndsWithAppended(n, LauncherSuffix);
    LauncherOnlyOverlapIsLast(s);
    forall i | 0 <= i < |n|
      ensures !MatchAt(s, LauncherSuffix, i)
    {
      if MatchAt(s, LauncherSuffix, i) && i + 13 <= |n| {
        MatchAtInner(s, LauncherSuffix, i, 9, ExeSuffix);
        NoExeInInstallPath(n, LauncherSuffix, i + 9);
      }
    }
    ReplaceAllPrefix(n, LauncherSuffix, LauncherSuffix, ExeSuffix);
    assert LauncherSuffix + "" == LauncherSuffix;
    ReplaceAllHead(LauncherSuffix, "", ExeSuffix);
  }

  /** A string ends with what was appended to it. */
  lemma EndsWithAppended(a: string, x: string)
    requires |x| > 0
    ensures EndsWith(a + x, x)
  {
    assert (a + x)[|a|..|a| + |x|] == x;
  }

  /** TrimmedPath from the cut and the trims, computed separately. */
  lemma TrimmedPathFrom(path: string, cut: string, t: string)
    requires Left(path, Find(path, ExeSuffix) + 4) == cut
    requires TrimStartAndEnd(TrimQuotes(TrimStartAndEnd(cut))) == t
    ensures TrimmedPath(path) == t
  {
  }

  /** SanitizedPath from the trimmed path and the launcher rewrite, computed separately. */
  lemma SanitizedFrom(path: string, t: string, r: string)
    requires TrimmedPath(path) == t
    requires EndsWith(t, LauncherSuffix) ==> ReplaceAll(t, LauncherSuffix, ExeSuffix) == r
    requires !EndsWith(t, LauncherSuffix) ==> t == r
    ensures SanitizedPath(path) == r
  {
  }

  /** The registry command is cut after the launcher's ".exe". */
  lemma RegistryCommandCut(n: string)
    requires InstallPath(n)
    ensures var p := "\"" + n + LauncherSuffix + "\" \"%1\"";
            Left(p, Find(p, ExeSuffix) + 4) == "\"" + n + LauncherSuffix
  {
    var rest := LauncherSuffix + "\" \"%1\"";
    var p := "\"" + n + LauncherSuffix + "\" \"%1\"";
    assert p == "\"" + (n + rest);
    var i := |n| + 10;
    assert p[i..i + 4] == ExeSuffix;
    forall j | 0 <= j < i
      ensures !MatchAt(p, ExeSuffix, j)
    {
      if MatchAt(p, ExeSuffix, j) {
        ExeStartsAtDot(p, j);
        if 1 <= j <= |n| {
          MatchAtShift(p, 1, ExeSuffix, j - 1);
          if j + 3 <= |n| {
            NoExeInInstallPath(n, rest, j - 1);
          } else {
            NoExeAcrossDash(n, rest, j - 1);
          }
        } else if j > |n| {
        }
      }
    }
    FindExeAt(p, i);
    assert p[..i + 4] == "\"" + n + LauncherSuffix;
  }

  /** The trims drop the leading quote of the cut command. */
  lemma RegistryCommandTrimmed(n: string)
    requires InstallPath(n)
    ensures TrimStartAndEnd(TrimQuotes(TrimStartAndEnd("\"" + n + LauncherSuffix))) == n + LauncherSuffix
  {
    var cut := "\"" + n + LauncherSuffix;
    assert TrimEnd(cut) == cut;
    assert TrimStartAndEnd(cut) == cut;
    var unquoted := n + LauncherSuffix;
    assert TrimQuotes(cut) == unquoted;
    assert TrimEnd(unquoted) == unquoted;
  }

  /**
   * The registry's open command for .blend files, a quoted path to
   * "…-launcher.exe" followed by its argument, becomes the path of the
   * Blender executable next to the launcher.
   */
  lemma RegistryCommandSanitised(n: string)
    requires InstallPath(n)
    ensures SanitizedPath("\"" + n + LauncherSuffix + "\" \"%1\"") == n + ExeSuffix
  {
    var p := "\"" + n + LauncherSuffix + "\" \"%1\"";
    RegistryCommandCut(n);
    RegistryCommandTrimmed(n);
    TrimmedPathFrom(p, "\"" + n + LauncherSuffix, n + LauncherSuffix);
    EndsWithAppended(n, LauncherSuffix);
    ReplaceLauncherOfInstallPath(n);
    SanitizedFrom(p, n + LauncherSuffix, n + ExeSuffix);
  }

  /** The folder of a standard Windows install, whose name carries the version. */
  const StandardInstallHead := "C:\\Program Files\\" + "Blender Foundation\\" + "Blender 4"
  const StandardInstallTail := "1\\blender"

  /** The standard install folder holds a '.' but no ".exe". */
  lemma StandardInstallIsInstallPath()
    ensures InstallPath(StandardInstallHead + "." + StandardInstallTail)
  {
    var a := StandardInstallHead;
    var b := StandardInstallTail;
    var n := a + "." + b;
    assert n[0] == a[0] == 'C';
    assert '.' !in a && '.' !in b;
    forall j | 0 <= j
      ensures !MatchAt(n, ExeSuffix, j)
    {
      if MatchAt(n, ExeSuffix, j) {
        ExeStartsAtDot(n, j);
        if j == |a| {
          MatchAtChar(n, ExeSuffix, j, 1);
        }
      }
    }
  }

  /** The open command a standard install registers sanitises to its blender.exe. */
  lemma StandardRegistryCommandSanitised()
    ensures var n := StandardInstallHead + "." + StandardInstallTail;
            SanitizedPath("\"" + n + LauncherSuffix + "\" \"%1\"") == n + ExeSuffix
  {
    StandardInstallIsInstallPath();
    RegistryCommandSanitised(StandardInstallHead + "." + StandardInstallTail);
  }

  /** In n + "-launcher-launcher.exe", the first ".exe" is the final one. */
  lemma DoubleLauncherFind(n: string)
    requires Find(n, ExeSuffix) == -1
    ensures Find(n + "-launcher" + LauncherSuffix, ExeSuffix) == |n| + 18
  {
    var rest := "-launcher" + LauncherSuffix;
    var p := n + "-launcher" + LauncherSuffix;
    assert p == n + rest;
    var i := |n| + 18;
    assert p[i..i + 4] == ExeSuffix;
    forall j | 0 <= j < i
      ensures !MatchAt(p, ExeSuffix, j)
    {
      if j + 4 <= |n| {
        NoExeInInstallPath(n, rest, j);
      } else if j < |n| {
        NoExeAcrossDash(n, rest, j);
      } else if MatchAt(p, ExeSuffix, j) {
        ExeStartsAtDot(p, j);
      }
    }
    FindExeAt(p, i);
  }

  /** An install path followed by "-launcher-launcher.exe" passes the cut and the trims unchanged. */
  lemma DoubleLauncherTrimmed(n: string)
    requires InstallPath(n)
    ensures TrimmedPath(n + "-launcher" + LauncherSuffix) == n + "-launcher" + LauncherSuffix
  {
    var p := n + "-launcher" + LauncherSuffix;
    DoubleLauncherFind(n);
    assert Left(p, |n| + 22) == p;
    assert TrimEnd(p) == p;
    assert TrimStartAndEnd(p) == p;
    assert TrimQuotes(p) == p;
  }

  /** Only the trailing occurrence of "-launcher.exe" in n + "-launcher-launcher.exe" is rewritten. */
  lemma DoubleLauncherRewrite(n: string)
    requires InstallPath(n)
    ensures ReplaceAll(n + "-launcher" + LauncherSuffix, LauncherSuffix, ExeSuffix) == n + LauncherSuffix
  {
    var rest := "-launcher" + LauncherSuffix;
    var head := n + "-launcher";
    var p := head + LauncherSuffix;
    assert p == n + rest;
    forall j | 0 <= j < |head|
      ensures !MatchAt(p, LauncherSuffix, j)
    {
      if MatchAt(p, LauncherSuffix, j) {
        if j > |n| {
          LauncherStartsAtDash(p, j);
        } else if j < |n| <= j + 9 {
          MatchAtChar(p, LauncherSuffix, j, 9);
        } else if j < |n| {
          MatchAtInner(p, LauncherSuffix, j, 9, ExeSuffix);
          if j + 13 <= |n| {
            NoExeInInstallPath(n, rest, j + 9);
          } else {
            NoExeAcrossDash(n, rest, j + 9);
          }
        }
      }
    }
    ReplaceAllPrefix(head, LauncherSuffix, LauncherSuffix, ExeSuffix);
    assert LauncherSuffix + "" == LauncherSuffix;
    ReplaceAllHead(LauncherSuffix, "", ExeSuffix);
    assert head + ExeSuffix == n + LauncherSuffix;
  }

  /**
   * The launcher suffix is rewritten once: a name that repeats it is left
   * ending in "-launcher.exe".
   */
  lemma LauncherRewrittenOnce(n: string)
    requires InstallPath(n)
    ensures SanitizedPath(n + "-launcher" + LauncherSuffix) == n + LauncherSuffix
    ensures EndsWith(SanitizedPath(n + "-launcher" + LauncherSuffix), LauncherSuffix)
  {
    var p := n + "-launcher" + LauncherSuffix;
    DoubleLauncherTrimmed(n);
    EndsWithAppended(n + "-launcher", LauncherSuffix);
    DoubleLauncherRewrite(n);
    SanitizedFrom(p, p, n + LauncherSuffix);
    EndsWithAppended(n, LauncherSuffix);
  }
}
