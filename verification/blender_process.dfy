/**
 * UBlendAssetFactory::RunScriptOnBlendFile: the Blender command line built
 * from the settings, and the loop that waits for Blender while collecting
 * its output and asking the user whether to keep waiting once it has been
 * silent past the warning deadline.
 *
 * Processes, pipes and the clock are not modelled: what the loop observes
 * on each turn is given as a `Poll`.
 */
module BlenderProcess {
  import opened Wrappers
  import opened UnrealString
  import ImporterSettings

  const BaseParameters := "-noaudio --python-exit-code 1"
  const DebugArgument := " -d"
  const FactoryStartupArgument := " --factory-startup"
  const BackgroundArgument := " -b"
  const WindowArgument := " -w --no-window-focus"

  /** The three settings that shape Blender's parameters. */
  datatype LaunchFlags = LaunchFlags(debug: bool, factoryStartup: bool, runInBackground: bool)

  function DebugPart(f: LaunchFlags): string { if f.debug then DebugArgument else "" }
  function FactoryPart(f: LaunchFlags): string { if f.factoryStartup then FactoryStartupArgument else "" }
  function ModePart(f: LaunchFlags): string { if f.runInBackground then BackgroundArgument else WindowArgument }

  /**
   * Blender's parameters: the fixed options, then " -d" in debug mode,
   * " --factory-startup" in factory-startup mode, and the background or
   * window option last.
   */
  function BlenderParameters(f: LaunchFlags): string {
    BaseParameters + (DebugPart(f) + (FactoryPart(f) + ModePart(f)))
  }

  /** The two ways the flag lemmas split the parameters. */
  lemma Regroup(a: string, b: string, c: string, d: string)
    ensures a + (b + (c + d)) == (a + b) + (c + d)
    ensures a + (b + (c + d)) == (a + (b + c)) + d
  {
    assert a + (b + (c + d)) == (a + b) + (c + d);
    assert (a + b) + (c + d) == ((a + b) + c) + d;
    assert (a + b) + c == a + (b + c);
  }

  /** The characters after a prefix are the second string's. */
  lemma AfterPrefix(a: string, b: string, k: nat)
    requires k <= |b|
    ensures |a + b| >= |a| + k && (a + b)[|a|..|a| + k] == b[..k]
  {
  }

  /** What follows the debug part starts with a space and a dash, then '-' or a mode letter. */
  lemma AfterDebug(f: LaunchFlags)
    ensures var t := FactoryPart(f) + ModePart(f);
            |t| >= 3 && t[0] == ' ' && t[1] == '-'
            && t[2] == (if f.factoryStartup then '-' else if f.runInBackground then 'b' else 'w')
  {
    var t := FactoryPart(f) + ModePart(f);
    if f.factoryStartup {
      assert t[..3] == FactoryStartupArgument[..3];
    } else {
      assert t == ModePart(f);
    }
  }

  /** The parameters end with " -b" exactly in background mode. */
  lemma BackgroundFlagShown(f: LaunchFlags)
    ensures var r := BlenderParameters(f);
            |r| >= |BaseParameters| + 3 && r[..|BaseParameters|] == BaseParameters
    ensures var r := BlenderParameters(f);
            f.runInBackground <==> r[|r| - 3..] == BackgroundArgument
  {
    var r := BlenderParameters(f);
    var m := ModePart(f);
    var rest := BaseParameters + (DebugPart(f) + FactoryPart(f));
    Regroup(BaseParameters, DebugPart(f), FactoryPart(f), m);
    assert r[|r| - 3..] == m[|m| - 3..];
    assert WindowArgument[|WindowArgument| - 1] == 's';
  }

  /** " -d" follows the fixed options exactly in debug mode. */
  lemma DebugFlagShown(f: LaunchFlags)
    ensures var r := BlenderParameters(f);
            |r| >= |BaseParameters| + 3 &&
            (f.debug <==> r[|BaseParameters|..|BaseParameters| + 3] == DebugArgument)
  {
    var tail := DebugPart(f) + (FactoryPart(f) + ModePart(f));
    AfterDebug(f);
    AfterPrefix(BaseParameters, tail, 3);
    if f.debug {
      assert tail[..3] == DebugArgument;
    } else {
      assert tail == FactoryPart(f) + ModePart(f);
      assert tail[..3][2] != DebugArgument[2];
    }
  }

  /** " --factory-startup" comes next exactly in factory-startup mode. */
  lemma FactoryFlagShown(f: LaunchFlags)
    ensures var r := BlenderParameters(f);
            var k := |BaseParameters| + (if f.debug then 3 else 0);
            f.factoryStartup <==> |r| >= k + 18 && r[k..k + 18] == FactoryStartupArgument
  {
    var r := BlenderParameters(f);
    var head := BaseParameters + DebugPart(f);
    var tail := FactoryPart(f) + ModePart(f);
    Regroup(BaseParameters, DebugPart(f), FactoryPart(f), ModePart(f));
    AfterDebug(f);
    if f.factoryStartup {
      AfterPrefix(head, tail, 18);
      assert tail[..18] == FactoryStartupArgument;
    } else if |r| >= |head| + 18 {
      assert r == head + tail;
      assert r[|head| + 2] == tail[2];
      assert r[|head|..|head| + 18][2] == r[|head| + 2];
    }
  }

  /** Different settings never give the same parameters. */
  lemma ParametersDetermineFlags(a: LaunchFlags, b: LaunchFlags)
    requires BlenderParameters(a) == BlenderParameters(b)
    ensures a == b
  {
    BackgroundFlagShown(a);
    BackgroundFlagShown(b);
    DebugFlagShown(a);
    DebugFlagShown(b);
    FactoryFlagShown(a);
    FactoryFlagShown(b);
  }

  /** The path of a plugin script: "<plugin>/Scripts/<name>.py". */
  function ScriptPath(pluginDir: string, scriptName: string): string {
    pluginDir + "/Scripts/" + scriptName + ".py"
  }

  function Quoted(s: string): string {
    "\"" + s + "\""
  }

  /**
   * The full parameter string: Blender's parameters, the quoted .blend file
   * and "-P" with the quoted script path.
   */
  function ProcessParameters(f: LaunchFlags, fullPath: string, pluginDir: string, scriptName: string): (r: string)
    ensures var p := BlenderParameters(f);
            |r| >= |p| && r[..|p|] == p
    ensures var q := " -P " + Quoted(ScriptPath(pluginDir, scriptName));
            |r| >= |q| && r[|r| - |q|..] == q
  {
    BlenderParameters(f) + " " + Quoted(fullPath) + " -P " + Quoted(ScriptPath(pluginDir, scriptName))
  }

  /**
   * One turn of the wait loop: whether Blender is still running, the clock
   * when the deadline is checked, the user's answer and the clock after it
   * (consulted only when the deadline has passed), and the text read from
   * the pipe.
   */
  datatype Poll = Poll(running: bool, clock: real, answerYes: bool, answerClock: real, chunk: string)

  /**
   * Everything RunScriptOnBlendFile observes from the platform: whether the
   * pipe and the process could be created, the clock at start, the loop's
   * polls (after the last one Blender counts as exited), the text read after
   * Blender exits, and its exit code.
   */
  datatype Observations = Observations(
    pipeCreated: bool, spawned: bool, startClock: real,
    polls: seq<Poll>, finalChunk: string, exitCode: int)

  datatype WaitResult = WaitResult(terminated: bool, output: string)

  /**
   * The wait loop from the given deadline: each turn with Blender running
   * first checks the deadline (past it, "Yes" moves the deadline to the
   * answer's clock plus the duration, "No" terminates Blender), then
   * appends what was read.  When Blender exits, the final read is appended.
   */
  function WaitSpec(polls: seq<Poll>, deadline: real, duration: real, finalChunk: string): WaitResult
    decreases |polls|
  {
    if |polls| == 0 || !polls[0].running then WaitResult(false, finalChunk)
    else
      var p := polls[0];
      if p.clock > deadline && !p.answerYes then WaitResult(true, "")
      else
        var next := if p.clock > deadline then p.answerClock + duration else deadline;
        var rest := WaitSpec(polls[1..], next, duration, finalChunk);
        WaitResult(rest.terminated, p.chunk + rest.output)
  }

  /** The wait loop of RunScriptOnBlendFile, from its first deadline. */
  method WaitForBlender(polls: seq<Poll>, startClock: real, duration: real, finalChunk: string)
    returns (terminated: bool, output: string)
    ensures WaitResult(terminated, output) == WaitSpec(polls, startClock + duration, duration, finalChunk)
  {
    var deadline := startClock + duration;
    terminated := false;
    output := "";
    var i := 0;
    while i < |polls| && polls[i].running
      invariant 0 <= i <= |polls|
      invariant var rest := WaitSpec(polls[i..], deadline, duration, finalChunk);
                WaitSpec(polls, startClock + duration, duration, finalChunk)
                  == WaitResult(rest.terminated, output + rest.output)
    {
      assert polls[i..][1..] == polls[i + 1..];
      if polls[i].clock > deadline {
        if polls[i].answerYes {
          deadline := polls[i].answerClock + duration;
        } else {
          terminated := true;
          assert output + "" == output;
          return;
        }
      }
      output := output + polls[i].chunk;
      i := i + 1;
    }
    output := output + finalChunk;
  }

  /** What the wait loop saw while Blender ran. */
  function Chunks(polls: seq<Poll>): string {
    if |polls| == 0 then "" else Chunks(polls[..|polls| - 1]) + polls[|polls| - 1].chunk
  }

  /** The number of leading polls that found Blender running. */
  function RunningTurns(polls: seq<Poll>): (n: nat)
    ensures n <= |polls|
    ensures forall k :: 0 <= k < n ==> polls[k].running
    ensures n < |polls| ==> !polls[n].running
  {
    if |polls| == 0 || !polls[0].running then 0 else 1 + RunningTurns(polls[1..])
  }

  lemma ChunksCons(polls: seq<Poll>)
    requires |polls| > 0
    ensures Chunks(polls) == polls[0].chunk + Chunks(polls[1..])
    decreases |polls|
  {
    if |polls| > 1 {
      ChunksCons(polls[..|polls| - 1]);
      assert polls[..|polls| - 1][1..] == polls[1..][..|polls[1..]| - 1];
      assert polls[..|polls| - 1][0] == polls[0];
    } else {
      assert polls[1..] == [];
      assert polls[..0] == [];
    }
  }

  /**
   * A completed wait has read every running turn's text and the final
   * text; a terminated one stops at a turn where the user answered "No",
   * with the text of the turns before it.
   */
  lemma {:induction false} WaitOutput(polls: seq<Poll>, deadline: real, duration: real, finalChunk: string)
    ensures var r := WaitSpec(polls, deadline, duration, finalChunk);
            var n := RunningTurns(polls);
            !r.terminated ==> r.output == Chunks(polls[..n]) + finalChunk
    ensures var r := WaitSpec(polls, deadline, duration, finalChunk);
            r.terminated ==> exists k :: 0 <= k < RunningTurns(polls) && !polls[k].answerYes
                                      && r.output == Chunks(polls[..k])
    decreases |polls|
  {
    var r := WaitSpec(polls, deadline, duration, finalChunk);
    if |polls| == 0 || !polls[0].running {
      assert polls[..0] == [];
    } else {
      var p := polls[0];
      if p.clock > deadline && !p.answerYes {
        assert polls[..0] == [];
        assert RunningTurns(polls) >= 1;
      } else {
        var next := if p.clock > deadline then p.answerClock + duration else deadline;
        var rest := polls[1..];
        WaitOutput(rest, next, duration, finalChunk);
        var n := RunningTurns(polls);
        assert n == 1 + RunningTurns(rest);
        if !r.terminated {
          assert polls[..n][1..] == rest[..n - 1];
          ChunksCons(polls[..n]);
        } else {
          var k :| 0 <= k < RunningTurns(rest) && !rest[k].answerYes
                   && WaitSpec(rest, next, duration, finalChunk).output == Chunks(rest[..k]);
          assert polls[..k + 1][1..] == rest[..k];
          ChunksCons(polls[..k + 1]);
          assert polls[k + 1] == rest[k];
        }
      }
    }
  }

  /** A user who always answers "Yes" never has Blender terminated. */
  lemma PatientUserNeverTerminates(polls: seq<Poll>, deadline: real, duration: real, finalChunk: string)
    requires forall k :: 0 <= k < |polls| ==> polls[k].answerYes
    ensures !WaitSpec(polls, deadline, duration, finalChunk).terminated
    ensures WaitSpec(polls, deadline, duration, finalChunk).output
              == Chunks(polls[..RunningTurns(polls)]) + finalChunk
  {
    WaitOutput(polls, deadline, duration, finalChunk);
  }

  /** When Blender exits before the deadline, the user is never asked and the run completes. */
  lemma {:induction false} PromptExitNeverAsks(polls: seq<Poll>, deadline: real, duration: real, finalChunk: string)
    requires forall k :: 0 <= k < RunningTurns(polls) ==> polls[k].clock <= deadline
    ensures !WaitSpec(polls, deadline, duration, finalChunk).terminated
    decreases |polls|
  {
    if |polls| > 0 && polls[0].running {
      var rest := polls[1..];
      assert forall k :: 0 <= k < RunningTurns(rest) ==> rest[k] == polls[k + 1];
      PromptExitNeverAsks(rest, deadline, duration, finalChunk);
    }
  }

  /** The command RunScriptOnBlendFile starts: executable and parameters. */
  datatype Launch = Launch(executable: string, parameters: string)


  /** Whether the script ran to completion, what Blender wrote, and what was started. */
  datatype RunResult = RunResult(succeeded: bool, output: string, launched: Option<Launch>)

  /**
   * The result of RunScriptOnBlendFile for the validated executable `exe`,
   * the launch flags and warning duration from the settings, and the
   * platform's observations.
   */
  function RunSpec(exe: string, flags: LaunchFlags, duration: real, fullPath: string,
                   pluginDir: string, scriptName: string, env: Observations): RunResult
  {
    if exe == "" || !env.pipeCreated then RunResult(false, "", None)
    else
      var launched := Some(Launch(exe, ProcessParameters(flags, fullPath, pluginDir, scriptName)));
      if !env.spawned then RunResult(false, "", launched)
      else
        var w := WaitSpec(env.polls, env.startClock + duration, duration, env.finalChunk);
        RunResult(!w.terminated, w.output, launched)
  }

  function SettingsFlags(settings: ImporterSettings.BlendImporterSettings): LaunchFlags
    reads settings
  {
    LaunchFlags(settings.IsDebug(), settings.IsFactoryStartup(), settings.IsRunInBackground())
  }

  /**
   * RunScriptOnBlendFile: runs `scriptName` from the plugin's Scripts
   * folder on the file at `fullPath`, and reports whether Blender ran to
   * completion and what it wrote.
   */
  method RunScriptOnBlendFile(settings: ImporterSettings.BlendImporterSettings, fullPath: string,
                              pluginDir: string, scriptName: string, env: Observations)
    returns (ok: bool, output: string, launched: Option<Launch>)
    ensures RunResult(ok, output, launched)
              == RunSpec(settings.GetBlenderExecutable(), SettingsFlags(settings),
                         settings.unresponsiveWarningDuration, fullPath, pluginDir, scriptName, env)
  {
    output := "";
    launched := None;
    var exe := settings.GetBlenderExecutable();
    if exe == "" {
      return false, output, launched;
    }
    var flags := LaunchFlags(settings.IsDebug(), settings.IsFactoryStartup(), settings.IsRunInBackground());
    var parameters := ProcessParameters(flags, fullPath, pluginDir, scriptName);
    if !env.pipeCreated {
      return false, output, launched;
    }
    launched := Some(Launch(exe, parameters));
    if env.spawned {
      var terminated;
      terminated, output := WaitForBlender(env.polls, env.startClock, settings.GetUnresponsiveWarningDuration(),
                                           env.finalChunk);
      ok := !terminated;
    } else {
      ok := false;
    }
  }

  /**
   * Without a valid executable nothing is started; a run succeeds only if
   * Blender was started and not terminated, and it then carries the
   * executable the settings validated.
   */
  lemma RunFailures(exe: string, flags: LaunchFlags, duration: real, fullPath: string,
                    pluginDir: string, scriptName: string, env: Observations)
    ensures var r := RunSpec(exe, flags, duration, fullPath, pluginDir, scriptName, env);
            (exe == "" ==> !r.succeeded && r.launched == None)
            && (r.succeeded ==> env.pipeCreated && env.spawned && r.launched.Some? && r.launched.value.executable == exe)
            && (r.launched.Some? ==> BlenderParameters(flags) <= r.launched.value.parameters)
  {
  }

  /** The exit code Blender returns has no bearing on the result. */
  lemma ExitCodeIgnored(exe: string, flags: LaunchFlags, duration: real, fullPath: string,
                        pluginDir: string, scriptName: string, env: Observations, code: int)
    ensures RunSpec(exe, flags, duration, fullPath, pluginDir, scriptName, env)
              == RunSpec(exe, flags, duration, fullPath, pluginDir, scriptName, env.(exitCode := code))
  {
  }
}
