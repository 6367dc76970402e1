/** What the launcher's gating promises, proved about `Launcher.Expected`. */
module LauncherProperties {
  import opened Wrappers
  import opened PyStr
  import opened DotEnv
  import opened Launcher

  /** Every command line the launcher can issue, in pipeline order. */
  const PipelineCommands: seq<string> := [UvVersion, VenvCreate, ProbePyansys, QueryVersion, InstallPyansys, RunVerifier]

  /** No two of the launcher's command lines coincide, so the command log says which stages ran. */
  lemma CommandsDistinct()
    ensures forall i, j :: 0 <= i < j < |PipelineCommands| ==> PipelineCommands[i] != PipelineCommands[j]
  {
  }

  /** The environment after `.env` loading, which the verification script inherits. */
  function LoadedEnv(w: World): Env {
    LoadEnvFile(w.environ, w.envFile, w.accepts).env
  }

  /** The three gating stages (uv, `.venv`, PyAnsys) all succeed; they run in the environment the launcher started with. */
  predicate StagesPass(w: World) {
    && UvStage(w.run, w.environ).passed
    && VenvStage(w.run, w.environ, w.venvPresent).passed
    && InstallStage(w.run, w.environ).passed
  }

  /** Without `uv` the launcher issues nothing else and exits 1. */
  lemma UvMissingStopsEverything(w: World)
    requires w.run(w.environ, UvVersion).returncode != 0
    ensures Expected(w) == Session([UvVersion], 1, w.venvPresent, w.environ, false, false)
  {
  }

  /**
   * A failed gate: exit 1, no later gate's command and no verification is
   * issued, `.env` is not loaded, no usage info, no pause.
   */
  lemma FailedStageHaltsLauncher(w: World)
    requires !StagesPass(w)
    ensures var s := Expected(w);
            && s.exitCode == 1 && RunVerifier !in s.issued && s.environ == w.environ
            && !s.usageShown && !s.paused
    ensures var s, uv, venv := Expected(w), UvStage(w.run, w.environ), VenvStage(w.run, w.environ, w.venvPresent);
            && (!uv.passed ==> s.issued == [UvVersion])
            && (uv.passed && !venv.passed ==> s.issued == [UvVersion, VenvCreate])
            && (uv.passed && venv.passed ==> s.issued == [UvVersion] + venv.issued + InstallStage(w.run, w.environ).issued)
  {
  }

  /** The commands issued are always a prefix of the full pipeline, all of it when the gates pass, and the verification runs exactly when they do. */
  lemma IssuedFollowsPipelineOrder(w: World)
    ensures var all := UvStage(w.run, w.environ).issued + VenvStage(w.run, w.environ, w.venvPresent).issued
                       + InstallStage(w.run, w.environ).issued + VerifyStage(w.run, LoadedEnv(w)).issued;
            && Expected(w).issued <= all
            && (StagesPass(w) ==> Expected(w).issued == all)
    ensures RunVerifier in Expected(w).issued <==> StagesPass(w)
  {
  }

  /** PyAnsys is installed exactly when uv and `.venv` are fine and either the import probe or the version query fails. */
  lemma InstallAttemptedIff(w: World)
    ensures InstallPyansys in Expected(w).issued <==>
              && w.run(w.environ, UvVersion).returncode == 0
              && (w.venvPresent || w.run(w.environ, VenvCreate).returncode == 0)
              && (w.run(w.environ, ProbePyansys).returncode != 0 || w.run(w.environ, QueryVersion).returncode != 0)
  {
  }

  /**
   * The exit status is 0 exactly when every gate passes and the verification
   * script, run in the environment `.env` produced, exits 0; usage info
   * appears exactly when the gates pass.
   */
  lemma ExitStatus(w: World)
    ensures Expected(w).exitCode == 0 <==> StagesPass(w) && w.run(LoadedEnv(w), RunVerifier).returncode == 0
    ensures Expected(w).usageShown <==> StagesPass(w)
  {
  }

  /** `.venv` exists afterwards exactly when it existed before or uv was found and `uv venv` succeeded. */
  lemma VenvAfterwards(w: World)
    ensures Expected(w).venvPresent <==>
              w.venvPresent || (w.run(w.environ, UvVersion).returncode == 0 && w.run(w.environ, VenvCreate).returncode == 0)
  {
  }

  /** A second run after `.venv` was made does not create it again. */
  lemma RerunSkipsVenvCreation(w: World)
    requires Expected(w).venvPresent
    ensures VenvCreate !in Expected(w.(venvPresent := true)).issued
  {
  }

  /**
   * Loading `.env` never decides a gate: whatever the file holds and whatever
   * the platform refuses, the commands issued, `.venv` and the usage info
   * are the same. (The exit status may differ: the verification script
   * inherits the loaded environment.)
   */
  lemma EnvFileNeverDecidesGates(w: World, file: EnvFile, accepts: Acceptance)
    ensures var s, t := Expected(w), Expected(w.(envFile := file, accepts := accepts));
            && s.issued == t.issued && s.venvPresent == t.venvPresent && s.usageShown == t.usageShown
  {
  }

  /**
   * `.env` can decide the verification: when the script succeeds in the
   * starting environment but fails in the loaded one (a `.env` that breaks
   * `PATH`, say), the launcher exits 1, while without `.env` it exits 0.
   */
  lemma EnvFileCanDecideVerification(w: World)
    requires StagesPass(w)
    requires w.run(w.environ, RunVerifier).returncode == 0 && w.run(LoadedEnv(w), RunVerifier).returncode != 0
    ensures Expected(w).exitCode == 1 && Expected(w.(envFile := Absent)).exitCode == 0
  {
  }

  /** The launcher waits for Enter exactly when the gates pass and `--keep-open` was given or the loaded environment has a non-empty `KEEP_TERMINAL_OPEN`. */
  lemma PauseDecision(w: World)
    ensures Expected(w).paused <==>
              StagesPass(w)
              && (KeepOpenFlag in w.argv
                  || var env := LoadedEnv(w);
                     KeepOpenVar in env && env[KeepOpenVar] != "")
  {
  }

  /** The line `KEEP_TERMINAL_OPEN=<value>` assigns the stripped value to that variable. */
  lemma KeepOpenLineParses(value: string)
    ensures ParseLine(KeepOpenVar + "=" + value) == Some((KeepOpenVar, Strip(value)))
  {
    assert Strip(KeepOpenVar) == KeepOpenVar by {
      assert !IsSpace(KeepOpenVar[0]) && !IsSpace(KeepOpenVar[|KeepOpenVar| - 1]);
      StripPadded([], KeepOpenVar, []);
      assert [] + KeepOpenVar + [] == KeepOpenVar;
    }
    assert LStrip(KeepOpenVar)[0] != '#';
    ParseLineSplitsAtFirstEquals(KeepOpenVar, value);
  }

  /** The one-line `.env` file `KEEP_TERMINAL_OPEN=<value>` sets that variable to the stripped value. */
  lemma KeepOpenLineLoads(environ: Env, value: string, accepts: Acceptance)
    requires accepts(KeepOpenVar, Strip(value))
    ensures LoadEnvFile(environ, Present([KeepOpenVar + "=" + value], false), accepts).env
         == environ[KeepOpenVar := Strip(value)]
  {
    var ps := Assignments([KeepOpenVar + "=" + value]);
    assert ps == [Some((KeepOpenVar, Strip(value)))] by { KeepOpenLineParses(value); }
    assert Apply(environ, ps, accepts) == Apply(environ[KeepOpenVar := Strip(value)], [], accepts);
  }

  /**
   * A `.env` line `KEEP_TERMINAL_OPEN=<value>` makes the launcher wait exactly
   * when the value is not blank: an empty value is falsy, while any other
   * text, `0` included, is truthy.
   */
  lemma KeepOpenFromEnvFile(w: World, value: string)
    requires StagesPass(w) && KeepOpenFlag !in w.argv
    requires w.envFile == Present([KeepOpenVar + "=" + value], false)
    requires w.accepts(KeepOpenVar, Strip(value))
    ensures Expected(w).paused <==> Strip(value) != ""
  {
    KeepOpenLineLoads(w.environ, value, w.accepts);
    PauseDecision(w);
  }

  /** A fresh checkout with uv and PyAnsys available: the venv is made, PyAnsys is found, the installer is skipped. */
  lemma FreshCheckoutScenario(w: World)
    requires !w.venvPresent
    requires w.run(w.environ, UvVersion).returncode == 0 && w.run(w.environ, VenvCreate).returncode == 0
    requires w.run(w.environ, ProbePyansys).returncode == 0 && w.run(w.environ, QueryVersion).returncode == 0
    ensures Expected(w).issued == [UvVersion, VenvCreate, ProbePyansys, QueryVersion, RunVerifier]
    ensures Expected(w).venvPresent && Expected(w).usageShown
  {
  }
}
