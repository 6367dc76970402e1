/**
 * The cross-platform launcher: a gated pipeline that checks for `uv`, makes
 * the `.venv` virtual environment, checks for PyAnsys and installs it, loads
 * `.env` and runs the verification script.
 *
 * The operating system becomes inputs: `run` gives the finished process of
 * each shell command line run in a given environment, `venvPresent` whether
 * `.venv` exists, `envFile` the `.env` file, `accepts` whether the platform
 * takes an environment assignment, `argv` the command line. Within one run
 * each command line is issued at most once, so `run` may also stand for
 * whatever else the machine holds when the run starts.
 */
module Launcher {
  import opened Wrappers
  import opened DotEnv

  /** A finished shell command, `subprocess.CompletedProcess`. */
  datatype Completed = Completed(returncode: int, stdout: string, stderr: string)

  /**
   * What the shell does with each command line, given the environment the
   * child process inherits (`subprocess.run` passes `os.environ` on).
   */
  type Runner = (Env, string) -> Completed

  /** `run_command`: with `check`, a non-zero exit raises `CalledProcessError`, which is caught and turned into `None`. */
  function RunResult(res: Completed, check: bool): (r: Option<Completed>)
    ensures r.None? <==> check && res.returncode != 0
    ensures r.Some? ==> r.value == res
  {
    if check && res.returncode != 0 then None else Some(res)
  }

  const UvVersion: string := "uv --version"
  const VenvCreate: string := "uv venv --python 3.11"
  const ProbePyansys: string := "uv run python -c \"import pyansys\""
  const QueryVersion: string := "uv run python -c \"import pyansys; print(pyansys.__version__)\""
  const InstallPyansys: string := "uv add \"pyansys[all]\""
  const RunVerifier: string := "uv run python main.py"
  const KeepOpenFlag: string := "--keep-open"
  const KeepOpenVar: string := "KEEP_TERMINAL_OPEN"

  /** The command lines one stage issued, in order, and whether it reported success. */
  datatype StageRun = StageRun(issued: seq<string>, passed: bool)

  /** `check_uv_installed`: passes exactly when `uv --version` exits 0. */
  function UvStage(run: Runner, env: Env): (r: StageRun)
    ensures r.issued == [UvVersion]
    ensures r.passed <==> run(env, UvVersion).returncode == 0
  {
    var result := RunResult(run(env, UvVersion), false);
    StageRun([UvVersion], result.Some? && result.value.returncode == 0)
  }

  /** `setup_virtual_environment`: runs `uv venv` only without `.venv`, and then passes exactly when it exits 0. */
  function VenvStage(run: Runner, env: Env, venvPresent: bool): (r: StageRun)
    ensures r.issued == (if venvPresent then [] else [VenvCreate])
    ensures r.passed <==> venvPresent || run(env, VenvCreate).returncode == 0
  {
    if !venvPresent then StageRun([VenvCreate], RunResult(run(env, VenvCreate), true).Some?)
    else StageRun([], true)
  }

  /**
   * `check_pyansys_installation`: probe the import, then ask the version;
   * install on either failure. It passes when PyAnsys was found or installed.
   */
  function InstallStage(run: Runner, env: Env): (r: StageRun)
    ensures var probeOk := run(env, ProbePyansys).returncode == 0;
            r.issued == [ProbePyansys] + (if probeOk then [QueryVersion] else [])
                        + (if probeOk && run(env, QueryVersion).returncode == 0 then [] else [InstallPyansys])
    ensures r.passed <==>
              (run(env, ProbePyansys).returncode == 0 && run(env, QueryVersion).returncode == 0)
              || run(env, InstallPyansys).returncode == 0
    ensures QueryVersion in r.issued <==> run(env, ProbePyansys).returncode == 0
    ensures InstallPyansys in r.issued <==>
              run(env, ProbePyansys).returncode != 0 || run(env, QueryVersion).returncode != 0
  {
    var probe := RunResult(run(env, ProbePyansys), false);
    var install := RunResult(run(env, InstallPyansys), true).Some?;
    if probe.Some? && probe.value.returncode == 0 then
      if RunResult(run(env, QueryVersion), true).Some? then StageRun([ProbePyansys, QueryVersion], true)
      else StageRun([ProbePyansys, QueryVersion, InstallPyansys], install)
    else StageRun([ProbePyansys, InstallPyansys], install)
  }

  /** `launch_verification`: `uv run python main.py`, passing exactly when it exits 0. */
  function VerifyStage(run: Runner, env: Env): (r: StageRun)
    ensures r.issued == [RunVerifier]
    ensures r.passed <==> run(env, RunVerifier).returncode == 0
  {
    StageRun([RunVerifier], RunResult(run(env, RunVerifier), true).Some?)
  }

  /** The keep-open test: the flag on the command line, or a non-empty `KEEP_TERMINAL_OPEN` (an empty string is falsy). */
  function KeepOpen(argv: seq<string>, env: Env): (r: bool)
    ensures r <==> KeepOpenFlag in argv || (KeepOpenVar in env && env[KeepOpenVar] != "")
  {
    var v := Get(env, KeepOpenVar);
    KeepOpenFlag in argv || (v.Some? && v.value != "")
  }

  /** Everything a launcher run depends on. */
  datatype World = World(run: Runner, venvPresent: bool, envFile: EnvFile, accepts: Acceptance,
                         environ: Env, argv: seq<string>)

  /** What a launcher run does: commands issued, exit status, resulting state, and whether it shows usage and waits for Enter. */
  datatype Session = Session(issued: seq<string>, exitCode: int, venvPresent: bool, environ: Env,
                             usageShown: bool, paused: bool)

  /**
   * `main` of the launcher: uv check, venv setup, PyAnsys check/install, each
   * returning 1 on failure; then `.env` loading (never fatal), verification,
   * usage info, the keep-open test, and 0 or 1 by the verification's result.
   * A successful `uv venv` leaves `.venv` in place.
   */
  function Expected(w: World): (s: Session)
    ensures s.exitCode == 0 || s.exitCode == 1
    ensures s.usageShown <==> RunVerifier in s.issued
    ensures w.environ.Keys <= s.environ.Keys
    ensures s.environ != w.environ ==> s.usageShown
  {
    var uv := UvStage(w.run, w.environ);
    if !uv.passed then Session(uv.issued, 1, w.venvPresent, w.environ, false, false)
    else
      var venv := VenvStage(w.run, w.environ, w.venvPresent);
      var present := w.venvPresent || venv.passed;
      if !venv.passed then Session(uv.issued + venv.issued, 1, present, w.environ, false, false)
      else
        var install := InstallStage(w.run, w.environ);
        var issued := uv.issued + venv.issued + install.issued;
        if !install.passed then Session(issued, 1, present, w.environ, false, false)
        else
          var env := LoadEnvFile(w.environ, w.envFile, w.accepts).env;
          var verify := VerifyStage(w.run, env);
          Session(issued + verify.issued, if verify.passed then 0 else 1, present, env, true, KeepOpen(w.argv, env))
  }

  /** The launcher process: its view of the machine, and what it changes (the command log, `.venv`, `os.environ`). */
  class Bootstrap {
    const run: Runner
    const envFile: EnvFile
    const accepts: Acceptance
    const argv: seq<string>
    var venvPresent: bool
    var environ: Env
    /** Every command line handed to the shell so far, in order. */
    var issued: seq<string>

    constructor (run: Runner, venvPresent: bool, envFile: EnvFile, accepts: Acceptance, environ: Env, argv: seq<string>)
      ensures this.run == run && this.venvPresent == venvPresent && this.envFile == envFile
      ensures this.accepts == accepts && this.environ == environ && this.argv == argv
      ensures issued == []
    {
      this.run := run;
      this.venvPresent := venvPresent;
      this.envFile := envFile;
      this.accepts := accepts;
      this.environ := environ;
      this.argv := argv;
      issued := [];
    }

    function State(): World
      reads this
    {
      World(run, venvPresent, envFile, accepts, environ, argv)
    }

    /** `run_command(cmd, check=check)`. */
    method RunCommand(cmd: string, check: bool) returns (r: Option<Completed>)
      modifies this`issued
      ensures issued == old(issued) + [cmd]
      ensures r == RunResult(run(environ, cmd), check)
    {
      issued := issued + [cmd];
      r := RunResult(run(environ, cmd), check);
    }

    method CheckUvInstalled() returns (ok: bool)
      modifies this`issued
      ensures var s := UvStage(run, environ); issued == old(issued) + s.issued && ok == s.passed
    {
      var result := RunCommand(UvVersion, false);
      ok := result.Some? && result.value.returncode == 0;
    }

    method SetupVirtualEnvironment() returns (ok: bool)
      modifies this`issued, this`venvPresent
      ensures var s := VenvStage(run, environ, old(venvPresent)); issued == old(issued) + s.issued && ok == s.passed
      ensures venvPresent == (old(venvPresent) || ok)
    {
      if !venvPresent {
        var result := RunCommand(VenvCreate, true);
        ok := result.Some?;
        venvPresent := ok;
      } else {
        ok := true;
      }
    }

    method CheckPyansysInstallation() returns (ok: bool)
      modifies this`issued
      ensures var s := InstallStage(run, environ); issued == old(issued) + s.issued && ok == s.passed
    {
      var result := RunCommand(ProbePyansys, false);
      if result.Some? && result.value.returncode == 0 {
        var versionResult := RunCommand(QueryVersion, true);
        if versionResult.Some? {
          return true;
        }
      }
      result := RunCommand(InstallPyansys, true);
      ok := result.Some?;
    }

    /** `load_environment_variables`; `warned` says whether it printed the warning. */
    method LoadEnvironmentVariables() returns (warned: bool)
      modifies this`environ
      ensures var l := LoadEnvFile(old(environ), envFile, accepts); environ == l.env && warned == l.stopped
    {
      if envFile.Absent? {
        return false;
      }
      var lines := envFile.lines;
      ghost var ps := Assignments(lines);
      var i := 0;
      while i < |lines|
        invariant 0 <= i <= |lines|
        invariant Apply(old(environ), ps, accepts) == Apply(environ, ps[i..], accepts)
      {
        var assignment := ParseLine(lines[i]);
        assert ps[i..][0] == assignment && ps[i..][1..] == ps[i + 1..];
        if assignment.Some? {
          var (key, value) := assignment.value;
          if !accepts(key, value) {
            return true;
          }
          environ := environ[key := value];
        }
        i := i + 1;
      }
      return envFile.readError;
    }

    method LaunchVerification() returns (ok: bool)
      modifies this`issued
      ensures var s := VerifyStage(run, environ); issued == old(issued) + s.issued && ok == s.passed
    {
      var result := RunCommand(RunVerifier, true);
      ok := result.Some?;
    }

    /** The launcher's `main`; `usageShown` and `paused` record `show_usage_info` and the wait for Enter. */
    method RunMain() returns (exitCode: int, usageShown: bool, paused: bool)
      modifies this`issued, this`venvPresent, this`environ
      ensures var s := Expected(old(State()));
              && issued == old(issued) + s.issued && exitCode == s.exitCode
              && venvPresent == s.venvPresent && environ == s.environ
              && usageShown == s.usageShown && paused == s.paused
    {
      ghost var start, log := State(), issued;
      ghost var uv := UvStage(run, environ);
      var ok := CheckUvInstalled();
      if !ok {
        assert Expected(start) == Session(uv.issued, 1, start.venvPresent, environ, false, false);
        return 1, false, false;
      }
      ghost var venv := VenvStage(run, environ, start.venvPresent);
      ok := SetupVirtualEnvironment();
      if !ok {
        assert Expected(start) == Session(uv.issued + venv.issued, 1, venvPresent, environ, false, false);
        return 1, false, false;
      }
      ghost var install := InstallStage(run, environ);
      ok := CheckPyansysInstallation();
      ghost var gates := uv.issued + venv.issued + install.issued;
      assert issued == log + gates;
      if !ok {
        assert Expected(start) == Session(gates, 1, venvPresent, environ, false, false);
        return 1, false, false;
      }
      var _ := LoadEnvironmentVariables();
      var success := LaunchVerification();
      assert issued == log + (gates + [RunVerifier]);
      usageShown := true;
      paused := KeepOpen(argv, environ);
      exitCode := if success then 0 else 1;
    }
  }
}
