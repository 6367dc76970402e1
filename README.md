# PyAnsys uv launcher — verified model

This project models the PyAnsys uv project's two scripts in Dafny:

- `launcher.py`, the cross-platform launcher. It runs a gated pipeline:
  1. check that `uv` is installed;
  2. create the `.venv` virtual environment if it is missing;
  3. probe for PyAnsys, and install `pyansys[all]` if the probe or the version query fails;
  4. load `.env` into the process environment;
  5. run the verification script;
  6. show usage info, and wait for Enter if asked to keep the terminal open;
  7. exit 1 on any gate failure, otherwise 0 or 1 according to the verification script.
- `main.py`, the verification script. It imports `pyansys`, tries every package of a 7-entry core roster and a 4-entry optional roster, classifies each attempt as OK, Failed or Warning, counts the OK entries, and reports whether it runs inside a virtual environment.

The machine appears only as inputs:

| input | stands for |
|---|---|
| `Runner` | the completed process of each shell command line, given the environment it inherits |
| `venvPresent` | whether `.venv` exists |
| `EnvFile` | the lines of `.env`, and whether reading it raised |
| `Acceptance` | whether `os.environ` accepts an assignment |
| `Importer` | the outcome of importing each module |
| `SysInfo` | the interpreter's prefix attributes |

The two scripts are modelled separately. The launcher sees only the exit
status of `uv run python main.py`. `Verifier.VerifierMain` shows that the
script exits 0 whatever its verification found. So a failed PyAnsys import
inside the script still counts as a successful verification for the launcher.

Files:

- `wrappers.dfy`: `Option` and map lookup.
- `pystr.dfy`: Python's `str.strip` (the `isspace` character set), finding a character, and `s[:n]`.
- `dotenv.dfy`: the `.env` line parser and the fold of its lines into the environment.
- `launcher.dfy`: the stages as functions, the pipeline specification `Expected`, and the class `Bootstrap`. Its methods follow the source step by step and are proved against those functions.
- `launcher_props.dfy`: what the gating promises.
- `verifier.dfy`: `main.py`.

## Model

| member | source | states |
|---|---|---|
| PyStr.IsSpace | pyansys-uv-project/launcher.py:113 | the characters Python's `str.isspace` accepts, which `strip()` removes |
| PyStr.LStrip | pyansys-uv-project/launcher.py:113 | the result is no longer than the input and does not start with whitespace |
| PyStr.RStrip | pyansys-uv-project/launcher.py:113 | the result is no longer than the input and does not end with whitespace |
| PyStr.LStripShape | pyansys-uv-project/launcher.py:113 | left stripping removes exactly a leading run of whitespace and keeps the rest |
| PyStr.RStripShape | pyansys-uv-project/launcher.py:113 | right stripping removes exactly a trailing run of whitespace and keeps the rest |
| PyStr.Strip | pyansys-uv-project/launcher.py:113 | `strip()` gives a string with no whitespace at either end, no longer than the input |
| PyStr.StripShape | pyansys-uv-project/launcher.py:113 | `strip()` returns a contiguous slice of the input, with only whitespace cut before and after it |
| PyStr.StripEndsCommute | pyansys-uv-project/launcher.py:113 | trimming the left then the right end gives the same as the other order |
| PyStr.StripAbsorbs | pyansys-uv-project/launcher.py:113 | stripping after a one-sided strip is the same as stripping once |
| PyStr.AllSpaceStripsToNothing | pyansys-uv-project/launcher.py:113-114 | a blank (all-whitespace) line strips to the empty string, so it is skipped |
| PyStr.StripKeepsAbsence | pyansys-uv-project/launcher.py:115-116 | stripping cannot introduce a character the text lacks, so a key cut before the first `=` stays free of `=` |
| PyStr.StripPadded | pyansys-uv-project/launcher.py:113 | whitespace padding around an already-stripped text strips back to that text |
| PyStr.LStripAppend | pyansys-uv-project/launcher.py:113 | left stripping only touches the front: a suffix starting with a non-space survives unchanged |
| PyStr.RStripPrepend | pyansys-uv-project/launcher.py:113 | right stripping only touches the back: a prefix that is not followed by all-whitespace survives unchanged |
| PyStr.StripAroundSeparator | pyansys-uv-project/launcher.py:113-115 | stripping a line around a non-space separator trims only the outer ends of the two sides |
| PyStr.IndexOf | pyansys-uv-project/launcher.py:115 | the position of the first occurrence of a character |
| PyStr.SplitJoined | pyansys-uv-project/launcher.py:115 | `split(c, 1)` of `l + c + r`, with `c` not in `l`, gives back exactly `l` and `r` |
| PyStr.Truncate | pyansys-uv-project/main.py:40 | Python's `s[:n]`: the first `min(len(s), n)` characters |
| Wrappers.Get | pyansys-uv-project/launcher.py:194 | `dict.get`: present exactly when the key is in the map, with the key's value |
| DotEnv.IsAssignment | pyansys-uv-project/launcher.py:114 | the test a stripped line must pass: non-empty, no leading `#`, holds an `=` |
| DotEnv.ParseLine | pyansys-uv-project/launcher.py:113-116 | a line assigns exactly when, once stripped, it is non-empty, not a `#` comment and contains `=`; the key has no `=`; key and value are both trimmed |
| DotEnv.StripSplitLine | pyansys-uv-project/launcher.py:113-115 | stripping `before=after` trims only the outer ends, and the trimmed left part still holds no `=` |
| DotEnv.SplitPieces | pyansys-uv-project/launcher.py:113-116 | the stripped line, the position of its first `=` and the two trimmed halves for `before=after` |
| DotEnv.ParseLineSplitsAtFirstEquals | pyansys-uv-project/launcher.py:115-116 | a line is split at its first `=`, so the value keeps any later `=`; key and value are the stripped sides |
| DotEnv.ParseLineRoundTrip | pyansys-uv-project/launcher.py:113-116 | writing `key=value` with any whitespace padding and parsing it gives back `(key, value)` |
| DotEnv.Assignments | pyansys-uv-project/launcher.py:112-116 | one parse result per line of the file |
| DotEnv.AssignmentsAppend | pyansys-uv-project/launcher.py:112 | lines are parsed independently of one another |
| DotEnv.Apply | pyansys-uv-project/launcher.py:112-117 | the loop over the lines only ever adds or overwrites keys |
| DotEnv.LoadLines | pyansys-uv-project/launcher.py:111-116 | loading the lines of an existing file never removes a key, and an empty file changes nothing |
| DotEnv.LoadEnvFile | pyansys-uv-project/launcher.py:105-118 | a missing `.env` changes nothing and warns of nothing; an existing one leaves the environment its delivered lines produce, and a read error always gives the warning; loading never removes a key |
| DotEnv.ApplyAppend | pyansys-uv-project/launcher.py:112-117 | lines apply in file order: the first chunk, then the second unless the first stopped |
| DotEnv.SkippedLineHasNoEffect | pyansys-uv-project/launcher.py:113-114 | a blank, comment or `=`-less line has no effect anywhere in the file |
| DotEnv.ApplyLastAssignmentWins | pyansys-uv-project/launcher.py:112-116 | without an exception, each key ends with the value of its last assignment, and unassigned keys keep their old value |
| DotEnv.ApplyKeepsUnassignedKeys | pyansys-uv-project/launcher.py:112-117 | a key no line assigns is unchanged, even when loading stops early |
| DotEnv.ApplyStopsAtFirstRefusal | pyansys-uv-project/launcher.py:110-118 | the first failed assignment ends the loading; the assignments before it stay |
| DotEnv.ApplyWithoutRefusalCompletes | pyansys-uv-project/launcher.py:110-118 | with no failed assignment the loop runs to the end without the warning |
| Launcher.RunResult | pyansys-uv-project/launcher.py:31-46 | `run_command` returns `None` exactly when `check` is set and the command exits non-zero; otherwise it returns the completed process |
| Launcher.UvStage | pyansys-uv-project/launcher.py:49-59 | issues `uv --version` and passes exactly when it exits 0 |
| Launcher.VenvStage | pyansys-uv-project/launcher.py:62-77 | issues `uv venv --python 3.11` only when `.venv` is absent; passes when `.venv` was present or the command exits 0 |
| Launcher.InstallStage | pyansys-uv-project/launcher.py:80-102 | issues exactly the import probe, then the version query when the probe exits 0, then `uv add "pyansys[all]"` when the probe or the query fails, in that order and nothing else; passes when both succeed or the install does |
| Launcher.VerifyStage | pyansys-uv-project/launcher.py:121-136 | issues `uv run python main.py` in the given environment and passes exactly when it exits 0 |
| Launcher.Expected | pyansys-uv-project/launcher.py:159-198 | the gated pipeline: the exit status is 0 or 1; usage info is shown exactly when the verification runs; loading never removes a key, and the environment changes only on the path that reaches the verification |
| Launcher.KeepOpen | pyansys-uv-project/launcher.py:194 | wait when `--keep-open` is on the command line or `KEEP_TERMINAL_OPEN` is set to a non-empty string |
| Launcher.Bootstrap.RunCommand | pyansys-uv-project/launcher.py:31-46 | the command line is appended to the log and the result follows `RunResult` |
| Launcher.Bootstrap.CheckUvInstalled | pyansys-uv-project/launcher.py:49-59 | issues `uv --version` and reports the uv stage's outcome |
| Launcher.Bootstrap.SetupVirtualEnvironment | pyansys-uv-project/launcher.py:62-77 | issues `uv venv --python 3.11` only without `.venv`; `.venv` exists afterwards when it existed or was made |
| Launcher.Bootstrap.CheckPyansysInstallation | pyansys-uv-project/launcher.py:80-102 | probe, version query, then install when either fails, as the install stage specifies |
| Launcher.Bootstrap.LoadEnvironmentVariables | pyansys-uv-project/launcher.py:105-118 | the loop leaves the environment `LoadEnvFile` specifies, and warns exactly when loading was cut short |
| Launcher.Bootstrap.LaunchVerification | pyansys-uv-project/launcher.py:121-136 | issues `uv run python main.py` in the current (`.env`-loaded) environment and succeeds exactly when it exits 0 |
| Launcher.Bootstrap.RunMain | pyansys-uv-project/launcher.py:159-198 | the command log, exit status, `.venv`, environment, usage info and pause are those of the pipeline specification `Expected` |
| LauncherProperties.CommandsDistinct | pyansys-uv-project/launcher.py:51-127 | the six command lines are pairwise different, so the log tells which stages ran |
| LauncherProperties.UvMissingStopsEverything | pyansys-uv-project/launcher.py:159-174 | without uv, only `uv --version` is issued and the exit status is 1 |
| LauncherProperties.FailedStageHaltsLauncher | pyansys-uv-project/launcher.py:173-182 | a failed gate gives exit 1 and issues nothing after its own commands: `[uv --version]` when uv fails, `[uv --version, uv venv]` when the venv fails, the gates' commands alone when the install fails; `.env` is not loaded; no usage info and no pause |
| LauncherProperties.IssuedFollowsPipelineOrder | pyansys-uv-project/launcher.py:173-188 | the commands issued are a prefix of the stage order, the whole of it when the gates pass; the verification runs exactly when all gates pass |
| LauncherProperties.InstallAttemptedIff | pyansys-uv-project/launcher.py:80-102 | `uv add "pyansys[all]"` is issued exactly when uv and `.venv` are fine and the probe or the version query fails |
| LauncherProperties.ExitStatus | pyansys-uv-project/launcher.py:173-198 | the exit status is 0 exactly when all gates pass and the verification, run in the environment `.env` produced, exits 0; usage info is shown exactly when the gates pass, whatever the verification gives |
| LauncherProperties.VenvAfterwards | pyansys-uv-project/launcher.py:62-77 | `.venv` exists after a run exactly when it existed before, or uv was found and `uv venv` succeeded |
| LauncherProperties.RerunSkipsVenvCreation | pyansys-uv-project/launcher.py:64-77 | once `.venv` exists, a second run does not create it again |
| LauncherProperties.EnvFileNeverDecidesGates | pyansys-uv-project/launcher.py:173-188 | whatever `.env` holds or whatever the platform refuses, the commands issued, `.venv` and usage info are the same |
| LauncherProperties.EnvFileCanDecideVerification | pyansys-uv-project/launcher.py:184-198 | a `.env` under which the verification fails, though it passes without it, turns exit 0 into exit 1: the script inherits the loaded environment |
| LauncherProperties.PauseDecision | pyansys-uv-project/launcher.py:184-196 | the pause happens exactly when the gates pass and the flag is given or the loaded environment has a non-empty `KEEP_TERMINAL_OPEN` |
| LauncherProperties.KeepOpenLineParses | pyansys-uv-project/launcher.py:113-116 | the line `KEEP_TERMINAL_OPEN=<value>` assigns `KEEP_TERMINAL_OPEN` the stripped value |
| LauncherProperties.KeepOpenLineLoads | pyansys-uv-project/launcher.py:107-116 | a `.env` holding only `KEEP_TERMINAL_OPEN=<value>`, when the platform accepts it, leaves the environment with that variable set to the stripped value and nothing else changed |
| LauncherProperties.KeepOpenFromEnvFile | pyansys-uv-project/launcher.py:184-194 | a `.env` line `KEEP_TERMINAL_OPEN=<value>` pauses exactly when the stripped value is non-empty (`0` included) |
| LauncherProperties.FreshCheckoutScenario | pyansys-uv-project/launcher.py:159-198 | with uv, a creatable `.venv` and PyAnsys importable: `uv --version`, `uv venv`, probe, version query and verification, in that order, with no install |
| Verifier.Classify | pyansys-uv-project/main.py:34-67 | exactly one of OK (import succeeds), Failed (`ImportError`, checked first) or Warning (any other exception); a core Failed or Warning shows exactly the first 50 characters of the message, an optional Warning exactly the first 30, an optional Failed none |
| Verifier.ModuleNames | pyansys-uv-project/main.py:34 | the roster's module names, in order |
| Verifier.ClassifyAll | pyansys-uv-project/main.py:34-61 | one report per roster entry, in roster order |
| Verifier.CountOk | pyansys-uv-project/main.py:33-38 | the running count never exceeds the number of entries |
| Verifier.CountOkIsOkEntries | pyansys-uv-project/main.py:33-38 | the count the loop keeps is the number of OK entries |
| Verifier.CheckRoster | pyansys-uv-project/main.py:33-43 | one import attempt per entry in roster order; the reports are the classification; the count is the number of OK entries, at most the roster's length |
| Verifier.Caught | pyansys-uv-project/main.py:72-77 | an `ImportError` escaping the top level is reported as a failed import, any other exception as unexpected; the result is False with the message |
| Verifier.Verify | pyansys-uv-project/main.py:7-82 | succeeds exactly when `import pyansys` and `__version__` succeed; an `ImportError` from either is a failed import, any other exception unexpected; a success reports the version and one entry per roster package |
| Verifier.VerifyPyansysInstallation | pyansys-uv-project/main.py:7-82 | returns True exactly when the report is `Verified`, that report is the one `Verify` specifies, and it tries every core then every optional module once, in roster order (none when `pyansys` fails) |
| Verifier.InVirtualEnvironment | pyansys-uv-project/main.py:91 | `real_prefix` exists, or `base_prefix` exists and differs from `prefix` |
| Verifier.VirtualEnvironmentCases | pyansys-uv-project/main.py:91 | a legacy virtualenv and a venv are detected; an interpreter whose `base_prefix` equals `prefix`, or has neither attribute, is not |
| Verifier.TestVirtualEnvironment | pyansys-uv-project/main.py:85-97 | reports a virtual environment exactly when `real_prefix` exists, or `base_prefix` exists and differs from `prefix` |
| Verifier.VerifierMain | pyansys-uv-project/main.py:100-103 | both checks run, and the process exits 0 whatever the verification reported |
| Verifier.ResultIgnoresRosters | pyansys-uv-project/main.py:13-82 | the result is True exactly when `import pyansys` and `pyansys.__version__` succeed; no roster outcome changes it |
| Verifier.VerifiedReportShape | pyansys-uv-project/main.py:20-70 | a successful run reports 7 core and 4 optional entries in roster order, each OK exactly when its own import succeeded, with counts within 0..7 and 0..4 |
| Verifier.AllOkCount | pyansys-uv-project/main.py:33-38 | when every entry is OK the count is the roster's length |
| Verifier.NoOkCount | pyansys-uv-project/main.py:33-38 | when no entry is OK the count is zero |
| Verifier.EverythingInstalled | pyansys-uv-project/main.py:45-70 | with every package importable the summaries read 7/7 and 4/4 |
| Verifier.NothingElseInstalled | pyansys-uv-project/main.py:39-82 | with only `pyansys` importable the summaries read 0/7 and 0/4, every core entry is Failed, and the result is still True |

## Left out

- Console output is not modelled: colours and the Windows fallback of `print_colored`, the banners, the text of `show_usage_info`, and the `:<20`/`:<35` padding of report lines. Only the decision to show usage info and the Status of each report line are modelled.
- `subprocess.run` and `uv` are not modelled. A shell command is a function from the inherited environment and the command line to its completed process (exit status, stdout, stderr). Within one run each command line is issued at most once, so the function may also stand for the rest of the machine's state when the run starts. It does not capture a shell whose answers change between two runs for reasons other than the environment.
- `.venv` is modelled as a flag. A successful `uv venv` is taken to leave `.venv` in place, and a failed one to leave none.
- The `.env` file is given as the lines iteration delivered, plus whether reading raised after them. Opening, decoding and newline handling are not modelled.
- `os.environ` assignment failure is modelled as an acceptance function. The platform's own rules for names and values are not modelled.
- The environment is a case-sensitive map, as on POSIX. On Windows `os.environ` upper-cases keys, so `Foo=1` and `FOO=2` set one key and `keep_terminal_open=1` pauses. DotEnv.ApplyLastAssignmentWins, LauncherProperties.KeepOpenFromEnvFile and LauncherProperties.PauseDecision describe case-sensitive keys only.
- `os.chdir` is left out. `venvPresent`, `envFile` and the runner stand for what is seen from the script's directory, which `main` switches to before any check.
- The blocking `input()` and its `EOFError` are left out. Only the decision to pause is modelled.
- The top-level `KeyboardInterrupt` and `Exception` handlers of the launcher are left out. Nothing in the model raises past `main`.
- `importlib.import_module` becomes an import oracle. Exceptions that are not `Exception` subclasses (`SystemExit`, `KeyboardInterrupt`) are left out, and so are failures of `print` itself.
- The printing of `sys.executable`, `sys.version` and the virtual-environment path is left out. Only the virtual-environment test is modelled.
- `show_usage_info`'s Windows/other branch is left out: it only chooses a line of text.
