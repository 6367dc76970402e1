/**
 * The installation verifier (`main.py`): imports `pyansys`, then tries each
 * package of a core roster and an optional roster, classifies every attempt
 * and counts the successes. Imports are given by an `Importer`, the
 * interpreter's prefixes by a `SysInfo`.
 */
module Verifier {
  import opened Wrappers
  import opened PyStr

  /** An exception escaping an import: `ImportError` (with its subclasses) or any other `Exception`. */
  datatype Exception = ImportError(message: string) | OtherError(message: string)

  /** The outcome of importing one module. */
  datatype ImportOutcome = Imported | Raised(exception: Exception)

  /** What `import_module` does for each dotted module name. */
  type Importer = string -> ImportOutcome

  /** A roster entry: module name and display name. */
  datatype Package = Package(name: string, display: string)

  /** One printed verdict: OK, Failed (with the shown part of the message, if any) or Warning. */
  datatype Status = Ok | Failed(shown: Option<string>) | Warning(excerpt: string)

  datatype Report = Report(package: Package, status: Status)

  datatype Roster = Core | Optional

  const CorePackages: seq<Package> := [
    Package("ansys.mapdl.core", "PyMAPDL"),
    Package("ansys.fluent.core", "PyFluent"),
    Package("ansys.dpf.core", "PyDPF Core"),
    Package("ansys.mechanical.core", "PyMechanical"),
    Package("pyaedt", "PyAEDT"),
    Package("ansys.geometry.core", "PyAnsys Geometry"),
    Package("pytwin", "PyTwin")
  ]

  const OptionalPackages: seq<Package> := [
    Package("ansys.mapdl.reader", "PyMAPDL Reader (mapdl-all)"),
    Package("ansys.fluent.visualization", "Fluent Visualization (fluent-all)"),
    Package("ansys.materials.manager", "Materials Manager (tools)"),
    Package("ansys.units", "Ansys Units (tools)")
  ]

  /** How much of an exception message a roster's Warning line shows. */
  function WarningLimit(roster: Roster): nat {
    if roster.Core? then 50 else 30
  }

  /**
   * The `except` clauses of a roster loop: `ImportError` is tried first. A core
   * Failed shows 50 characters of the message, an optional one none; a
   * Warning shows 50 (core) or 30 (optional).
   */
  function Classify(roster: Roster, outcome: ImportOutcome): (s: Status)
    ensures s.Ok? <==> outcome.Imported?
    ensures s.Failed? <==> outcome.Raised? && outcome.exception.ImportError?
    ensures s.Warning? <==> outcome.Raised? && outcome.exception.OtherError?
    ensures s.Failed? && roster.Core? ==>
              var m := outcome.exception.message;
              s.shown == Some(m[..if |m| <= 50 then |m| else 50])
    ensures s.Failed? && roster.Optional? ==> s.shown.None?
    ensures s.Warning? ==>
              var m := outcome.exception.message;
              s.excerpt == m[..if |m| <= WarningLimit(roster) then |m| else WarningLimit(roster)]
  {
    match outcome
    case Imported => Ok
    case Raised(ImportError(m)) => if roster.Core? then Failed(Some(Truncate(m, 50))) else Failed(None)
    case Raised(OtherError(m)) => Warning(Truncate(m, WarningLimit(roster)))
  }

  /** The reports of a roster: one per entry, in roster order. */
  function ClassifyAll(roster: Roster, packages: seq<Package>, importer: Importer): (rs: seq<Report>)
    ensures |rs| == |packages|
    ensures forall i :: 0 <= i < |rs| ==> rs[i].package == packages[i]
  {
    seq(|packages|, i requires 0 <= i < |packages| => Report(packages[i], Classify(roster, importer(packages[i].name))))
  }

  /** The running count of OK reports, as the loop keeps it. */
  function CountOk(reports: seq<Report>): (n: nat)
    ensures n <= |reports|
  {
    if reports == [] then 0
    else CountOk(reports[..|reports| - 1]) + (if reports[|reports| - 1].status.Ok? then 1 else 0)
  }

  /** Reference reading of the count: the positions whose report is OK. */
  function OkPositions(reports: seq<Report>): set<nat> {
    set i: nat | i < |reports| && reports[i].status.Ok?
  }

  /** The loop's count is the number of OK entries. */
  lemma {:induction false} CountOkIsOkEntries(reports: seq<Report>)
    ensures CountOk(reports) == |OkPositions(reports)|
    decreases |reports|
  {
    if reports != [] {
      var init := reports[..|reports| - 1];
      CountOkIsOkEntries(init);
      var last: nat := |reports| - 1;
      if reports[last].status.Ok? {
        assert OkPositions(reports) == OkPositions(init) + {last};
      } else {
        assert OkPositions(reports) == OkPositions(init);
      }
    }
  }

  /** The module names of a roster, in order. */
  function ModuleNames(packages: seq<Package>): (names: seq<string>)
    ensures |names| == |packages| && forall i :: 0 <= i < |packages| ==> names[i] == packages[i].name
  {
    seq(|packages|, i requires 0 <= i < |packages| => packages[i].name)
  }

  /**
   * One roster loop: one import attempt per entry in roster order (`attempts`
   * lists the module names tried), one report per entry, and the count of OK
   * entries.
   */
  method CheckRoster(roster: Roster, packages: seq<Package>, importer: Importer)
    returns (attempts: seq<string>, reports: seq<Report>, count: nat)
    ensures attempts == ModuleNames(packages)
    ensures reports == ClassifyAll(roster, packages, importer)
    ensures count == |OkPositions(reports)| && count <= |packages|
  {
    attempts, reports, count := [], [], 0;
    for i := 0 to |packages|
      invariant attempts == ModuleNames(packages[..i])
      invariant reports == ClassifyAll(roster, packages[..i], importer)
      invariant count == CountOk(reports)
    {
      var package := packages[i];
      assert ModuleNames(packages[..i + 1]) == attempts + [package.name];
      attempts := attempts + [package.name];
      var status := Classify(roster, importer(package.name));
      if status.Ok? {
        count := count + 1;
      }
      var next := reports + [Report(package, status)];
      assert next[..|reports|] == reports;
      assert ClassifyAll(roster, packages[..i + 1], importer) == next;
      reports := next;
    }
    assert packages[..|packages|] == packages;
    CountOkIsOkEntries(reports);
  }

  /** What `pyansys.__version__` gives once `pyansys` is imported. */
  datatype VersionAttribute = Version(text: string) | VersionRaised(exception: Exception)

  /** The top-level `import pyansys` and its version attribute. */
  datatype Pyansys = Pyansys(imported: ImportOutcome, version: VersionAttribute)

  /** What `verify_pyansys_installation` reports; it returns True exactly for `Verified`. */
  datatype Verification =
    | Verified(version: string, core: seq<Report>, coreCount: nat, optional: seq<Report>, optionalCount: nat)
    | ImportFailed(message: string)
    | Unexpected(message: string)

  /** The outer `except` clauses: `ImportError` first, then any `Exception`. */
  function Caught(e: Exception): (v: Verification)
    ensures v.ImportFailed? <==> e.ImportError?
    ensures !v.Verified? && v.message == e.message
  {
    match e
    case ImportError(m) => ImportFailed(m)
    case OtherError(m) => Unexpected(m)
  }

  /** `verify_pyansys_installation` as a value. */
  function Verify(top: Pyansys, importer: Importer): (v: Verification)
    ensures v.Verified? <==> top.imported.Imported? && top.version.Version?
    ensures v.ImportFailed? <==>
              || (top.imported.Raised? && top.imported.exception.ImportError?)
              || (top.imported.Imported? && top.version.VersionRaised? && top.version.exception.ImportError?)
    ensures v.Verified? ==>
              v.version == top.version.text && |v.core| == |CorePackages| && |v.optional| == |OptionalPackages|
  {
    match top.imported
    case Raised(e) => Caught(e)
    case Imported =>
      match top.version
      case VersionRaised(e) => Caught(e)
      case Version(text) =>
        var core := ClassifyAll(Core, CorePackages, importer);
        var optional := ClassifyAll(Optional, OptionalPackages, importer);
        Verified(text, core, |OkPositions(core)|, optional, |OkPositions(optional)|)
  }

  /**
   * `verify_pyansys_installation`; `attempts` lists the roster modules it
   * tried to import, in order: every core entry, then every optional one,
   * once each, and none when `pyansys` itself failed.
   */
  method VerifyPyansysInstallation(top: Pyansys, importer: Importer) returns (ok: bool, v: Verification, attempts: seq<string>)
    ensures v == Verify(top, importer) && ok == v.Verified?
    ensures attempts == if ok then ModuleNames(CorePackages) + ModuleNames(OptionalPackages) else []
  {
    match top.imported
    case Raised(e) =>
      return false, Caught(e), [];
    case Imported =>
      match top.version
      case VersionRaised(e) =>
        return false, Caught(e), [];
      case Version(text) =>
        var coreAttempts, core, coreCount := CheckRoster(Core, CorePackages, importer);
        var optionalAttempts, optional, optionalCount := CheckRoster(Optional, OptionalPackages, importer);
        return true, Verified(text, core, coreCount, optional, optionalCount), coreAttempts + optionalAttempts;
  }

  /** The interpreter's `sys.real_prefix`, `sys.base_prefix` (when the attributes exist) and `sys.prefix`. */
  datatype SysInfo = SysInfo(realPrefix: Option<string>, basePrefix: Option<string>, prefix: string)

  /** The virtual-environment test of `test_virtual_environment`. */
  predicate InVirtualEnvironment(sys: SysInfo) {
    sys.realPrefix.Some? || (sys.basePrefix.Some? && sys.basePrefix.value != sys.prefix)
  }

  /**
   * The test's verdict on the interpreters it meets: a legacy `virtualenv`
   * (it sets `real_prefix`) and a `venv` (whose `base_prefix` differs from
   * `prefix`) count as virtual environments; a system interpreter, whose
   * `base_prefix` equals `prefix` or is missing, does not.
   */
  lemma VirtualEnvironmentCases(sys: SysInfo)
    ensures sys.realPrefix.Some? ==> InVirtualEnvironment(sys)
    ensures sys.realPrefix.None? && sys.basePrefix.Some? ==>
              (InVirtualEnvironment(sys) <==> sys.basePrefix.value != sys.prefix)
    ensures sys.realPrefix.None? && sys.basePrefix.None? ==> !InVirtualEnvironment(sys)
  {
  }

  /** `test_virtual_environment`: says whether it reported a virtual environment. */
  method TestVirtualEnvironment(sys: SysInfo) returns (inVenv: bool)
    ensures inVenv <==> InVirtualEnvironment(sys)
  {
    if sys.realPrefix.Some? || (sys.basePrefix.Some? && sys.basePrefix.value != sys.prefix) {
      inVenv := true;
    } else {
      inVenv := false;
    }
  }

  /** The script's `main`: both checks run, the verification's result is dropped, the process exits 0. */
  method VerifierMain(sys: SysInfo, top: Pyansys, importer: Importer) returns (inVenv: bool, v: Verification, exitStatus: int)
    ensures inVenv <==> InVirtualEnvironment(sys)
    ensures v == Verify(top, importer)
    ensures exitStatus == 0
  {
    inVenv := TestVirtualEnvironment(sys);
    var _, verification, _ := VerifyPyansysInstallation(top, importer);
    v := verification;
    exitStatus := 0;
  }

  /** The result depends only on `import pyansys` and its `__version__`: no roster outcome can make it fail. */
  lemma ResultIgnoresRosters(top: Pyansys, importer: Importer, other: Importer)
    ensures Verify(top, importer).Verified? <==> top.imported.Imported? && top.version.Version?
    ensures Verify(top, importer).Verified? == Verify(top, other).Verified?
  {
  }

  /** A successful run reports all 7 core and 4 optional entries in roster order, each by its own import, with 0..7 and 0..4 successes. */
  lemma VerifiedReportShape(top: Pyansys, importer: Importer)
    requires Verify(top, importer).Verified?
    ensures var v := Verify(top, importer);
            && |v.core| == 7 && |v.optional| == 4 && v.coreCount <= 7 && v.optionalCount <= 4
            && (forall i :: 0 <= i < 7 ==>
                  v.core[i].package == CorePackages[i]
                  && (v.core[i].status.Ok? <==> importer(CorePackages[i].name).Imported?))
            && (forall i :: 0 <= i < 4 ==>
                  v.optional[i].package == OptionalPackages[i]
                  && (v.optional[i].status.Ok? <==> importer(OptionalPackages[i].name).Imported?))
  {
    var v := Verify(top, importer);
    CountOkIsOkEntries(v.core);
    CountOkIsOkEntries(v.optional);
  }

  /** Every report OK: the count is the roster's length. */
  lemma {:induction false} AllOkCount(reports: seq<Report>)
    requires forall i :: 0 <= i < |reports| ==> reports[i].status.Ok?
    ensures CountOk(reports) == |reports|
    decreases |reports|
  {
    if reports != [] {
      AllOkCount(reports[..|reports| - 1]);
    }
  }

  /** No report OK: the count is zero. */
  lemma {:induction false} NoOkCount(reports: seq<Report>)
    requires forall i :: 0 <= i < |reports| ==> !reports[i].status.Ok?
    ensures CountOk(reports) == 0
    decreases |reports|
  {
    if reports != [] {
      NoOkCount(reports[..|reports| - 1]);
    }
  }

  /** With every package importable the summary reads 7/7 and 4/4. */
  lemma EverythingInstalled(top: Pyansys, importer: Importer)
    requires top.imported.Imported? && top.version.Version?
    requires forall name :: importer(name).Imported?
    ensures var v := Verify(top, importer); v.Verified? && v.coreCount == 7 && v.optionalCount == 4
  {
    var v := Verify(top, importer);
    AllOkCount(v.core);
    CountOkIsOkEntries(v.core);
    AllOkCount(v.optional);
    CountOkIsOkEntries(v.optional);
  }

  /** With `pyansys` present but no sub-package importable, the summary reads 0/7 and 0/4 and the verification still succeeds. */
  lemma NothingElseInstalled(top: Pyansys, importer: Importer)
    requires top.imported.Imported? && top.version.Version?
    requires forall name :: importer(name).Raised? && importer(name).exception.ImportError?
    ensures var v := Verify(top, importer);
            && v.Verified? && v.coreCount == 0 && v.optionalCount == 0
            && (forall i :: 0 <= i < 7 ==> v.core[i].status.Failed?)
  {
  }
}
