/** `Package.main`: the fixed order of stages, the first exception ending
    the run, and what happens to the process and the files afterwards.

    What a stage does is left to a function from the stage and the machine
    state to its result, so every override a variant makes (another
    `configure`, a `chdir` into a build directory, the `package()` of
    the assembly module) is one such function. The process is a class
    whose output streams and working directory `main` changes and, in
    pkgbuild.py, puts back. */
module Pipeline {
  import opened Wrappers
  import opened Text
  import opened Errors
  import opened Assembly

  datatype Stage = Clean | Unpack | EnterSource | Prepare | Configure | Build | IgnoreProducts | PackageStage

  /** The stages in the order `main` runs them; the two that use git run
      only when `/usr/bin/git` exists. `EnterSource` is `os.chdir(self.base)`. */
  function Stages(hasGit: bool): (s: seq<Stage>)
    ensures Prepare in s <==> hasGit
    ensures IgnoreProducts in s <==> hasGit
    ensures |s| >= 6
    ensures s[0] == Clean && s[1] == Unpack && s[2] == EnterSource && s[|s| - 1] == PackageStage
  {
    [Clean, Unpack, EnterSource] + (if hasGit then [Prepare] else []) + [Configure, Build] +
      (if hasGit then [IgnoreProducts] else []) + [PackageStage]
  }

  /** The order of every two stages that run is the order of the full list:
      the stages without git are the full list with the two git stages
      taken out. */
  lemma StagesKeepOrder(hasGit: bool)
    ensures hasGit ==> Stages(hasGit) == [Clean, Unpack, EnterSource, Prepare, Configure, Build, IgnoreProducts, PackageStage]
    ensures !hasGit ==> Stages(hasGit) == [Clean, Unpack, EnterSource, Configure, Build, PackageStage]
  {
  }

  /** What the stages see and change: the working directory and the files
      that exist, by absolute path. */
  datatype Machine = Machine(cwd: string, files: set<string>)

  /** A stage returns, or raises; either way it may have changed the machine. */
  datatype StageResult = Returned(after: Machine) | Threw(error: Raised, after: Machine)

  /** The stages that ran, in order, the exception that ended the run if
      one did, and the machine at the end. */
  datatype Trace = Trace(ran: seq<Stage>, failure: Option<Raised>, last: Machine)

  /** The body of the `try`: each stage in turn until one raises. */
  function RunStages(stages: seq<Stage>, run: (Stage, Machine) -> StageResult, m: Machine): (t: Trace)
    decreases |stages|
  {
    if |stages| == 0 then Trace([], None, m)
    else match run(stages[0], m)
      case Threw(e, m') => Trace([stages[0]], Some(e), m')
      case Returned(m') =>
        var rest := RunStages(stages[1..], run, m');
        Trace([stages[0]] + rest.ran, rest.failure, rest.last)
  }

  /** The stages run form a prefix of the list; all of them ran when none
      raised, and when one raised it was the last to run and every stage
      before it returned. */
  lemma {:induction false} FirstFailureStops(stages: seq<Stage>, run: (Stage, Machine) -> StageResult, m: Machine)
    ensures var t := RunStages(stages, run, m);
      && t.ran <= stages
      && (t.failure.None? ==> t.ran == stages)
      && (t.failure.Some? ==> |t.ran| > 0 && Reached(stages, run, m, |t.ran| - 1).Threw?
                              && Reached(stages, run, m, |t.ran| - 1).error == t.failure.value)
      && (forall i :: 0 <= i < |t.ran| - 1 ==> Reached(stages, run, m, i).Returned?)
    decreases |stages|
  {
    if |stages| > 0 {
      match run(stages[0], m)
      case Threw(e, m') =>
      case Returned(m') =>
        FirstFailureStops(stages[1..], run, m');
        var rest := RunStages(stages[1..], run, m');
        forall i | 0 <= i < |rest.ran|
          ensures Reached(stages, run, m, i + 1) == Reached(stages[1..], run, m', i)
        {
          ReachedShift(stages, run, m, i);
        }
    }
  }

  /** The result of stage `i` when every stage before it returned. */
  function Reached(stages: seq<Stage>, run: (Stage, Machine) -> StageResult, m: Machine, i: nat): StageResult
    requires i < |stages|
    decreases i
  {
    if i == 0 then run(stages[0], m)
    else match run(stages[0], m)
      case Threw(e, m') => Threw(e, m')
      case Returned(m') => Reached(stages[1..], run, m', i - 1)
  }

  lemma ReachedShift(stages: seq<Stage>, run: (Stage, Machine) -> StageResult, m: Machine, i: nat)
    requires i + 1 < |stages| && run(stages[0], m).Returned?
    ensures Reached(stages, run, m, i + 1) == Reached(stages[1..], run, run(stages[0], m).after, i)
  {
  }

  /** How a run of stages ended: the exception, if any, and the machine. */
  function Ending(t: Trace): (Option<Raised>, Machine) {
    (t.failure, t.last)
  }

  /** One step of the run from stage `i`: the stage raises and the run ends
      there, or it returns and the run goes on from the next stage. */
  lemma RunStagesStep(stages: seq<Stage>, i: nat, run: (Stage, Machine) -> StageResult, m: Machine)
    requires i < |stages|
    ensures Ending(RunStages(stages[i..], run, m)) ==
      match run(stages[i], m)
      case Threw(e, m') => (Some(e), m')
      case Returned(m') => Ending(RunStages(stages[i + 1..], run, m'))
  {
    assert stages[i..][1..] == stages[i + 1..];
  }

  // ---------------------------------------------------------------------
  // After the stages.

  datatype Outcome = Packaged | NotPackaged | Failed(error: Raised)

  /** Where the run's output goes. */
  datatype Stream = Terminal | LogFile(path: string)

  function LogPath(cwd: string, name: string): string {
    Join(cwd, name + ".log")
  }

  /** `clean()`: the unpacked source tree goes, with everything below it. */
  function Cleaned(files: set<string>, dir: string): (r: set<string>)
    ensures r <= files
    ensures forall f :: f in r <==> f in files && !Under(f, dir)
  {
    set f | f in files && !Under(f, dir)
  }

  /** Where `shutil.copy(path, cwd)` puts the package: `<cwd>/<base>.pkg`. */
  function CopyPath(cwd: string, base: string): string {
    Join(cwd, base + ".pkg")
  }

  /** pkgbuild.py: with the starting directory back in place, a package at
      `TMPDIR/<base>.pkg` is copied to it and the temporary package, the
      log and the source tree are removed; without one, everything is left
      for inspection. When the starting directory is `TMPDIR` itself, the
      copy would land on the package and `shutil.copy` raises. */
  function Finish(name: string, base: string, cwd: string, files: set<string>): (Outcome, set<string>) {
    var pkg := PackagePath(base);
    var copy := CopyPath(cwd, base);
    if pkg !in files then (NotPackaged, files)
    else if copy == pkg then (Failed(SameFile(pkg)), files)
    else (Packaged, Cleaned((files + {copy}) - {pkg, LogPath(cwd, name)}, Join(cwd, base)))
  }

  /** The stages of `main`, run from the starting machine with the log
      opened. */
  function Tried(name: string, hasGit: bool, run: (Stage, Machine) -> StageResult, m: Machine): Trace {
    RunStages(Stages(hasGit), run, Machine(m.cwd, m.files + {LogPath(m.cwd, name)}))
  }

  /** pkgbuild.py's `main`: the log is opened, the stages run, the
      working directory is put back whatever happened, and only a run that
      raised nothing goes on to look for the package. It raises when a
      stage raised or the copy fails; it reports success exactly when no
      stage raised and the package exists, and failure to package exactly
      when no stage raised and there is no package. */
  function MainRun(name: string, base: string, hasGit: bool, run: (Stage, Machine) -> StageResult, m: Machine): (r: (Outcome, Machine))
    ensures r.1.cwd == m.cwd
    ensures var t := Tried(name, hasGit, run, m);
      && (t.failure.Some? ==> r.0 == Failed(t.failure.value))
      && (r.0.Failed? <==> t.failure.Some? || (PackagePath(base) in t.last.files && CopyPath(m.cwd, base) == PackagePath(base)))
      && (r.0 == Packaged <==> t.failure.None? && PackagePath(base) in t.last.files && CopyPath(m.cwd, base) != PackagePath(base))
      && (r.0 == NotPackaged <==> t.failure.None? && PackagePath(base) !in t.last.files)
      && (r.0 != Packaged ==> r.1.files == t.last.files)
  {
    var t := Tried(name, hasGit, run, m);
    if t.failure.Some? then (Failed(t.failure.value), Machine(m.cwd, t.last.files))
    else
      var (o, files) := Finish(name, base, m.cwd, t.last.files);
      (o, Machine(m.cwd, files))
  }

  /** The copy beside the tarball is neither the log nor inside the source
      tree that `clean` removes. */
  lemma CopyApart(cwd: string, name: string, base: string)
    ensures CopyPath(cwd, base) != LogPath(cwd, name)
    ensures !Under(CopyPath(cwd, base), Join(cwd, base))
  {
    var copy, log := CopyPath(cwd, base), LogPath(cwd, name);
    var b, l := base + ".pkg", name + ".log";
    assert copy[|copy| - |b|..][|b| - 3] == copy[|copy| - 3] == 'p';
    assert log[|log| - |l|..][|l| - 3] == log[|log| - 3] == 'l';
    var dir := Join(cwd, base);
    JoinAppend(cwd, base, ".pkg");
    assert copy == dir + ".pkg";
    assert copy[|dir|] == '.' && (dir + "/")[|dir|] == '/';
  }

  /** After a successful run, the package is beside the tarball, and the
      temporary package, the log and the whole source tree are gone;
      every other file is as the stages left it. A run that did not
      succeed leaves every file as the stages left it, the log included. */
  lemma BuiltLeavesPackage(name: string, base: string, hasGit: bool, run: (Stage, Machine) -> StageResult, m: Machine)
    ensures var (o, m') := MainRun(name, base, hasGit, run, m);
      var t := Tried(name, hasGit, run, m);
      && (o == Packaged ==>
            && CopyPath(m.cwd, base) in m'.files
            && LogPath(m.cwd, name) !in m'.files
            && PackagePath(base) !in m'.files
            && (forall f :: Under(f, Join(m.cwd, base)) ==> f !in m'.files)
            && (forall f :: f in m'.files <==>
                  f == CopyPath(m.cwd, base) ||
                  (f in t.last.files && f != PackagePath(base) && f != LogPath(m.cwd, name) && !Under(f, Join(m.cwd, base)))))
      && (o != Packaged ==> m'.files == t.last.files)
  {
    CopyApart(m.cwd, name, base);
  }

  /** `package()` as the last stage: a package at `TMPDIR/<base>.pkg` when
      it succeeds, its exception when it raises. */
  function PackageStep(job: Job, world: World, m: Machine): StageResult
    requires WellFormed(job)
  {
    match Package(job, world)
    case Ok(built) => Returned(Machine(m.cwd, m.files + {built.path}))
    case Err(e) => Threw(e, m)
  }

  /** Stages that all return, then `package()`: the run ends as
      `package()` does. */
  lemma {:induction false} EndsWithPackage(stages: seq<Stage>, job: Job, world: World, run: (Stage, Machine) -> StageResult, m: Machine)
    requires WellFormed(job)
    requires |stages| > 0 && stages[|stages| - 1] == PackageStage
    requires forall i :: 0 <= i < |stages| - 1 ==> stages[i] != PackageStage
    requires forall s, m0 :: s != PackageStage ==> run(s, m0).Returned?
    requires forall m0 :: run(PackageStage, m0) == PackageStep(job, world, m0)
    ensures var t := RunStages(stages, run, m);
      && (Package(job, world).Err? ==> t.failure == Some(Package(job, world).error))
      && (Package(job, world).Ok? ==> t.failure.None? && PackagePath(job.id.base) in t.last.files)
    decreases |stages|
  {
    if |stages| > 1 {
      assert stages[0] != PackageStage;
      EndsWithPackage(stages[1..], job, world, run, run(stages[0], m).after);
    }
  }

  /** When every stage before it returns, `main` ends as `package()`
      does: it raises what `package()` raised, and after a successful
      `package()` it reports success unless the copy lands on the package
      itself. */
  lemma PackageDecidesOutcome(job: Job, world: World, hasGit: bool, run: (Stage, Machine) -> StageResult, m: Machine)
    requires WellFormed(job)
    requires forall s, m0 :: s != PackageStage ==> run(s, m0).Returned?
    requires forall m0 :: run(PackageStage, m0) == PackageStep(job, world, m0)
    ensures var o := MainRun(job.id.name, job.id.base, hasGit, run, m).0;
      && (Package(job, world).Err? ==> o == Failed(Package(job, world).error))
      && (Package(job, world).Ok? ==> (o == Packaged <==> CopyPath(m.cwd, job.id.base) != PackagePath(job.id.base)))
  {
    StagesKeepOrder(hasGit);
    EndsWithPackage(Stages(hasGit), job, world, run, Machine(m.cwd, m.files + {LogPath(m.cwd, job.id.name)}));
  }

  // ---------------------------------------------------------------------
  // The process.

  /** The parts of the running interpreter `main` touches. */
  class Process {
    var stdout: Stream
    var stderr: Stream
    var cwd: string
    var files: set<string>

    function Value(): (Stream, Stream, Machine)
      reads this
    {
      (stdout, stderr, Machine(cwd, files))
    }

    constructor (cwd: string, files: set<string>)
      ensures Value() == (Terminal, Terminal, Machine(cwd, files))
    {
      stdout, stderr := Terminal, Terminal;
      this.cwd, this.files := cwd, files;
    }

    /** The stages one after another, each from the machine the one before
        left, until one raises; the streams are not touched. */
    method RunAll(stages: seq<Stage>, run: (Stage, Machine) -> StageResult) returns (failure: Option<Raised>)
      modifies this
      ensures stdout == old(stdout) && stderr == old(stderr)
      ensures Ending(RunStages(stages, run, old(Machine(cwd, files)))) == (failure, Machine(cwd, files))
    {
      ghost var m0 := Machine(cwd, files);
      failure := None;
      var i := 0;
      while i < |stages| && failure.None?
        invariant 0 <= i <= |stages|
        invariant stdout == old(stdout) && stderr == old(stderr)
        invariant failure.None? ==> Ending(RunStages(stages, run, m0)) == Ending(RunStages(stages[i..], run, Machine(cwd, files)))
        invariant failure.Some? ==> Ending(RunStages(stages, run, m0)) == (failure, Machine(cwd, files))
        decreases |stages| - i, failure.None?
      {
        RunStagesStep(stages, i, run, Machine(cwd, files));
        var result := run(stages[i], Machine(cwd, files));
        cwd, files := result.after.cwd, result.after.files;
        if result.Threw? {
          failure := Some(result.error);
        }
        i := i + 1;
      }
      if failure.None? {
        assert stages[i..] == [];
      }
    }

    /** pkgbuild.py's `main`. The streams point at the log while the stages
        run; the `finally` puts them and the working directory back. */
    method RunMain(name: string, base: string, hasGit: bool, run: (Stage, Machine) -> StageResult) returns (o: Outcome)
      modifies this
      ensures stdout == old(stdout) && stderr == old(stderr) && cwd == old(cwd)
      ensures (o, Machine(cwd, files)) == MainRun(name, base, hasGit, run, old(Machine(cwd, files)))
    {
      var saveOut, saveErr, start := stdout, stderr, cwd;
      var log := LogPath(cwd, name);
      files := files + {log};
      stdout, stderr := LogFile(log), LogFile(log);
      var failure := RunAll(Stages(hasGit), run);
      // finally
      stdout, stderr, cwd := saveOut, saveErr, start;

      if failure.Some? {
        return Failed(failure.value);
      }
      var pkg := PackagePath(base);
      if pkg in files {
        var copy := Join(cwd, base + ".pkg");
        if copy == pkg {
          return Failed(SameFile(pkg));
        }
        files := files + {copy};
        files := files - {pkg, log};
        files := Cleaned(files, Join(cwd, base));
        o := Packaged;
      } else {
        o := NotPackaged;
      }
    }

    /** bin/pkgbuild.py's `main`: the stages run with no `try`, so an
        exception leaves the process wherever the failing stage left it,
        and a successful run stays in the source tree it entered. */
    method RunBinMain(hasGit: bool, base: string, run: (Stage, Machine) -> StageResult) returns (o: Outcome)
      modifies this
      ensures stdout == old(stdout) && stderr == old(stderr)
      ensures (o, Machine(cwd, files)) == BinMainRun(base, hasGit, run, old(Machine(cwd, files)))
    {
      var failure := RunAll(Stages(hasGit), run);
      if failure.Some? {
        return Failed(failure.value);
      }
      o := if PackagePath(base) in files then Packaged else NotPackaged;
    }
  }

  /** bin/pkgbuild.py's `main` as a function: nothing is put back and
      nothing is copied or removed. */
  function BinMainRun(base: string, hasGit: bool, run: (Stage, Machine) -> StageResult, m: Machine): (r: (Outcome, Machine))
    ensures r.1 == RunStages(Stages(hasGit), run, m).last
  {
    var t := RunStages(Stages(hasGit), run, m);
    if t.failure.Some? then (Failed(t.failure.value), t.last)
    else (if PackagePath(base) in t.last.files then Packaged else NotPackaged, t.last)
  }

  // ---------------------------------------------------------------------
  // The working directory after a run.

  /** A run in which every stage returns and only `os.chdir(self.base)`
      changes anything. */
  function EnterOnly(base: string): (Stage, Machine) -> StageResult {
    (s: Stage, m: Machine) => Returned(if s == EnterSource then Machine(Join(m.cwd, base), m.files) else m)
  }

  lemma {:induction false} NothingMoves(stages: seq<Stage>, base: string, m: Machine)
    requires EnterSource !in stages
    ensures RunStages(stages, EnterOnly(base), m) == Trace(stages, None, m)
    decreases |stages|
  {
    if |stages| > 0 {
      assert stages[0] != EnterSource;
      NothingMoves(stages[1..], base, m);
    }
  }

  /** The older `main` ends a successful run in the source tree it entered,
      and the next archive of the batch is then looked up there; the
      current one is back where it started. */
  lemma BinStaysInSource(name: string, base: string, hasGit: bool, m: Machine)
    requires base != "" && !StartsWith(base, "/")
    ensures BinMainRun(base, hasGit, EnterOnly(base), m).1.cwd == Join(m.cwd, base) != m.cwd
    ensures MainRun(name, base, hasGit, EnterOnly(base), m).1.cwd == m.cwd
  {
    var s := Stages(hasGit);
    var run := EnterOnly(base);
    var m2 := Machine(Join(m.cwd, base), m.files);
    assert s[1..][1..][1..] == s[3..];
    NothingMoves(s[3..], base, m2);
    assert RunStages(s[2..], run, m) == Trace([EnterSource] + s[3..], None, m2) by {
      assert s[2..][1..] == s[3..];
    }
    assert RunStages(s[1..], run, m).last == m2 by {
      assert s[1..][1..] == s[2..];
    }
    assert RunStages(s, run, m).last == m2;
  }
}
