/**
 * `Compile` (compose.go): the workspace it writes, step by step, over an
 * abstract file system. Paths are sequences of path elements below some
 * root; the temporary root and the run id are parameters.
 *
 * The specification is a plan -- the list of directory creations and file
 * writes `Compile` issues, in order, each with the error it reports when it
 * fails -- and `Perform`, which runs a plan fail-fast. The method is proved
 * to do exactly what `Perform` of the plan does; the lemmas say what that is.
 */
module Compose {
  import opened Wrappers
  import opened Strings
  import opened Sanitize
  import opened Config
  import opened Artifacts

  type Path = seq<string>

  /** File permission bits, in decimal: 0644 and 0755. */
  const ModeFile := 420
  const ModeExec := 493

  datatype File = File(content: string, mode: int)

  /** The file system as far as `Compile` sees it. */
  datatype Disk = Disk(dirs: set<Path>, files: map<Path, File>)

  /** Which step of `Compile` failed; the wrapped OS error is not modelled. */
  datatype CompileError =
    | TempDirFailed
    | BaseDirFailed
    | BaseDockerfileFailed
    | JourneyDirFailed
    | JourneyDockerfileFailed
    | EntrypointFailed
    | ManifestFailed

  // ---------------------------------------------------------------------
  // Paths

  /** `filepath.Join(dir, elem)`: an empty element contributes nothing. */
  function Join(dir: Path, elem: string): (r: Path)
    ensures |r| == if elem == "" then |dir| else |dir| + 1
    ensures r[..|dir|] == dir
    ensures elem != "" ==> r[|dir|] == elem
  {
    if elem == "" then dir else dir + [elem]
  }

  function BaseDir(root: Path): Path { root + ["_journeys", "_base"] }

  function BaseDockerfilePath(root: Path): Path { BaseDir(root) + ["Dockerfile"] }

  function JourneyDir(root: Path, name: string): Path
  {
    Join(root + ["_journeys"], SanitizeName(name))
  }

  function JourneyFile(root: Path, name: string, file: string): Path
  {
    JourneyDir(root, name) + [file]
  }

  function ManifestPath(root: Path): Path { root + ["docker-compose.yml"] }

  /** All non-empty prefixes of a path: what `os.MkdirAll` leaves existing. */
  function Ancestors(p: Path): set<Path>
  {
    set i | 0 < i <= |p| :: p[..i]
  }

  // ---------------------------------------------------------------------
  // Plans and their fail-fast execution

  datatype Action = MakeDirs(dir: Path) | Write(path: Path, file: File)

  datatype Step = Step(action: Action, onFailure: CompileError)

  function Target(a: Action): Path
  {
    match a
    case MakeDirs(dir) => dir
    case Write(path, _) => path
  }

  function Apply(d: Disk, a: Action): Disk
  {
    match a
    case MakeDirs(dir) => d.(dirs := d.dirs + Ancestors(dir))
    case Write(path, file) => d.(files := d.files[path := file])
  }

  datatype Outcome = Outcome(disk: Disk, failure: Option<CompileError>)

  /**
   * Whether the operating system refuses an action on disk `d`: its path is
   * one of the `faulty` ones (an error this model does not look into), a
   * directory is to be created where a file already is (`os.MkdirAll`
   * reports "not a directory"), or a file is to be written where a
   * directory is (`os.WriteFile` reports "is a directory").
   */
  predicate Fails(d: Disk, faulty: set<Path>, a: Action)
  {
    || Target(a) in faulty
    || (a.MakeDirs? && !(Ancestors(a.dir) !! d.files.Keys))
    || (a.Write? && a.path in d.dirs)
  }

  /**
   * Runs the steps in order. A step that fails on the disk the earlier steps
   * left changes nothing and ends the run with its error; later steps are
   * not attempted.
   */
  function Perform(d: Disk, faulty: set<Path>, steps: seq<Step>): Outcome
  {
    if steps == [] then Outcome(d, None)
    else
      var before := Perform(d, faulty, steps[..|steps| - 1]);
      var last := steps[|steps| - 1];
      if before.failure.Some? then before
      else if Fails(before.disk, faulty, last.action) then Outcome(before.disk, Some(last.onFailure))
      else Outcome(Apply(before.disk, last.action), None)
  }

  /** The files the steps write, a later write to a path replacing an earlier one. */
  function Written(steps: seq<Step>): map<Path, File>
  {
    if steps == [] then map[]
    else
      var before := Written(steps[..|steps| - 1]);
      match steps[|steps| - 1].action
      case MakeDirs(_) => before
      case Write(path, file) => before[path := file]
  }

  /** The directories the steps create. */
  function Made(steps: seq<Step>): set<Path>
  {
    if steps == [] then {}
    else
      var before := Made(steps[..|steps| - 1]);
      match steps[|steps| - 1].action
      case MakeDirs(dir) => before + Ancestors(dir)
      case Write(_, _) => before
  }

  /** The disk `d` with every directory and file of the steps added. */
  function DiskAfter(d: Disk, steps: seq<Step>): Disk
  {
    Disk(d.dirs + Made(steps), d.files + Written(steps))
  }

  /** Step `k` is the first that fails on the disk the steps before it leave. */
  predicate FirstFault(d: Disk, faulty: set<Path>, steps: seq<Step>, k: int)
  {
    && 0 <= k < |steps|
    && Fails(DiskAfter(d, steps[..k]), faulty, steps[k].action)
    && forall i :: 0 <= i < k ==> !Fails(DiskAfter(d, steps[..i]), faulty, steps[i].action)
  }

  // ---------------------------------------------------------------------
  // The plan of `Compile`

  /** Temporary root, base directory, base Dockerfile. */
  function BaseSteps(root: Path, baseImage: string): seq<Step>
  {
    [ Step(MakeDirs(root), TempDirFailed),
      Step(MakeDirs(BaseDir(root)), BaseDirFailed),
      Step(Write(BaseDockerfilePath(root), File(baseImage, ModeFile)), BaseDockerfileFailed) ]
  }

  /** Directory, Dockerfile and entrypoint of one journey. */
  function JourneyStepsOf(root: Path, j: Journey): seq<Step>
  {
    [ Step(MakeDirs(JourneyDir(root, j.name)), JourneyDirFailed),
      Step(Write(JourneyFile(root, j.name, "Dockerfile"), File(JourneyDockerfile(), ModeFile)),
           JourneyDockerfileFailed),
      Step(Write(JourneyFile(root, j.name, "entrypoint.sh"), File(Entrypoint(j.steps), ModeExec)),
           EntrypointFailed) ]
  }

  function JourneySteps(root: Path, journeys: seq<Journey>): (steps: seq<Step>)
    ensures |steps| == 3 * |journeys|
  {
    if journeys == [] then []
    else JourneySteps(root, journeys[..|journeys| - 1]) + JourneyStepsOf(root, journeys[|journeys| - 1])
  }

  function ManifestStep(c: Config, root: Path, id: RunId): Step
  {
    Step(Write(ManifestPath(root), File(Manifest(c.services, c.journeys, id), ModeFile)), ManifestFailed)
  }

  function Plan(c: Config, root: Path, id: RunId, baseImage: string): seq<Step>
  {
    BaseSteps(root, baseImage) + JourneySteps(root, c.journeys) + [ManifestStep(c, root, id)]
  }

  // ---------------------------------------------------------------------
  // The file system and Compile

  /**
   * A mutable file system. Creating a directory fails at a faulty path or
   * where the path or one of its ancestors is a file; writing a file fails
   * at a faulty path or where the path is a directory.
   */
  class FileSystem {
    var dirs: set<Path>
    var files: map<Path, File>
    const faulty: set<Path>

    constructor (dirs: set<Path>, files: map<Path, File>, faulty: set<Path>)
      ensures this.dirs == dirs && this.files == files && this.faulty == faulty
    {
      this.dirs := dirs;
      this.files := files;
      this.faulty := faulty;
    }

    function State(): Disk
      reads this
    {
      Disk(dirs, files)
    }

    /** `os.MkdirAll` (and `os.MkdirTemp` for the root). */
    method MkdirAll(dir: Path) returns (ok: bool)
      modifies this
      ensures ok <==> !Fails(old(State()), faulty, MakeDirs(dir))
      ensures State() == if ok then Apply(old(State()), MakeDirs(dir)) else old(State())
    {
      ok := dir !in faulty && Ancestors(dir) !! files.Keys;
      if ok {
        dirs := dirs + Ancestors(dir);
      }
    }

    /** `os.WriteFile` */
    method WriteFile(path: Path, file: File) returns (ok: bool)
      modifies this
      ensures ok <==> !Fails(old(State()), faulty, Write(path, file))
      ensures State() == if ok then Apply(old(State()), Write(path, file)) else old(State())
    {
      ok := path !in faulty && path !in dirs;
      if ok {
        files := files[path := file];
      }
    }
  }

  lemma PerformStepOk(d: Disk, faulty: set<Path>, steps: seq<Step>, n: nat, disk: Disk, a: Action)
    requires n < |steps| && steps[n].action == a
    requires Perform(d, faulty, steps[..n]) == Outcome(disk, None)
    requires !Fails(disk, faulty, a)
    ensures Perform(d, faulty, steps[..n + 1]) == Outcome(Apply(disk, a), None)
  {
    assert steps[..n + 1][..n] == steps[..n];
  }

  lemma PerformStepFails(d: Disk, faulty: set<Path>, steps: seq<Step>, n: nat, disk: Disk, a: Action)
    requires n < |steps| && steps[n].action == a
    requires Perform(d, faulty, steps[..n]) == Outcome(disk, None)
    requires Fails(disk, faulty, a)
    ensures Perform(d, faulty, steps) == Outcome(disk, Some(steps[n].onFailure))
  {
    assert steps[..n + 1][..n] == steps[..n];
    PerformFailedPrefix(d, faulty, steps, n + 1);
  }

  lemma {:induction false} PerformFailedPrefix(d: Disk, faulty: set<Path>, steps: seq<Step>, n: nat)
    requires n <= |steps|
    requires Perform(d, faulty, steps[..n]).failure.Some?
    ensures Perform(d, faulty, steps) == Perform(d, faulty, steps[..n])
    decreases |steps|
  {
    if n < |steps| {
      var init := steps[..|steps| - 1];
      assert init[..n] == steps[..n];
      PerformFailedPrefix(d, faulty, init, n);
    } else {
      assert steps[..n] == steps;
    }
  }

  lemma PlanEnds(c: Config, root: Path, id: RunId, baseImage: string)
    ensures var plan := Plan(c, root, id, baseImage);
            && |plan| == 4 + 3 * |c.journeys|
            && plan[0] == Step(MakeDirs(root), TempDirFailed)
            && plan[1] == Step(MakeDirs(BaseDir(root)), BaseDirFailed)
            && plan[2] == Step(Write(BaseDockerfilePath(root), File(baseImage, ModeFile)), BaseDockerfileFailed)
            && plan[|plan| - 1] == ManifestStep(c, root, id)
  {
  }

  lemma PlanJourneyAt(c: Config, root: Path, id: RunId, baseImage: string, k: nat)
    requires k < |c.journeys|
    ensures var plan := Plan(c, root, id, baseImage);
            && |plan| == 4 + 3 * |c.journeys|
            && plan[3 + 3 * k] == JourneyStepsOf(root, c.journeys[k])[0]
            && plan[4 + 3 * k] == JourneyStepsOf(root, c.journeys[k])[1]
            && plan[5 + 3 * k] == JourneyStepsOf(root, c.journeys[k])[2]
            && plan[3 + 3 * k .. 6 + 3 * k] == JourneyStepsOf(root, c.journeys[k])
  {
    var plan := Plan(c, root, id, baseImage);
    var js := JourneySteps(root, c.journeys);
    JourneyStepsAt(root, c.journeys);
    assert plan[3 + 3 * k .. 6 + 3 * k] == js[3 * k .. 3 * k + 3];
  }

  lemma {:induction false} JourneyStepsAt(root: Path, journeys: seq<Journey>)
    ensures forall k :: 0 <= k < |journeys| ==>
              JourneySteps(root, journeys)[3 * k .. 3 * k + 3] == JourneyStepsOf(root, journeys[k])
  {
    if journeys != [] {
      var init := journeys[..|journeys| - 1];
      var all := JourneySteps(root, journeys);
      var before := JourneySteps(root, init);
      var last := JourneyStepsOf(root, journeys[|journeys| - 1]);
      assert all == before + last;
      JourneyStepsAt(root, init);
      forall k | 0 <= k < |journeys|
        ensures all[3 * k .. 3 * k + 3] == JourneyStepsOf(root, journeys[k])
      {
        if k < |init| {
          assert init[k] == journeys[k];
          assert all[3 * k .. 3 * k + 3] == before[3 * k .. 3 * k + 3];
        } else {
          assert all[3 * k .. 3 * k + 3] == last;
        }
      }
    }
  }

  /**
   * `Compile`: create the temporary root, the base build context and its
   * Dockerfile, then for each journey its directory, Dockerfile and
   * entrypoint, then the manifest; the first failure returns its error.
   * The final state and the result are those of performing the plan.
   */
  method Compile(fs: FileSystem, c: Config, root: Path, id: RunId, baseImage: string)
    returns (r: Result<Path, CompileError>)
    modifies fs
    ensures Perform(old(fs.State()), fs.faulty, Plan(c, root, id, baseImage))
            == Outcome(fs.State(), if r.Ok? then None else Some(r.error))
    ensures r.Ok? ==> r.value == root
  {
    ghost var d := fs.State();
    ghost var plan := Plan(c, root, id, baseImage);
    ghost var faulty := fs.faulty;
    PlanEnds(c, root, id, baseImage);
    assert plan[..3] == BaseSteps(root, baseImage);
    var err := CompileBase(fs, root, baseImage, plan);
    if err.Some? {
      return Err(err.value);
    }

    for i := 0 to |c.journeys|
      invariant Perform(d, faulty, plan[..3 + 3 * i]) == Outcome(fs.State(), None)
    {
      ghost var n := 3 + 3 * i;
      PlanJourneyAt(c, root, id, baseImage, i);
      err := CompileJourney(fs, root, c.journeys[i], d, plan, n);
      if err.Some? {
        return Err(err.value);
      }
    }

    var ok := CompileManifest(fs, c, root, id, d, plan);
    if !ok {
      return Err(ManifestFailed);
    }
    return Ok(root);
  }

  /**
   * The last step of `Compile`: render the manifest and write it, as the
   * final step of `plan`.
   */
  method CompileManifest(fs: FileSystem, c: Config, root: Path, id: RunId, ghost d: Disk, ghost plan: seq<Step>)
    returns (ok: bool)
    requires |plan| > 0 && plan[|plan| - 1] == ManifestStep(c, root, id)
    requires Perform(d, fs.faulty, plan[..|plan| - 1]) == Outcome(fs.State(), None)
    modifies fs
    ensures Perform(d, fs.faulty, plan) == Outcome(fs.State(), if ok then None else Some(ManifestFailed))
  {
    ghost var n := |plan| - 1;
    var manifest := BuildManifest(c.services, c.journeys, id);
    ghost var before := fs.State();
    ok := fs.WriteFile(ManifestPath(root), File(manifest, ModeFile));
    if !ok {
      PerformStepFails(d, fs.faulty, plan, n, before, ManifestStep(c, root, id).action);
      return;
    }
    PerformStepOk(d, fs.faulty, plan, n, before, ManifestStep(c, root, id).action);
    assert plan[..n + 1] == plan;
  }

  /**
   * The first three steps of `Compile`: the temporary root, the base build
   * context and its Dockerfile, performed as the start of `plan`; the first
   * failure ends the whole plan with its error.
   */
  method CompileBase(fs: FileSystem, root: Path, baseImage: string, ghost plan: seq<Step>)
    returns (err: Option<CompileError>)
    requires 3 <= |plan| && plan[..3] == BaseSteps(root, baseImage)
    modifies fs
    ensures err.None? ==> Perform(old(fs.State()), fs.faulty, plan[..3]) == Outcome(fs.State(), None)
    ensures err.Some? ==> Perform(old(fs.State()), fs.faulty, plan) == Outcome(fs.State(), err)
  {
    ghost var d := fs.State();
    ghost var faulty := fs.faulty;
    ghost var steps := BaseSteps(root, baseImage);
    assert plan[0] == steps[0] && plan[1] == steps[1] && plan[2] == steps[2];
    assert plan[..0] == [];
    var ok := fs.MkdirAll(root);
    if !ok {
      PerformStepFails(d, faulty, plan, 0, d, steps[0].action);
      return Some(TempDirFailed);
    }
    PerformStepOk(d, faulty, plan, 0, d, steps[0].action);
    ghost var before := fs.State();
    ok := fs.MkdirAll(BaseDir(root));
    if !ok {
      PerformStepFails(d, faulty, plan, 1, before, steps[1].action);
      return Some(BaseDirFailed);
    }
    PerformStepOk(d, faulty, plan, 1, before, steps[1].action);
    before := fs.State();
    ok := fs.WriteFile(BaseDockerfilePath(root), File(baseImage, ModeFile));
    if !ok {
      PerformStepFails(d, faulty, plan, 2, before, steps[2].action);
      return Some(BaseDockerfileFailed);
    }
    PerformStepOk(d, faulty, plan, 2, before, steps[2].action);
    return None;
  }

  /**
   * One pass of `Compile`'s journey loop: the journey's directory, its
   * Dockerfile and its entrypoint, performed as steps `n` to `n + 2` of
   * `plan`; the first failure ends the whole plan with its error.
   */
  method CompileJourney(fs: FileSystem, root: Path, journey: Journey, ghost d: Disk, ghost plan: seq<Step>, ghost n: nat)
    returns (err: Option<CompileError>)
    requires n + 3 <= |plan| && plan[n..n + 3] == JourneyStepsOf(root, journey)
    requires Perform(d, fs.faulty, plan[..n]) == Outcome(fs.State(), None)
    modifies fs
    ensures err.None? ==> Perform(d, fs.faulty, plan[..n + 3]) == Outcome(fs.State(), None)
    ensures err.Some? ==> Perform(d, fs.faulty, plan) == Outcome(fs.State(), err)
  {
    ghost var faulty := fs.faulty;
    ghost var steps := JourneyStepsOf(root, journey);
    assert plan[n] == steps[0] && plan[n + 1] == steps[1] && plan[n + 2] == steps[2];
    var journeyDir := JourneyDir(root, journey.name);
    ghost var before := fs.State();
    var ok := fs.MkdirAll(journeyDir);
    if !ok {
      PerformStepFails(d, faulty, plan, n, before, steps[0].action);
      return Some(JourneyDirFailed);
    }
    PerformStepOk(d, faulty, plan, n, before, steps[0].action);
    var dockerfile := JourneyDockerfile();
    before := fs.State();
    ok := fs.WriteFile(journeyDir + ["Dockerfile"], File(dockerfile, ModeFile));
    if !ok {
      PerformStepFails(d, faulty, plan, n + 1, before, steps[1].action);
      return Some(JourneyDockerfileFailed);
    }
    PerformStepOk(d, faulty, plan, n + 1, before, steps[1].action);
    var entrypoint := BuildEntrypoint(journey.steps);
    before := fs.State();
    ok := fs.WriteFile(journeyDir + ["entrypoint.sh"], File(entrypoint, ModeExec));
    if !ok {
      PerformStepFails(d, faulty, plan, n + 2, before, steps[2].action);
      return Some(EntrypointFailed);
    }
    PerformStepOk(d, faulty, plan, n + 2, before, steps[2].action);
    return None;
  }

  // ---------------------------------------------------------------------
  // Fail-fast execution

  /** A completed plan has created its directories and written its files, and nothing else. */
  lemma {:induction false} PerformSuccess(d: Disk, faulty: set<Path>, steps: seq<Step>)
    requires Perform(d, faulty, steps).failure.None?
    ensures Perform(d, faulty, steps).disk == DiskAfter(d, steps)
  {
    if steps != [] {
      PerformSuccess(d, faulty, steps[..|steps| - 1]);
    }
  }

  /** A plan runs to completion exactly when no step fails on the disk the steps before it leave. */
  lemma {:induction false} PerformSucceedsIff(d: Disk, faulty: set<Path>, steps: seq<Step>)
    ensures Perform(d, faulty, steps).failure.None?
            <==> forall i :: 0 <= i < |steps| ==> !Fails(DiskAfter(d, steps[..i]), faulty, steps[i].action)
  {
    if steps != [] {
      var n := |steps| - 1;
      var init := steps[..n];
      var before := Perform(d, faulty, init);
      PerformSucceedsIff(d, faulty, init);
      if before.failure.None? {
        PerformSuccess(d, faulty, init);
        assert before.disk == DiskAfter(d, steps[..n]);
      }
      NoFaultSnoc(d, faulty, steps);
    }
  }

  lemma NoFaultSnoc(d: Disk, faulty: set<Path>, steps: seq<Step>)
    requires steps != []
    ensures var n := |steps| - 1;
            (forall i :: 0 <= i < |steps| ==> !Fails(DiskAfter(d, steps[..i]), faulty, steps[i].action))
            <==> && (forall i :: 0 <= i < n ==> !Fails(DiskAfter(d, steps[..n][..i]), faulty, steps[..n][i].action))
                 && !Fails(DiskAfter(d, steps[..n]), faulty, steps[n].action)
  {
    var n := |steps| - 1;
    assert forall i :: 0 <= i < n ==> steps[..n][i] == steps[i] && steps[..n][..i] == steps[..i];
  }

  lemma {:induction false} FirstFaultExists(d: Disk, faulty: set<Path>, steps: seq<Step>, i: int)
    requires 0 <= i < |steps| && Fails(DiskAfter(d, steps[..i]), faulty, steps[i].action)
    ensures exists k :: FirstFault(d, faulty, steps, k)
    decreases i
  {
    if j :| 0 <= j < i && Fails(DiskAfter(d, steps[..j]), faulty, steps[j].action) {
      FirstFaultExists(d, faulty, steps, j);
    } else {
      assert FirstFault(d, faulty, steps, i);
    }
  }

  /**
   * When step `k` is the first to fail, the run reports that step's error,
   * and the disk holds the effects of the steps before it only.
   */
  lemma PerformStopsAtFirstFault(d: Disk, faulty: set<Path>, steps: seq<Step>, k: int)
    requires FirstFault(d, faulty, steps, k)
    ensures Perform(d, faulty, steps) == Outcome(DiskAfter(d, steps[..k]), Some(steps[k].onFailure))
  {
    var init := steps[..k];
    assert forall i :: 0 <= i < k ==> init[i] == steps[i] && init[..i] == steps[..i];
    PerformSucceedsIff(d, faulty, init);
    PerformSuccess(d, faulty, init);
    PerformStepFails(d, faulty, steps, k, Perform(d, faulty, init).disk, steps[k].action);
  }

  /** Every failed run failed at its first failing step. */
  lemma PerformFailsAtFirstFault(d: Disk, faulty: set<Path>, steps: seq<Step>)
    requires Perform(d, faulty, steps).failure.Some?
    ensures exists k :: && FirstFault(d, faulty, steps, k)
                        && Perform(d, faulty, steps) == Outcome(DiskAfter(d, steps[..k]), Some(steps[k].onFailure))
  {
    PerformSucceedsIff(d, faulty, steps);
    var i :| 0 <= i < |steps| && Fails(DiskAfter(d, steps[..i]), faulty, steps[i].action);
    FirstFaultExists(d, faulty, steps, i);
    var k :| FirstFault(d, faulty, steps, k);
    PerformStopsAtFirstFault(d, faulty, steps, k);
  }

  // ---------------------------------------------------------------------
  // Failures, independently of the order of the steps

  lemma {:induction false} PrefixEffects(steps: seq<Step>, n: nat)
    requires n <= |steps|
    ensures Made(steps[..n]) <= Made(steps)
    ensures Written(steps[..n]).Keys <= Written(steps).Keys
    decreases |steps|
  {
    if n < |steps| {
      var init := steps[..|steps| - 1];
      assert init[..n] == steps[..n];
      PrefixEffects(init, n);
    } else {
      assert steps[..n] == steps;
    }
  }

  /** The effect of step `j` is there after every prefix that includes it. */
  lemma StepEffect(steps: seq<Step>, j: nat, n: nat)
    requires j < n <= |steps|
    ensures steps[j].action.MakeDirs? ==> Ancestors(steps[j].action.dir) <= Made(steps[..n])
    ensures steps[j].action.Write? ==> steps[j].action.path in Written(steps[..n])
  {
    assert steps[..j + 1][..j] == steps[..j];
    assert steps[..n][..j + 1] == steps[..j + 1];
    PrefixEffects(steps[..n], j + 1);
  }

  lemma {:induction false} MadeBy(steps: seq<Step>, p: Path)
    requires p in Made(steps)
    ensures exists j :: 0 <= j < |steps| && steps[j].action.MakeDirs? && p in Ancestors(steps[j].action.dir)
  {
    var init := steps[..|steps| - 1];
    if p in Made(init) {
      MadeBy(init, p);
      var j :| 0 <= j < |init| && init[j].action.MakeDirs? && p in Ancestors(init[j].action.dir);
      assert steps[j] == init[j];
    }
  }

  lemma {:induction false} WrittenBy(steps: seq<Step>, p: Path)
    requires p in Written(steps)
    ensures exists j :: 0 <= j < |steps| && steps[j].action.Write? && steps[j].action.path == p
  {
    var init := steps[..|steps| - 1];
    if p in Written(init) && !(steps[|steps| - 1].action.Write? && steps[|steps| - 1].action.path == p) {
      WrittenBy(init, p);
      var j :| 0 <= j < |init| && init[j].action.Write? && init[j].action.path == p;
      assert steps[j] == init[j];
    }
  }

  /** The steps create no directory where a file is, and write no file where a directory is. */
  predicate NoClash(d: Disk, faulty: set<Path>, steps: seq<Step>)
  {
    && (forall i :: 0 <= i < |steps| ==> Target(steps[i].action) !in faulty)
    && Made(steps) !! d.files.Keys
    && Written(steps).Keys !! d.dirs
    && Made(steps) !! Written(steps).Keys
  }

  lemma NoClashNoFailure(d: Disk, faulty: set<Path>, steps: seq<Step>)
    requires NoClash(d, faulty, steps)
    ensures forall i :: 0 <= i < |steps| ==> !Fails(DiskAfter(d, steps[..i]), faulty, steps[i].action)
  {
    forall i | 0 <= i < |steps|
      ensures !Fails(DiskAfter(d, steps[..i]), faulty, steps[i].action)
    {
      PrefixEffects(steps, i);
      assert steps[..|steps|] == steps;
      StepEffect(steps, i, |steps|);
      var disk := DiskAfter(d, steps[..i]);
      assert disk.files.Keys <= d.files.Keys + Written(steps).Keys;
    }
  }

  lemma FailureFromClash(d: Disk, faulty: set<Path>, steps: seq<Step>)
    requires forall i :: 0 <= i < |steps| ==> !Fails(DiskAfter(d, steps[..i]), faulty, steps[i].action)
    ensures NoClash(d, faulty, steps)
  {
    forall p | p in Made(steps)
      ensures p !in d.files && p !in Written(steps)
    {
      MadeBy(steps, p);
      var a :| 0 <= a < |steps| && steps[a].action.MakeDirs? && p in Ancestors(steps[a].action.dir);
      assert !Fails(DiskAfter(d, steps[..a]), faulty, steps[a].action);
      if p in Written(steps) {
        WrittenBy(steps, p);
        var b :| 0 <= b < |steps| && steps[b].action.Write? && steps[b].action.path == p;
        assert !Fails(DiskAfter(d, steps[..b]), faulty, steps[b].action);
        if a < b {
          StepEffect(steps, a, b);
        } else {
          StepEffect(steps, b, a);
        }
        assert false;
      }
    }
    forall p | p in Written(steps)
      ensures p !in d.dirs
    {
      WrittenBy(steps, p);
      var b :| 0 <= b < |steps| && steps[b].action.Write? && steps[b].action.path == p;
      assert !Fails(DiskAfter(d, steps[..b]), faulty, steps[b].action);
    }
  }

  /**
   * Whether a run completes does not depend on the order of its steps: it
   * does exactly when no target is faulty, no directory of the steps is a
   * file on the disk or one the steps write, and no file the steps write is
   * a directory on the disk.
   */
  lemma PerformSucceedsIffNoClash(d: Disk, faulty: set<Path>, steps: seq<Step>)
    ensures Perform(d, faulty, steps).failure.None? <==> NoClash(d, faulty, steps)
  {
    PerformSucceedsIff(d, faulty, steps);
    if NoClash(d, faulty, steps) {
      NoClashNoFailure(d, faulty, steps);
    }
    if Perform(d, faulty, steps).failure.None? {
      FailureFromClash(d, faulty, steps);
    }
  }

  lemma {:induction false} WrittenAppend(a: seq<Step>, b: seq<Step>)
    ensures Written(a + b) == Written(a) + Written(b)
    decreases |b|
  {
    if b != [] {
      var b0 := b[..|b| - 1];
      assert (a + b)[..|a + b| - 1] == a + b0;
      WrittenAppend(a, b0);
    } else {
      assert a + b == a;
    }
  }

  /** No step of the plan writes to `p`. */
  predicate NoWriteTo(steps: seq<Step>, p: Path)
  {
    forall i :: 0 <= i < |steps| && steps[i].action.Write? ==> steps[i].action.path != p
  }

  lemma {:induction false} NotWritten(steps: seq<Step>, p: Path)
    requires NoWriteTo(steps, p)
    ensures p !in Written(steps)
  {
    if steps != [] {
      var init := steps[..|steps| - 1];
      assert forall i :: 0 <= i < |init| ==> init[i] == steps[i];
      NotWritten(init, p);
    }
  }

  // ---------------------------------------------------------------------
  // Paths of the workspace

  lemma JourneyFileInjective(root: Path, a: string, b: string, x: string, y: string)
    requires JourneyFile(root, a, x) == JourneyFile(root, b, y)
    ensures SanitizeName(a) == SanitizeName(b) && x == y
  {
    var p := JourneyFile(root, a, x);
    assert p[|p| - 1] == x;
    if SanitizeName(a) != "" && SanitizeName(b) != "" {
      assert p[|root| + 1] == SanitizeName(a);
    }
  }

  lemma BaseDockerfileIsJourneyFile(root: Path, name: string, x: string)
    ensures BaseDockerfilePath(root) == JourneyFile(root, name, x) <==> SanitizeName(name) == "_base" && x == "Dockerfile"
  {
    var base := BaseDockerfilePath(root);
    var p := JourneyFile(root, name, x);
    if base == p {
      assert p[|p| - 1] == x;
      assert base[|root| + 1] == "_base";
      assert |p| == |root| + 3;
    }
  }

  lemma ManifestIsNoOtherFile(root: Path, name: string, x: string)
    ensures ManifestPath(root) != JourneyFile(root, name, x)
    ensures ManifestPath(root) != BaseDockerfilePath(root)
  {
    assert ManifestPath(root)[|root|] == "docker-compose.yml";
    assert JourneyFile(root, name, x)[|root|] == "_journeys";
    assert BaseDockerfilePath(root)[|root|] == "_journeys";
  }

  // ---------------------------------------------------------------------
  // What the plan writes

  /** No later journey sanitizes to the same name as journey `k`. */
  predicate LastOfItsName(journeys: seq<Journey>, k: int)
    requires 0 <= k < |journeys|
  {
    forall l :: k < l < |journeys| ==> SanitizeName(journeys[l].name) != SanitizeName(journeys[k].name)
  }

  lemma WrittenJourney(root: Path, j: Journey)
    ensures Written(JourneyStepsOf(root, j))
            == map[JourneyFile(root, j.name, "Dockerfile") := File(JourneyDockerfile(), ModeFile),
                   JourneyFile(root, j.name, "entrypoint.sh") := File(Entrypoint(j.steps), ModeExec)]
  {
    var steps := JourneyStepsOf(root, j);
    assert steps[..2][..1] == steps[..1];
    assert steps[..1][..0] == [];
    assert steps[..3] == steps;
    assert Written(steps[..1]) == map[];
    assert Written(steps[..2]) == map[JourneyFile(root, j.name, "Dockerfile") := File(JourneyDockerfile(), ModeFile)];
  }

  lemma WrittenBase(root: Path, baseImage: string)
    ensures Written(BaseSteps(root, baseImage)) == map[BaseDockerfilePath(root) := File(baseImage, ModeFile)]
  {
    var steps := BaseSteps(root, baseImage);
    assert steps[..2][..1] == steps[..1];
    assert steps[..1][..0] == [];
    assert Written(steps[..1]) == map[];
    assert Written(steps[..2]) == map[];
  }

  /** `p` is the Dockerfile or the entrypoint of one of the journeys. */
  predicate IsJourneyFile(root: Path, journeys: seq<Journey>, p: Path)
  {
    exists k :: 0 <= k < |journeys| && p in {JourneyFile(root, journeys[k].name, "Dockerfile"),
                                               JourneyFile(root, journeys[k].name, "entrypoint.sh")}
  }

  lemma JourneyWritesSnoc(root: Path, journeys: seq<Journey>)
    requires journeys != []
    ensures var last := journeys[|journeys| - 1];
            Written(JourneySteps(root, journeys))
            == Written(JourneySteps(root, journeys[..|journeys| - 1]))
                 [JourneyFile(root, last.name, "Dockerfile") := File(JourneyDockerfile(), ModeFile)]
                 [JourneyFile(root, last.name, "entrypoint.sh") := File(Entrypoint(last.steps), ModeExec)]
  {
    var init := journeys[..|journeys| - 1];
    var last := journeys[|journeys| - 1];
    WrittenAppend(JourneySteps(root, init), JourneyStepsOf(root, last));
    WrittenJourney(root, last);
  }

  lemma {:induction false} JourneyWrittenKeys(root: Path, journeys: seq<Journey>)
    ensures forall p :: p in Written(JourneySteps(root, journeys)) <==> IsJourneyFile(root, journeys, p)
  {
    if journeys != [] {
      var init := journeys[..|journeys| - 1];
      var last := journeys[|journeys| - 1];
      JourneyWrittenKeys(root, init);
      JourneyWritesSnoc(root, journeys);
      forall p ensures p in Written(JourneySteps(root, journeys)) <==> IsJourneyFile(root, journeys, p) {
        JourneyFileSnoc(root, journeys, p);
      }
    }
  }

  /** A path is a journey's file iff it is an earlier journey's or the last one's. */
  lemma JourneyFileSnoc(root: Path, journeys: seq<Journey>, p: Path)
    requires journeys != []
    ensures var last := journeys[|journeys| - 1];
            IsJourneyFile(root, journeys, p)
            <==> || IsJourneyFile(root, journeys[..|journeys| - 1], p)
                 || p == JourneyFile(root, last.name, "Dockerfile")
                 || p == JourneyFile(root, last.name, "entrypoint.sh")
  {
    var init := journeys[..|journeys| - 1];
    if IsJourneyFile(root, journeys, p) {
      var k :| 0 <= k < |journeys| && p in {JourneyFile(root, journeys[k].name, "Dockerfile"),
                                             JourneyFile(root, journeys[k].name, "entrypoint.sh")};
      if k < |init| {
        assert init[k] == journeys[k];
      }
    }
    if IsJourneyFile(root, init, p) {
      var k :| 0 <= k < |init| && p in {JourneyFile(root, init[k].name, "Dockerfile"),
                                         JourneyFile(root, init[k].name, "entrypoint.sh")};
      assert journeys[k] == init[k];
    }
  }

  /** Every journey's Dockerfile holds the fixed journey Dockerfile. */
  lemma {:induction false} JourneyWrittenDockerfiles(root: Path, journeys: seq<Journey>)
    ensures forall k :: 0 <= k < |journeys| ==>
              var p := JourneyFile(root, journeys[k].name, "Dockerfile");
              p in Written(JourneySteps(root, journeys))
              && Written(JourneySteps(root, journeys))[p] == File(JourneyDockerfile(), ModeFile)
  {
    if journeys != [] {
      var init := journeys[..|journeys| - 1];
      var last := journeys[|journeys| - 1];
      JourneyWrittenDockerfiles(root, init);
      JourneyWritesSnoc(root, journeys);
      forall k | 0 <= k < |journeys|
        ensures var p := JourneyFile(root, journeys[k].name, "Dockerfile");
                p in Written(JourneySteps(root, journeys))
                && Written(JourneySteps(root, journeys))[p] == File(JourneyDockerfile(), ModeFile)
      {
        var p := JourneyFile(root, journeys[k].name, "Dockerfile");
        if p == JourneyFile(root, last.name, "entrypoint.sh") {
          JourneyFileInjective(root, journeys[k].name, last.name, "Dockerfile", "entrypoint.sh");
        }
        if k < |init| {
          assert init[k] == journeys[k];
        }
      }
    }
  }

  /** A journey's entrypoint survives unless a later journey has the same sanitized name. */
  lemma {:induction false} JourneyWrittenEntrypoints(root: Path, journeys: seq<Journey>)
    ensures forall k :: 0 <= k < |journeys| && LastOfItsName(journeys, k) ==>
              var p := JourneyFile(root, journeys[k].name, "entrypoint.sh");
              p in Written(JourneySteps(root, journeys))
              && Written(JourneySteps(root, journeys))[p] == File(Entrypoint(journeys[k].steps), ModeExec)
  {
    if journeys != [] {
      var init := journeys[..|journeys| - 1];
      var last := journeys[|journeys| - 1];
      JourneyWrittenEntrypoints(root, init);
      JourneyWritesSnoc(root, journeys);
      forall k | 0 <= k < |journeys| && LastOfItsName(journeys, k)
        ensures var p := JourneyFile(root, journeys[k].name, "entrypoint.sh");
                p in Written(JourneySteps(root, journeys))
                && Written(JourneySteps(root, journeys))[p] == File(Entrypoint(journeys[k].steps), ModeExec)
      {
        if k < |init| {
          var name := journeys[k].name;
          assert init[k] == journeys[k];
          assert SanitizeName(last.name) != SanitizeName(name);
          assert LastOfItsName(init, k);
          if JourneyFile(root, name, "entrypoint.sh") == JourneyFile(root, last.name, "entrypoint.sh") {
            JourneyFileInjective(root, name, last.name, "entrypoint.sh", "entrypoint.sh");
          }
          if JourneyFile(root, name, "entrypoint.sh") == JourneyFile(root, last.name, "Dockerfile") {
            JourneyFileInjective(root, name, last.name, "entrypoint.sh", "Dockerfile");
          }
        }
      }
    }
  }

  lemma PlanWritten(c: Config, root: Path, id: RunId, baseImage: string)
    ensures Written(Plan(c, root, id, baseImage))
            == (map[BaseDockerfilePath(root) := File(baseImage, ModeFile)] + Written(JourneySteps(root, c.journeys)))
                 [ManifestPath(root) := File(Manifest(c.services, c.journeys, id), ModeFile)]
  {
    var base := BaseSteps(root, baseImage);
    var js := JourneySteps(root, c.journeys);
    var m := [ManifestStep(c, root, id)];
    WrittenAppend(base + js, m);
    WrittenAppend(base, js);
    WrittenBase(root, baseImage);
    assert m[..0] == [];
  }

  /** A compile writes the base Dockerfile, the manifest and the journeys' files, and nothing else. */
  lemma WorkspaceKeys(c: Config, root: Path, id: RunId, baseImage: string)
    ensures forall p :: p in Written(Plan(c, root, id, baseImage))
                        <==> p == BaseDockerfilePath(root) || p == ManifestPath(root) || IsJourneyFile(root, c.journeys, p)
  {
    PlanWritten(c, root, id, baseImage);
    JourneyWrittenKeys(root, c.journeys);
  }

  /** The manifest file holds the generated manifest, mode 0644. */
  lemma WorkspaceManifest(c: Config, root: Path, id: RunId, baseImage: string)
    ensures var w := Written(Plan(c, root, id, baseImage));
            ManifestPath(root) in w && w[ManifestPath(root)] == File(Manifest(c.services, c.journeys, id), ModeFile)
  {
    PlanWritten(c, root, id, baseImage);
  }

  /**
   * The base Dockerfile keeps the given image text unless some journey's
   * name sanitizes to `_base`: that journey's directory is the base
   * directory, and its Dockerfile replaces the base one.
   */
  lemma WorkspaceBaseDockerfile(c: Config, root: Path, id: RunId, baseImage: string)
    ensures var w := Written(Plan(c, root, id, baseImage));
            && BaseDockerfilePath(root) in w
            && w[BaseDockerfilePath(root)]
               == (if exists k :: 0 <= k < |c.journeys| && SanitizeName(c.journeys[k].name) == "_base"
                   then File(JourneyDockerfile(), ModeFile)
                   else File(baseImage, ModeFile))
  {
    var journeys := c.journeys;
    var wj := Written(JourneySteps(root, journeys));
    var bp := BaseDockerfilePath(root);
    PlanWritten(c, root, id, baseImage);
    ManifestIsNoOtherFile(root, "", "");
    if exists k :: 0 <= k < |journeys| && SanitizeName(journeys[k].name) == "_base" {
      var k :| 0 <= k < |journeys| && SanitizeName(journeys[k].name) == "_base";
      BaseDockerfileIsJourneyFile(root, journeys[k].name, "Dockerfile");
      JourneyWrittenDockerfiles(root, journeys);
    } else if bp in wj {
      JourneyWrittenKeys(root, journeys);
      var k :| 0 <= k < |journeys| && bp in {JourneyFile(root, journeys[k].name, "Dockerfile"),
                                             JourneyFile(root, journeys[k].name, "entrypoint.sh")};
      BaseDockerfileIsJourneyFile(root, journeys[k].name, "Dockerfile");
      BaseDockerfileIsJourneyFile(root, journeys[k].name, "entrypoint.sh");
      assert false;
    }
  }

  /**
   * Every journey's Dockerfile holds the fixed text; the entrypoint of a
   * journey holds its script unless a later journey sanitizes to the same
   * name, whose files then replace it.
   */
  lemma WorkspaceJourneyFiles(c: Config, root: Path, id: RunId, baseImage: string)
    ensures var w := Written(Plan(c, root, id, baseImage));
            && (forall k :: 0 <= k < |c.journeys| ==>
                  var p := JourneyFile(root, c.journeys[k].name, "Dockerfile");
                  p in w && w[p] == File(JourneyDockerfile(), ModeFile))
            && (forall k :: 0 <= k < |c.journeys| && LastOfItsName(c.journeys, k) ==>
                  var p := JourneyFile(root, c.journeys[k].name, "entrypoint.sh");
                  p in w && w[p] == File(Entrypoint(c.journeys[k].steps), ModeExec))
  {
    PlanWritten(c, root, id, baseImage);
    JourneyWrittenDockerfiles(root, c.journeys);
    JourneyWrittenEntrypoints(root, c.journeys);
    forall k, x | 0 <= k < |c.journeys|
      ensures ManifestPath(root) != JourneyFile(root, c.journeys[k].name, x)
    {
      ManifestIsNoOtherFile(root, c.journeys[k].name, x);
    }
  }

  /** The mode a written file gets: 0755 for `entrypoint.sh`, 0644 for everything else. */
  predicate ModeByName(p: Path, f: File)
  {
    f.mode == if |p| > 0 && p[|p| - 1] == "entrypoint.sh" then ModeExec else ModeFile
  }

  lemma {:induction false} WrittenModes(steps: seq<Step>)
    requires forall i :: 0 <= i < |steps| && steps[i].action.Write? ==>
               ModeByName(steps[i].action.path, steps[i].action.file)
    ensures forall p :: p in Written(steps) ==> ModeByName(p, Written(steps)[p])
  {
    if steps != [] {
      var init := steps[..|steps| - 1];
      assert forall i :: 0 <= i < |init| ==> init[i] == steps[i];
      WrittenModes(init);
    }
  }

  /** Every file of the workspace has the mode its name calls for. */
  lemma WorkspaceModes(c: Config, root: Path, id: RunId, baseImage: string)
    ensures var w := Written(Plan(c, root, id, baseImage));
            forall p :: p in w ==> ModeByName(p, w[p])
  {
    var plan := Plan(c, root, id, baseImage);
    PlanEnds(c, root, id, baseImage);
    forall i | 0 <= i < |plan| && plan[i].action.Write?
      ensures ModeByName(plan[i].action.path, plan[i].action.file)
    {
      if 3 <= i < |plan| - 1 {
        var k := (i - 3) / 3;
        PlanJourneyAt(c, root, id, baseImage, k);
      }
    }
    WrittenModes(plan);
  }

  lemma {:induction false} MadeAppend(a: seq<Step>, b: seq<Step>)
    ensures Made(a + b) == Made(a) + Made(b)
    decreases |b|
  {
    if b != [] {
      var b0 := b[..|b| - 1];
      assert (a + b)[..|a + b| - 1] == a + b0;
      MadeAppend(a, b0);
    } else {
      assert a + b == a;
    }
  }

  /** `p` is one of the directories leading to some journey's build context, or that context itself. */
  predicate IsJourneyDirAncestor(root: Path, journeys: seq<Journey>, p: Path)
  {
    exists k :: 0 <= k < |journeys| && p in Ancestors(JourneyDir(root, journeys[k].name))
  }

  lemma MadeJourney(root: Path, j: Journey)
    ensures Made(JourneyStepsOf(root, j)) == Ancestors(JourneyDir(root, j.name))
  {
    var steps := JourneyStepsOf(root, j);
    assert steps[..2][..1] == steps[..1];
    assert steps[..1][..0] == [];
    assert steps[..3] == steps;
    assert Made(steps[..1]) == Ancestors(JourneyDir(root, j.name));
    assert Made(steps[..2]) == Made(steps[..1]);
  }

  lemma {:induction false} JourneyMade(root: Path, journeys: seq<Journey>)
    ensures forall p :: p in Made(JourneySteps(root, journeys)) <==> IsJourneyDirAncestor(root, journeys, p)
  {
    if journeys != [] {
      var init := journeys[..|journeys| - 1];
      var last := journeys[|journeys| - 1];
      var before := Made(JourneySteps(root, init));
      var lastDirs := Ancestors(JourneyDir(root, last.name));
      JourneyMade(root, init);
      MadeAppend(JourneySteps(root, init), JourneyStepsOf(root, last));
      MadeJourney(root, last);
      assert Made(JourneySteps(root, journeys)) == before + lastDirs;
      forall p ensures p in before + lastDirs <==> IsJourneyDirAncestor(root, journeys, p) {
        JourneyDirAncestorSnoc(root, journeys, p);
      }
    }
  }

  /** A directory leads to some journey's build context iff it leads to an earlier one's or to the last one's. */
  lemma JourneyDirAncestorSnoc(root: Path, journeys: seq<Journey>, p: Path)
    requires journeys != []
    ensures IsJourneyDirAncestor(root, journeys, p)
            <==> IsJourneyDirAncestor(root, journeys[..|journeys| - 1], p)
                 || p in Ancestors(JourneyDir(root, journeys[|journeys| - 1].name))
  {
    var init := journeys[..|journeys| - 1];
    if IsJourneyDirAncestor(root, journeys, p) {
      var k :| 0 <= k < |journeys| && p in Ancestors(JourneyDir(root, journeys[k].name));
      if k < |init| {
        assert init[k] == journeys[k];
      }
    }
    if IsJourneyDirAncestor(root, init, p) {
      var k :| 0 <= k < |init| && p in Ancestors(JourneyDir(root, init[k].name));
      assert journeys[k] == init[k];
    }
  }

  /**
   * The directories a compile creates: the root and the base build context
   * `_journeys/_base`, with their ancestors, and each journey's build
   * context, with its ancestors; nothing else.
   */
  lemma WorkspaceDirs(c: Config, root: Path, id: RunId, baseImage: string)
    ensures forall p :: p in Made(Plan(c, root, id, baseImage))
                        <==> p in Ancestors(BaseDir(root)) || IsJourneyDirAncestor(root, c.journeys, p)
  {
    var base := BaseSteps(root, baseImage);
    var js := JourneySteps(root, c.journeys);
    var m := [ManifestStep(c, root, id)];
    MadeAppend(base + js, m);
    MadeAppend(base, js);
    JourneyMade(root, c.journeys);
    assert m[..0] == [];
    assert base[..2][..1] == base[..1];
    assert base[..1][..0] == [];
    assert base[..3] == base;
    assert Made(base[..1]) == Ancestors(root);
    assert Made(base[..2]) == Ancestors(root) + Ancestors(BaseDir(root));
    assert Made(base) == Made(base[..2]);
    forall p | p in Ancestors(root) ensures p in Ancestors(BaseDir(root)) {
      var i :| 0 < i <= |root| && p == root[..i];
      assert p == BaseDir(root)[..i];
    }
  }

  /**
   * Two journey names that make the workspace clash with itself: one
   * sanitizes to the empty name, so its files land directly in `_journeys`,
   * and another sanitizes to the name of one of those files, so its build
   * context is that file's path.
   */
  predicate JourneyNameClash(journeys: seq<Journey>)
  {
    && (exists a :: 0 <= a < |journeys| && SanitizeName(journeys[a].name) == "")
    && (exists b :: 0 <= b < |journeys| && SanitizeName(journeys[b].name) in {"Dockerfile", "entrypoint.sh"})
  }

  /** A sanitized name has no `.`, so it is never `entrypoint.sh`: only `Dockerfile` can clash. */
  lemma SanitizedNameIsNoEntrypoint(name: string)
    ensures SanitizeName(name) != "entrypoint.sh"
  {
    var r := SanitizeName(name);
    assert !IsWordChar("entrypoint.sh"[10]);
    if |r| > 10 {
      assert IsWordChar(r[10]);
    }
  }

  lemma AncestorIsPrefix(q: Path, p: Path)
    requires p in Ancestors(q)
    ensures 0 < |p| <= |q| && p == q[..|p|]
  {
  }

  /**
   * A directory a compile creates is at most two elements below the root;
   * the first of those is `_journeys`, and the second `_base` or a
   * journey's sanitized name.
   */
  lemma MadeShape(root: Path, journeys: seq<Journey>, p: Path)
    requires p in Ancestors(BaseDir(root)) || IsJourneyDirAncestor(root, journeys, p)
    ensures 0 < |p| <= |root| + 2
    ensures |p| > |root| ==> p[|root|] == "_journeys"
    ensures |p| == |root| + 2 ==>
              || p[|root| + 1] == "_base"
              || exists m :: 0 <= m < |journeys| && p[|root| + 1] == SanitizeName(journeys[m].name)
  {
    if p in Ancestors(BaseDir(root)) {
      AncestorIsPrefix(BaseDir(root), p);
    } else {
      var m :| 0 <= m < |journeys| && p in Ancestors(JourneyDir(root, journeys[m].name));
      AncestorIsPrefix(JourneyDir(root, journeys[m].name), p);
    }
  }

  /** A path both created as a directory and written as a file comes from a journey name clash. */
  lemma ClashingPath(c: Config, root: Path, id: RunId, baseImage: string, p: Path)
    requires p in Ancestors(BaseDir(root)) || IsJourneyDirAncestor(root, c.journeys, p)
    requires p == BaseDockerfilePath(root) || p == ManifestPath(root) || IsJourneyFile(root, c.journeys, p)
    ensures JourneyNameClash(c.journeys)
  {
    MadeShape(root, c.journeys, p);
    if p == BaseDockerfilePath(root) || p == ManifestPath(root) {
      assert false;
    } else {
      var k :| 0 <= k < |c.journeys| && p in {JourneyFile(root, c.journeys[k].name, "Dockerfile"),
                                             JourneyFile(root, c.journeys[k].name, "entrypoint.sh")};
      if SanitizeName(c.journeys[k].name) != "" {
        assert false;
      } else {
        assert p[|root| + 1] in {"Dockerfile", "entrypoint.sh"};
      }
    }
  }

  /** The workspace clashes with itself exactly when two journey names clash. */
  lemma PlanClashIff(c: Config, root: Path, id: RunId, baseImage: string)
    ensures var plan := Plan(c, root, id, baseImage);
            Made(plan) !! Written(plan).Keys <==> !JourneyNameClash(c.journeys)
  {
    var plan := Plan(c, root, id, baseImage);
    WorkspaceDirs(c, root, id, baseImage);
    WorkspaceKeys(c, root, id, baseImage);
    if JourneyNameClash(c.journeys) {
      var a :| 0 <= a < |c.journeys| && SanitizeName(c.journeys[a].name) == "";
      var b :| 0 <= b < |c.journeys| && SanitizeName(c.journeys[b].name) in {"Dockerfile", "entrypoint.sh"};
      var x := SanitizeName(c.journeys[b].name);
      var p := JourneyFile(root, c.journeys[a].name, x);
      assert p == JourneyDir(root, c.journeys[b].name);
      assert p == p[..|p|];
      assert IsJourneyDirAncestor(root, c.journeys, p);
      assert IsJourneyFile(root, c.journeys, p);
      assert p in Made(plan) && p in Written(plan);
    } else {
      forall p | p in Made(plan) && p in Written(plan) ensures false {
        ClashingPath(c, root, id, baseImage, p);
      }
    }
  }

  lemma PlanTargetsIff(c: Config, root: Path, id: RunId, baseImage: string, faulty: set<Path>)
    ensures var plan := Plan(c, root, id, baseImage);
            (forall i :: 0 <= i < |plan| ==> Target(plan[i].action) !in faulty)
            <==> && root !in faulty
                 && BaseDir(root) !in faulty
                 && BaseDockerfilePath(root) !in faulty
                 && (forall k :: 0 <= k < |c.journeys| ==>
                       && JourneyDir(root, c.journeys[k].name) !in faulty
                       && JourneyFile(root, c.journeys[k].name, "Dockerfile") !in faulty
                       && JourneyFile(root, c.journeys[k].name, "entrypoint.sh") !in faulty)
                 && ManifestPath(root) !in faulty
  {
    var plan := Plan(c, root, id, baseImage);
    PlanEnds(c, root, id, baseImage);
    if forall i :: 0 <= i < |plan| ==> Target(plan[i].action) !in faulty {
      forall k | 0 <= k < |c.journeys|
        ensures && JourneyDir(root, c.journeys[k].name) !in faulty
                && JourneyFile(root, c.journeys[k].name, "Dockerfile") !in faulty
                && JourneyFile(root, c.journeys[k].name, "entrypoint.sh") !in faulty
      {
        PlanJourneyAt(c, root, id, baseImage, k);
        assert Target(plan[3 + 3 * k].action) !in faulty;
        assert Target(plan[4 + 3 * k].action) !in faulty;
        assert Target(plan[5 + 3 * k].action) !in faulty;
      }
      assert Target(plan[|plan| - 1].action) !in faulty;
    } else {
      var i :| 0 <= i < |plan| && Target(plan[i].action) in faulty;
      if 3 <= i < |plan| - 1 {
        var k := (i - 3) / 3;
        PlanJourneyAt(c, root, id, baseImage, k);
        assert i == 3 + 3 * k || i == 4 + 3 * k || i == 5 + 3 * k;
      }
    }
  }

  /**
   * A compile runs to completion exactly when none of the paths it creates
   * or writes is faulty (the root, the base directory and Dockerfile, each
   * journey's directory, Dockerfile and entrypoint, and the manifest), none
   * of its directories is a file on the disk, none of its files is a
   * directory on the disk, and no two journey names clash.
   */
  lemma CompileSucceedsIff(c: Config, root: Path, id: RunId, baseImage: string, d: Disk, faulty: set<Path>)
    ensures Perform(d, faulty, Plan(c, root, id, baseImage)).failure.None?
            <==> && root !in faulty
                 && BaseDir(root) !in faulty
                 && BaseDockerfilePath(root) !in faulty
                 && (forall k :: 0 <= k < |c.journeys| ==>
                       && JourneyDir(root, c.journeys[k].name) !in faulty
                       && JourneyFile(root, c.journeys[k].name, "Dockerfile") !in faulty
                       && JourneyFile(root, c.journeys[k].name, "entrypoint.sh") !in faulty)
                 && ManifestPath(root) !in faulty
                 && Made(Plan(c, root, id, baseImage)) !! d.files.Keys
                 && Written(Plan(c, root, id, baseImage)).Keys !! d.dirs
                 && !JourneyNameClash(c.journeys)
  {
    PerformSucceedsIffNoClash(d, faulty, Plan(c, root, id, baseImage));
    PlanTargetsIff(c, root, id, baseImage, faulty);
    PlanClashIff(c, root, id, baseImage);
  }

  /**
   * A journey named `""` builds in `_journeys` itself and writes
   * `_journeys/Dockerfile`; a journey named `Dockerfile` needs that very
   * path as its directory. Whatever the disk, such a compile stops.
   */
  lemma EmptyAndDockerfileJourneysFail(c: Config, root: Path, id: RunId, baseImage: string, d: Disk, faulty: set<Path>)
    requires exists a :: 0 <= a < |c.journeys| && c.journeys[a].name == ""
    requires exists b :: 0 <= b < |c.journeys| && c.journeys[b].name == "Dockerfile"
    ensures Perform(d, faulty, Plan(c, root, id, baseImage)).failure.Some?
  {
    var a :| 0 <= a < |c.journeys| && c.journeys[a].name == "";
    var b :| 0 <= b < |c.journeys| && c.journeys[b].name == "Dockerfile";
    assert SanitizeName(c.journeys[a].name) == "";
    DockerfileIsClean(c.journeys[b].name);
    assert JourneyNameClash(c.journeys);
    CompileSucceedsIff(c, root, id, baseImage, d, faulty);
  }

  lemma DockerfileIsClean(name: string)
    requires name == "Dockerfile"
    ensures SanitizeName(name) == "Dockerfile"
  {
    assert forall i :: 0 <= i < |name| ==> IsWordChar(name[i]);
    SanitizeNameKeepsCleanName(name);
  }

  lemma PlanWritesManifestLast(c: Config, root: Path, id: RunId, baseImage: string)
    ensures var plan := Plan(c, root, id, baseImage);
            forall i :: 0 <= i < |plan| - 1 && plan[i].action.Write? ==> plan[i].action.path != ManifestPath(root)
  {
    var plan := Plan(c, root, id, baseImage);
    PlanEnds(c, root, id, baseImage);
    forall i | 0 <= i < |plan| - 1 && plan[i].action.Write?
      ensures plan[i].action.path != ManifestPath(root)
    {
      if 3 <= i {
        var j := (i - 3) / 3;
        PlanJourneyAt(c, root, id, baseImage, j);
        ManifestIsNoOtherFile(root, c.journeys[j].name, "Dockerfile");
        ManifestIsNoOtherFile(root, c.journeys[j].name, "entrypoint.sh");
      } else {
        ManifestIsNoOtherFile(root, "", "");
      }
    }
  }

  /**
   * A failed compile never leaves a manifest behind: the manifest path holds
   * what it held before the compile, if anything.
   */
  lemma FailedCompileKeepsManifest(c: Config, root: Path, id: RunId, baseImage: string, d: Disk, faulty: set<Path>)
    requires Perform(d, faulty, Plan(c, root, id, baseImage)).failure.Some?
    ensures var files := Perform(d, faulty, Plan(c, root, id, baseImage)).disk.files;
            && (ManifestPath(root) in files <==> ManifestPath(root) in d.files)
            && (ManifestPath(root) in d.files ==> files[ManifestPath(root)] == d.files[ManifestPath(root)])
  {
    var plan := Plan(c, root, id, baseImage);
    var mp := ManifestPath(root);
    PerformFailsAtFirstFault(d, faulty, plan);
    var k :| && FirstFault(d, faulty, plan, k)
             && Perform(d, faulty, plan) == Outcome(DiskAfter(d, plan[..k]), Some(plan[k].onFailure));
    PlanWritesManifestLast(c, root, id, baseImage);
    PlanEnds(c, root, id, baseImage);
    assert k <= |plan| - 1;
    assert forall i :: 0 <= i < k ==> plan[..k][i] == plan[i];
    NotWritten(plan[..k], mp);
  }

  /** The documented example: one service `nginx_service`, one journey `get index` with one step. */
  predicate IsExample(c: Config, image: string, step: string)
  {
    c == Config([Service("nginx_service", image)], [Journey("get index", [step])], [])
  }

  lemma ExampleJourneyName(j: Journey)
    requires j.name == "get index"
    ensures SanitizeName(j.name) == "get_index"
  {
    SanitizeNameGetIndex();
  }

  lemma ExampleServiceName(s: Service)
    requires s.name == "nginx_service"
    ensures SanitizeName(s.name) == "nginx_service"
  {
    SanitizeNameNginxService();
  }

  lemma ExampleJourneyPaths(root: Path, j: Journey)
    requires SanitizeName(j.name) == "get_index"
    ensures JourneyFile(root, j.name, "Dockerfile") == root + ["_journeys", "get_index", "Dockerfile"]
    ensures JourneyFile(root, j.name, "entrypoint.sh") == root + ["_journeys", "get_index", "entrypoint.sh"]
  {
  }

  /**
   * The example's journey gets the build context `_journeys/get_index`,
   * with the fixed Dockerfile and an executable entrypoint made of the
   * shebang, `set -e`, one step comment and the step.
   */
  lemma ExampleJourneyContext(c: Config, root: Path, id: RunId, image: string, baseImage: string, step: string)
    requires IsExample(c, image, step) && NoNewline(step)
    ensures var w := Written(Plan(c, root, id, baseImage));
            var dockerfile := root + ["_journeys", "get_index", "Dockerfile"];
            var entry := root + ["_journeys", "get_index", "entrypoint.sh"];
            && dockerfile in w && w[dockerfile] == File(JourneyDockerfile(), ModeFile)
            && entry in w && w[entry].mode == ModeExec
            && SplitLines(w[entry].content) == ["#!/bin/sh", "set -e # exit on error", "# step 1", step]
  {
    var j := c.journeys[0];
    ExampleJourneyName(j);
    ExampleJourneyPaths(root, j);
    WorkspaceJourneyFiles(c, root, id, baseImage);
    assert LastOfItsName(c.journeys, 0);
    EntrypointOneStep(step);
  }

  lemma ExampleServiceBlock(s: Service, id: RunId)
    requires SanitizeName(s.name) == "nginx_service"
    ensures ServiceBlock(s, id) == ["  nginx_service:", "    image: " + s.image, "    networks:", "      - " + NetworkName(id)]
  {
    assert Indent + "nginx_service" + ":" == "  nginx_service:";
    assert Indent2 + "image: " == "    image: ";
    assert Indent2 + "networks:" == "    networks:";
    assert Indent3 + "- " == "      - ";
  }

  lemma ExampleJourneyBlock(j: Journey, id: RunId)
    requires SanitizeName(j.name) == "get_index"
    ensures JourneyBlock(j, id)
            == ["  journey__get_index:", "    build: ./_journeys/get_index", "    networks:", "      - " + NetworkName(id)]
  {
    ExampleJourneyHeader(SanitizeName(j.name));
    ExampleBuildLine(SanitizeName(j.name));
    assert Indent2 + "networks:" == "    networks:";
    assert Indent3 + "- " == "      - ";
  }

  lemma ExampleJourneyHeader(name: string)
    requires name == "get_index"
    ensures Indent + "journey__" + name + ":" == "  journey__get_index:"
  {
  }

  lemma ExampleBuildLine(name: string)
    requires name == "get_index"
    ensures Indent2 + "build: ./_journeys/" + name == "    build: ./_journeys/get_index"
  {
  }

  lemma ExampleManifestLines(s: Service, j: Journey, id: RunId)
    requires SanitizeName(s.name) == "nginx_service" && SanitizeName(j.name) == "get_index" && NoNewline(s.image)
    ensures var net := NetworkName(id);
            SplitLines(Manifest([s], [j], id))
            == [ "services:",
                 "  nginx_service:", "    image: " + s.image, "    networks:", "      - " + net,
                 "  journey__get_index:", "    build: ./_journeys/get_index", "    networks:", "      - " + net,
                 "networks:", "  " + net + ":" ]
  {
    ManifestOfOne(s, j, id);
    ExampleServiceBlock(s, id);
    ExampleJourneyBlock(j, id);
  }

  /**
   * The example's manifest, line by line: the service block, the journey
   * block, and the one network `khh_<id>` that both join.
   */
  lemma ExampleManifest(c: Config, root: Path, id: RunId, image: string, baseImage: string, step: string)
    requires IsExample(c, image, step) && NoNewline(image)
    ensures var w := Written(Plan(c, root, id, baseImage));
            var net := NetworkName(id);
            && ManifestPath(root) in w
            && SplitLines(w[ManifestPath(root)].content)
               == [ "services:",
                    "  nginx_service:", "    image: " + image, "    networks:", "      - " + net,
                    "  journey__get_index:", "    build: ./_journeys/get_index", "    networks:", "      - " + net,
                    "networks:", "  " + net + ":" ]
  {
    var s, j := c.services[0], c.journeys[0];
    WorkspaceManifest(c, root, id, baseImage);
    ExampleServiceName(s);
    ExampleJourneyName(j);
    ExampleManifestLines(s, j, id);
  }
}
