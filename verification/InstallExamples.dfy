/** Concrete plans that fail where the planner and the installer do not mean them to. */
module InstallExamples {
  import opened Wrappers
  import opened Versions
  import opened VersionOrder
  import opened InstallPlan
  import opened InstallPlanner
  import opened PlanAgreement
  import opened FileSystem
  import opened Installer
  import opened UpgradeSafety
  import opened UpgradeRecovery

  // ---- One user's installation ----

  ghost const DIST: Path := ["home", "user", "dist"]
  ghost const UNITS: Path := ["home", "user", "units"]
  ghost const STATE: Path := ["home", "user", "state"]

  ghost const LAYOUT :=
      Layout(SystemdUser, ["home", "user"], DIST, DIST + ["versions"], DIST + ["current"], UNITS, STATE, None, None)

  lemma LayoutValid()
    ensures ValidLayout(LAYOUT)
  {
    assert STATE[2] == "state" && DIST[2] == "dist" && UNITS[2] == "units";
  }

  ghost const OLD := "1.0.0"
  ghost const NEW := "1.1.0"

  lemma VersionsOk()
    ensures Matches(OLD) && Matches(NEW) && CompareVersions(NEW, OLD) > 0
  {
    MinorRise("0", "1", OLD, NEW);
  }

  lemma MinorRise(low: string, high: string, before: string, after: string)
    requires low == "0" && high == "1" && before == "1." + low + ".0" && after == "1." + high + ".0"
    ensures Matches(before) && Matches(after) && CompareVersions(after, before) > 0
  {
    var v, w := Version("1", low, "0", []), Version("1", high, "0", []);
    Rendered(v, before);
    Rendered(w, after);
    ComparesParts(w, v);
    assert Value(low) == 0 && Value(high) == 1;
  }

  lemma Rendered(v: Version, text: string)
    requires Valid(v) && v.pre == [] && text == v.major + "." + v.minor + "." + v.patch
    ensures text == Render(v) && Matches(text)
  {
    RenderMatches(v);
    JoinCore(v);
  }

  ghost const CONTROLLER := Unit("io" + "." + "zatiti", "new launcher")

  lemma TwoParts(a: string, b: string)
    requires Identifier(a) && Identifier(b)
    ensures ServiceName(a + "." + b)
  {
    var parts := [a, b];
    SplitJoin(parts, '.');
    assert parts[1..] == [b] && Join([b], '.') == b;
    assert Join(parts, '.') == a + "." + b;
  }

  lemma ControllerValid()
    ensures ValidUnits([CONTROLLER])
  {
    TwoParts("io", "zatiti");
  }

  // ---- An upgrade whose link swap cannot sync ----

  ghost const LAUNCHER := UnitPath(LAYOUT, CONTROLLER)

  /** An active older release with its launcher. */
  ghost const DISK: FS := map[
    DIST := Dir(DIR_MODE), DIST + ["versions"] := Dir(DIR_MODE), DIST + ["versions", OLD] := Dir(DIR_MODE),
    DIST + ["current"] := LinkTo(OLD), UNITS := Dir(DIR_MODE), LAUNCHER := File("old launcher", FILE_MODE)]

  ghost const RELEASE := Manifest(NEW, [], "manifest")

  ghost const UPGRADE := InstallInput(LAYOUT, RELEASE, ["srv"], true, true, true, Some([CONTROLLER]), true, OLD)

  ghost const UPGRADE_PLAN :=
      Plan(Upgrade, LAYOUT, NEW, OLD, ReleaseSteps(LAYOUT, RELEASE, ["srv"], []) + [DirStep(UNITS)],
                                   ServiceActions(LAYOUT, Unload, [CONTROLLER]),
                                   [LinkStep(LAYOUT, NEW)] + UnitSteps(LAYOUT, [CONTROLLER]),
                                   ServiceActions(LAYOUT, Load, [CONTROLLER]), false, "")

  lemma UpgradePlanned()
    ensures IsInstallation(UPGRADE_PLAN, UPGRADE, []) && Plannable(UPGRADE) && CheckPlan(UPGRADE_PLAN)
  {
    LayoutValid();
    VersionsOk();
    ControllerValid();
    assert ["srv"][0] != DIST[0] && ["srv"][0] != STATE[0];
    assert IsInstallation(UPGRADE_PLAN, UPGRADE, []);
    PlannedPassesCheck(UPGRADE_PLAN, UPGRADE, []);
  }

  ghost const CALM := OS(false, {}, "tmp", {}, map[])

  /** The active link is the only link on disk. */
  ghost predicate OneLink(l: Layout, fs: FS) {
    forall p | p in fs && fs[p].Link? :: p == l.current
  }

  lemma Straight(l: Layout, fs: FS, p: Path)
    requires ValidLayout(l) && OneLink(l, fs) && (Within(p, l.distRoot) || Within(p, l.unitDir))
    requires Within(p, l.current) ==> p == l.current
    ensures !Redirected(l, fs, p)
  {
    forall i | 0 <= i <= |p| && p[..i] in fs && fs[p[..i]].Link? ensures i == |p| && p == l.current {
      assert p[..i] == l.current;
    }
    if Within(p, l.distRoot) && (Within(p, l.stateDir) || Within(p, l.unitDir)) {
      PrefixesMeet(l.distRoot, if Within(p, l.stateDir) then l.stateDir else l.unitDir, p);
    }
  }

  lemma StepsNext(l: Layout, fs: FS, steps: seq<Step>, os: nat -> OS, n: nat, g: FS, h: FS)
    requires n < |steps| && RunSteps(l, fs, steps, os, n).ok && Final(fs, RunSteps(l, fs, steps, os, n)) == g
    requires RunStep(l, g, steps[n], os(n)).ok && Final(g, RunStep(l, g, steps[n], os(n))) == h
    ensures RunSteps(l, fs, steps, os, n + 1).ok && Final(fs, RunSteps(l, fs, steps, os, n + 1)) == h
  {
    var r, x := RunSteps(l, fs, steps, os, n), RunStep(l, g, steps[n], os(n));
    assert RunSteps(l, fs, steps, os, n + 1) == Ran(r.states + x.states, x.ok);
  }

  ghost predicate Does(l: Layout, fs: FS, step: Step, end: FS) {
    RunStep(l, fs, step, CALM).ok && Final(fs, RunStep(l, fs, step, CALM)) == end
  }

  lemma DirThere(l: Layout, fs: FS, p: Path)
    requires !Redirected(l, fs, p) && p in fs && fs[p] == Dir(DIR_MODE)
    ensures Does(l, fs, DirStep(p), fs)
  {
    assert fs[p := Dir(DIR_MODE)] == fs;
  }

  lemma NothingToRemove(l: Layout, fs: FS, p: Path)
    requires !Redirected(l, fs, p) && p !in fs
    ensures Does(l, fs, RemoveStep(RemoveTree, p), fs)
  {
  }

  lemma FreshDir(l: Layout, fs: FS, p: Path)
    requires !Redirected(l, fs, p) && p != [] && p !in fs && IsDir(fs, Parent(p))
    ensures Does(l, fs, Step(ResetDir, p, [], "", 0, DIR_MODE, NoTarget, ""), fs[p := Dir(DIR_MODE)])
  {
    assert MkdirAll(fs, Parent(p), DIR_MODE) == Some(fs);
    assert MkdirAll(fs, p, DIR_MODE) == Some(fs[p := Dir(DIR_MODE)]);
    assert fs[p := Dir(DIR_MODE)][p := Dir(DIR_MODE)] == fs[p := Dir(DIR_MODE)];
    var removed, made := RunRemoveTree(fs, p, CALM), RunEnsureDir(fs, p, DIR_MODE, true, CALM, 1);
    assert removed.states + made.states == made.states;
  }

  lemma FreshFile(l: Layout, fs: FS, p: Path, content: string)
    requires !Redirected(l, fs, p) && p != [] && p !in fs && TempFile(p, CALM.suffix) !in fs && IsDir(fs, Parent(p))
    ensures Does(l, fs, WriteStep(p, content), fs[p := File(content, FILE_MODE)])
  {
  }

  lemma Published(l: Layout, fs: FS, source: Path, to: Path)
    requires !Redirected(l, fs, source) && CanRename(fs, source, to)
    ensures Does(l, fs, Step(PublishDir, source, [], "", 0, 0, Absolute(to), ""), Rename(fs, source, to))
  {
  }

  // ---- Its preparation ----

  ghost const PARTIAL := PartialDir(LAYOUT, NEW)
  ghost const RELEASED := LAYOUT.VersionDir(NEW)
  ghost const MANIFEST := PARTIAL + [MANIFEST_NAME]

  ghost const STAGED: FS := DISK[PARTIAL := Dir(DIR_MODE)][MANIFEST := File("manifest", FILE_MODE)]

  lemma DiskHas(p: Path)
    ensures p in DISK ==> p == DIST || p == UNITS || p == LAUNCHER
                          || (|p| == 4 && (p[3] == "versions" || p[3] == "current")) || (|p| == 5 && p[4] == OLD)
    ensures p in DISK && DISK[p].Link? ==> p == LAYOUT.current
  {
  }

  lemma DiskAt()
    ensures DISK[DIST] == Dir(DIR_MODE) && DISK[LAYOUT.versions] == Dir(DIR_MODE) && DISK[UNITS] == Dir(DIR_MODE)
    ensures DISK[LAYOUT.current] == LinkTo(OLD) && DISK[LAUNCHER] == File("old launcher", FILE_MODE)
  {
    assert LAYOUT.current[3] == "current" && LAYOUT.versions[3] == "versions";
    assert LAUNCHER[2] == "units" && LAYOUT.versions[2] == LAYOUT.current[2] == DIST[2] == "dist";
  }

  lemma Lengths()
    ensures |LAUNCHER| == 4 && LAUNCHER[2] == "units"
    ensures |PARTIAL| == 5 && |RELEASED| == 5 && |MANIFEST| == 6 && PARTIAL[3] == RELEASED[3] == "versions"
    ensures Within(PARTIAL, DIST) && Within(RELEASED, DIST) && Within(MANIFEST, PARTIAL)
    ensures PARTIAL[4][0] == '.' && RELEASED[4] == NEW
  {
    assert PARTIAL[4] == "." + NEW + ".partial";
  }

  lemma NotYetThere()
    ensures PARTIAL !in DISK && RELEASED !in DISK && MANIFEST !in DISK
  {
    Lengths();
    DiskHas(PARTIAL);
    DiskHas(RELEASED);
    DiskHas(MANIFEST);
    assert OLD[0] == '1' && OLD[2] == '0' && NEW[2] == '1';
  }

  lemma StagedLinks()
    ensures OneLink(LAYOUT, DISK) && OneLink(LAYOUT, STAGED) && OneLink(LAYOUT, DISK[PARTIAL := Dir(DIR_MODE)])
  {
    forall p | p in DISK && DISK[p].Link? ensures p == LAYOUT.current {
      DiskHas(p);
    }
  }

  ghost const READY: FS := Rename(STAGED, PARTIAL, RELEASED)

  lemma ReadyAt(p: Path)
    requires !Within(p, PARTIAL) && !Within(p, RELEASED)
    ensures SameAt(DISK, READY, p)
  {
    Lengths();
    RenameFrame(STAGED, PARTIAL, RELEASED, p);
  }

  lemma ReadyLinks()
    ensures OneLink(LAYOUT, READY)
  {
    StagedLinks();
    Lengths();
    forall p | p in READY && READY[p].Link? ensures p == LAYOUT.current {
    }
  }

  ghost const PREPARE := [DirStep(DIST), DirStep(LAYOUT.versions), RemoveStep(RemoveTree, RELEASED),
                          Step(ResetDir, PARTIAL, [], "", 0, DIR_MODE, NoTarget, ""), WriteStep(MANIFEST, "manifest"),
                          Step(PublishDir, PARTIAL, [], "", 0, 0, Absolute(RELEASED), ""), DirStep(UNITS)]

  lemma PrepareList()
    ensures UPGRADE_PLAN.prepare == PREPARE
  {
    assert DirSteps([]) == [] && CopySteps(PARTIAL, ["srv"], []) == [];
  }

  lemma OnTheWay(fs: FS, p: Path)
    requires OneLink(LAYOUT, fs) && p in {DIST, LAYOUT.versions, RELEASED, PARTIAL, MANIFEST, UNITS, LAYOUT.current}
    ensures !Redirected(LAYOUT, fs, p)
  {
    LayoutValid();
    Lengths();
    assert LAYOUT.current[3] == "current" && LAYOUT.versions[3] == "versions";
    Straight(LAYOUT, fs, p);
  }

  lemma StagingDone()
    ensures Does(LAYOUT, DISK, PREPARE[0], DISK) && Does(LAYOUT, DISK, PREPARE[1], DISK)
    ensures Does(LAYOUT, DISK, PREPARE[2], DISK) && Does(LAYOUT, DISK, PREPARE[3], DISK[PARTIAL := Dir(DIR_MODE)])
  {
    StagedLinks();
    NotYetThere();
    DiskAt();
    OnTheWay(DISK, DIST);
    OnTheWay(DISK, LAYOUT.versions);
    OnTheWay(DISK, RELEASED);
    OnTheWay(DISK, PARTIAL);
    DirThere(LAYOUT, DISK, DIST);
    DirThere(LAYOUT, DISK, LAYOUT.versions);
    NothingToRemove(LAYOUT, DISK, RELEASED);
    assert Parent(PARTIAL) == LAYOUT.versions;
    FreshDir(LAYOUT, DISK, PARTIAL);
  }

  lemma StagedAt()
    ensures PARTIAL in STAGED && RELEASED !in STAGED && IsDir(STAGED, LAYOUT.versions) && IsDir(STAGED, PARTIAL)
    ensures TempFile(MANIFEST, CALM.suffix) !in DISK[PARTIAL := Dir(DIR_MODE)]
            && MANIFEST !in DISK[PARTIAL := Dir(DIR_MODE)]
  {
    Lengths();
    NotYetThere();
    DiskAt();
    DiskHas(TempFile(MANIFEST, CALM.suffix));
  }

  lemma PublishingDone()
    ensures Does(LAYOUT, DISK[PARTIAL := Dir(DIR_MODE)], PREPARE[4], STAGED)
    ensures Does(LAYOUT, STAGED, PREPARE[5], READY) && Does(LAYOUT, READY, PREPARE[6], READY)
  {
    Lengths();
    DiskAt();
    StagedLinks();
    ReadyLinks();
    StagedAt();
    OnTheWay(DISK[PARTIAL := Dir(DIR_MODE)], MANIFEST);
    OnTheWay(STAGED, PARTIAL);
    OnTheWay(READY, UNITS);
    assert Parent(MANIFEST) == PARTIAL && Parent(RELEASED) == LAYOUT.versions;
    FreshFile(LAYOUT, DISK[PARTIAL := Dir(DIR_MODE)], MANIFEST, "manifest");
    Published(LAYOUT, STAGED, PARTIAL, RELEASED);
    ReadyAt(UNITS);
    DirThere(LAYOUT, READY, UNITS);
  }

  ghost const SYNC_FAILS := CALM.(failing := {LINK_SYNC})

  /** Everything answers, except that the directory of the new link cannot be synced. */
  ghost const ENV :=
      Env(_ => CALM, _ => true, _ => SYNC_FAILS, _ => true, CALM, _ => CALM, [LAUNCHER], _ => true, true, true)

  lemma Prepared()
    ensures RunSteps(LAYOUT, DISK, PREPARE, ENV.prepare, 7).ok
            && Final(DISK, RunSteps(LAYOUT, DISK, PREPARE, ENV.prepare, 7)) == READY
  {
    StagingDone();
    PublishingDone();
    var made := DISK[PARTIAL := Dir(DIR_MODE)];
    StepsNext(LAYOUT, DISK, PREPARE, ENV.prepare, 0, DISK, DISK);
    StepsNext(LAYOUT, DISK, PREPARE, ENV.prepare, 1, DISK, DISK);
    StepsNext(LAYOUT, DISK, PREPARE, ENV.prepare, 2, DISK, DISK);
    StepsNext(LAYOUT, DISK, PREPARE, ENV.prepare, 3, DISK, made);
    StepsNext(LAYOUT, DISK, PREPARE, ENV.prepare, 4, made, STAGED);
    StepsNext(LAYOUT, DISK, PREPARE, ENV.prepare, 5, STAGED, READY);
    StepsNext(LAYOUT, DISK, PREPARE, ENV.prepare, 6, READY, READY);
  }

  // ---- Its switch ----

  lemma LinkThere()
    ensures NextLink(LAYOUT.current) !in READY && IsDir(READY, DIST)
    ensures LAYOUT.current in READY && READY[LAYOUT.current].Link?
  {
    var next := NextLink(LAYOUT.current);
    Lengths();
    DiskAt();
    assert LAYOUT.current[3] == "current" && next[3] == "current.next" && |next| == 4;
    DiskHas(next);
    ReadyAt(next);
    ReadyAt(LAYOUT.current);
    ReadyAt(DIST);
  }

  lemma SyncDoesFail()
    ensures SyncFails(LAYOUT, READY, SYNC_FAILS)
  {
    LinkThere();
    ReadyLinks();
    OnTheWay(READY, LAYOUT.current);
    assert Parent(LAYOUT.current) == DIST;
  }

  ghost const STEPS := [LinkStep(LAYOUT, NEW), WriteStep(LAUNCHER, "new launcher")]

  lemma StepList()
    ensures UPGRADE_PLAN.steps == STEPS
  {
  }

  lemma FailedSwapKeeps(l: Layout, version: string, fs: FS, os: OS, p: Path)
    requires SyncFails(l, fs, os) && p != l.current && p != NextLink(l.current)
    ensures !RunStep(l, fs, LinkStep(l, version), os).ok
    ensures SameAt(fs, Final(fs, RunStep(l, fs, LinkStep(l, version), os)), p)
  {
    SwapKeeps(fs, l.current, Relative(["versions", version]), os, p);
    KeepsFinal(fs, RunSwapLink(fs, l.current, Relative(["versions", version]), os), p);
  }

  /** Where a switch stops whose swap could not sync, everything but the link is as the preparation left it. */
  lemma StoppedAt(l: Layout, version: string, ready: FS, steps: seq<Step>, os: nat -> OS, p: Path)
    requires |steps| > 0 && steps[0] == LinkStep(l, version) && SyncFails(l, ready, os(0))
    requires p != l.current && p != NextLink(l.current)
    ensures SameAt(ready, Final(ready, RunSteps(l, ready, steps, os, |steps|)), p)
  {
    FailedSwapKeeps(l, version, ready, os(0), p);
    FirstStep(l, ready, steps, os);
    RunStops(l, ready, steps, os, 1, |steps|);
  }

  lemma RewriteOne(fs: FS, p: Path, node: Node)
    requires node.File? && p != [] && IsDir(fs, Parent(p)) && TempFile(p, CALM.suffix) !in fs && !IsDir(fs, p)
    ensures Rewrite(fs, map[p := node], [p], _ => CALM, 1).ok
  {
    assert Rewrite(fs, map[p := node], [p], _ => CALM, 0) == Ran([], true);
  }

  lemma LauncherThere()
    ensures SameAt(DISK, READY, LAUNCHER) && SameAt(DISK, READY, UNITS)
    ensures TempFile(LAUNCHER, CALM.suffix) !in READY
  {
    Lengths();
    DiskAt();
    var temp := TempFile(LAUNCHER, CALM.suffix);
    assert Parent(LAUNCHER) == UNITS && temp[2] == "units" && |temp| == 4;
    assert temp[3][0] == '.' && LAUNCHER[3][0] == 'i';
    DiskHas(temp);
    ReadyAt(temp);
    ReadyAt(LAUNCHER);
    ReadyAt(UNITS);
  }

  lemma OneLauncher()
    ensures LauncherPaths(LAYOUT, STEPS) == {LAUNCHER}
  {
    assert Parent(LAUNCHER) == UNITS;
    assert STEPS[1] in STEPS;
  }

  lemma SavedLauncher()
    ensures LaunchersPresent(LAYOUT, READY, STEPS)
    ensures SavedLaunchers(LAYOUT, READY, STEPS) == map[LAUNCHER := File("old launcher", FILE_MODE)]
  {
    LauncherThere();
    DiskAt();
    OneLauncher();
    SavesOne(LAYOUT, READY, STEPS, LAUNCHER, File("old launcher", FILE_MODE));
  }

  lemma SavesOne(l: Layout, fs: FS, steps: seq<Step>, p: Path, node: Node)
    requires LauncherPaths(l, steps) == {p} && p in fs && fs[p] == node && node.File?
    ensures LaunchersPresent(l, fs, steps) && SavedLaunchers(l, fs, steps) == map[p := node]
  {
    forall s | s in steps && IsLauncher(l, s) ensures s.path == p {
      assert s.path in LauncherPaths(l, steps);
    }
  }

  lemma ComesBack()
    ensures Rewrite(Final(READY, RunSteps(LAYOUT, READY, STEPS, ENV.steps, 2)),
                    map[LAUNCHER := File("old launcher", FILE_MODE)],
                    [LAUNCHER], _ => CALM, 1).ok
  {
    var temp, next := TempFile(LAUNCHER, CALM.suffix), NextLink(LAYOUT.current);
    LauncherThere();
    DiskAt();
    Lengths();
    SyncDoesFail();
    assert next[2] == "dist" && LAYOUT.current[2] == "dist" && temp[2] == "units" && |UNITS| == 3;
    assert Parent(LAUNCHER) == UNITS;
    StoppedAt(LAYOUT, NEW, READY, STEPS, ENV.steps, UNITS);
    StoppedAt(LAYOUT, NEW, READY, STEPS, ENV.steps, LAUNCHER);
    StoppedAt(LAYOUT, NEW, READY, STEPS, ENV.steps, temp);
    RewriteOne(Final(READY, RunSteps(LAYOUT, READY, STEPS, ENV.steps, 2)), LAUNCHER, File("old launcher", FILE_MODE));
  }

  lemma UpgradeAdmissible()
    ensures Admissible(UPGRADE_PLAN, DISK, ENV)
  {
    UpgradePlanned();
    DiskAt();
    VersionsOk();
    assert Inspect(LAYOUT, DISK) == Some(OLD);
  }

  lemma UpgradeReady()
    ensures RunSteps(LAYOUT, DISK, UPGRADE_PLAN.prepare, ENV.prepare, |UPGRADE_PLAN.prepare|).ok
    ensures Ready(UPGRADE_PLAN, DISK, ENV) == READY
  {
    PrepareList();
    Prepared();
  }

  lemma UpgradeLate()
    ensures LateSwap(UPGRADE_PLAN, READY, ENV)
  {
    SyncDoesFail();
  }

  lemma UpgradeSaves()
    ensures LaunchersPresent(LAYOUT, READY, UPGRADE_PLAN.steps)
    ensures SavedFor(UPGRADE_PLAN, READY) == map[LAUNCHER := File("old launcher", FILE_MODE)]
  {
    StepList();
    SavedLauncher();
  }

  lemma UpgradeSwitch()
    ensures LaunchersPresent(LAYOUT, READY, UPGRADE_PLAN.steps) && LateSwap(UPGRADE_PLAN, READY, ENV)
    ensures LaunchersComeBack(UPGRADE_PLAN, READY, SavedFor(UPGRADE_PLAN, READY), ENV)
  {
    UpgradeLate();
    UpgradeSaves();
    StepList();
    ComesBack();
  }

  /**
   * An upgrade the planner builds, on a disk as installs leave it, that is reported as recovered with the new release
   * active.
   */
  lemma LateSwapCounterexample()
    ensures IsInstallation(UPGRADE_PLAN, UPGRADE, []) && Plannable(UPGRADE)
    ensures Apply(UPGRADE_PLAN, DISK, ENV).outcome == Recovered
    ensures var end := EndState(DISK, Apply(UPGRADE_PLAN, DISK, ENV));
            DISK[LAYOUT.current] == LinkTo(OLD) && LAYOUT.current in end && end[LAYOUT.current] == LinkTo(NEW)
  {
    UpgradePlanned();
    UpgradeAdmissible();
    UpgradeReady();
    UpgradeSwitch();
    DiskAt();
    LateSwapRecovered(UPGRADE_PLAN, UPGRADE, [], DISK, ENV);
  }

  // ---- Plans that are built and then refused ----

  ghost const LISTED := Artifact(["state", "notes"], "digest", 6, FILE_MODE)

  /** The same upgrade with one file to copy, unpacked at the given place. */
  ghost function Unpacked(root: Path): InstallInput {
    UPGRADE.(manifest := Manifest(NEW, [LISTED], "manifest"), sourceRoot := root)
  }

  lemma UnpackedAcceptable(root: Path)
    ensures Acceptable(Unpacked(root))
  {
    LayoutValid();
    VersionsOk();
  }

  lemma UnpackedValid(root: Path)
    ensures ValidManifest(Unpacked(root).manifest)
  {
    VersionsOk();
    assert LISTED.path[0] == "state" && |LISTED.path| == 2;
  }

  /**
   * Unpacked in the home directory, the file is planned to be copied out of the state directory, which the check
   * refuses.
   */
  lemma StateInsideSourceExample(plan: Plan, dirs: seq<Path>)
    ensures ValidManifest(Unpacked(["home", "user"]).manifest) && Plannable(Unpacked(["home", "user"]))
    ensures IsInstallation(plan, Unpacked(["home", "user"]), dirs) ==> !CheckPlan(plan)
  {
    var input := Unpacked(["home", "user"]);
    UnpackedAcceptable(["home", "user"]);
    UnpackedValid(["home", "user"]);
    assert LISTED in input.manifest.artifacts && input.sourceRoot + LISTED.path == STATE + ["notes"];
    StateInsideSource(input, plan, dirs);
  }

  /**
   * Unpacked in a directory named relative to the current one, the file's source is not absolute, which the check
   * refuses.
   */
  lemma RelativeSourceExample(plan: Plan, dirs: seq<Path>)
    ensures ValidManifest(Unpacked([".", "release"]).manifest) && Plannable(Unpacked([".", "release"]))
    ensures IsInstallation(plan, Unpacked([".", "release"]), dirs) ==> !CheckPlan(plan)
  {
    UnpackedAcceptable([".", "release"]);
    UnpackedValid([".", "release"]);
    RelativeSource(Unpacked([".", "release"]), plan, dirs);
  }
}
