/**
 * The planner and the checker agree, except where the state directory lies inside the unpacked source tree and where
 * that tree is named by a relative path.
 */
module PlanAgreement {
  import opened Versions
  import opened InstallPlan
  import opened InstallPlanner
  import opened InstallContainment

  // ---- Names the planner builds are clean ----

  /** Letters, digits, dots and hyphens. */
  predicate PlainText(s: string) {
    forall i | 0 <= i < |s| :: IsAlnum(s[i]) || s[i] == '.' || s[i] == '-'
  }

  lemma PlainIsClean(s: string)
    requires PlainText(s) && s != "" && s != "." && s != ".."
    ensures CleanName(s)
  {
  }

  lemma {:induction false} JoinPlain(parts: seq<string>)
    requires |parts| > 0 && forall i | 0 <= i < |parts| :: PlainText(parts[i])
    ensures PlainText(Join(parts, '.'))
  {
    if |parts| > 1 {
      JoinPlain(parts[1..]);
    }
  }

  lemma VersionIsPlain(v: string)
    requires Matches(v)
    ensures PlainText(v) && v != "" && v[0] != '.'
  {
    var (core, pre) := Cut(v, '-');
    CutJoin(v, '-');
    JoinSplit(core, '.');
    JoinSplit(pre, '.');
    JoinPlain(Split(core, '.'));
    if '-' in v {
      JoinPlain(Split(pre, '.'));
    }
    AcceptedStartsWithDigit(v);
  }

  lemma ServiceIsPlain(s: string)
    requires ServiceName(s)
    ensures PlainText(s) && s != ""
  {
    JoinSplit(s, '.');
    JoinPlain(Split(s, '.'));
    assert Join(Split(s, '.'), '.') != "";
  }

  lemma UnitNameClean(manager: Manager, service: string)
    requires ServiceName(service)
    ensures CleanName(UnitFileName(manager, service))
  {
    ServiceIsPlain(service);
    var name := UnitFileName(manager, service);
    assert |name| > 2;
    PlainIsClean(name);
  }

  lemma CleanAppend(p: Path, q: Path)
    requires Clean(p) && Clean(q)
    ensures Clean(p + q)
  {
  }

  lemma CleanBelow(p: Path, q: Path)
    requires Clean(q)
    ensures Clean(p + q) <==> Clean(p)
  {
    if Clean(p + q) {
      forall i | 0 <= i < |p| ensures CleanName(p[i]) {
        assert (p + q)[i] == p[i];
      }
    }
  }

  lemma ReleaseDirsClean(l: Layout, version: string)
    requires ValidLayout(l) && Matches(version)
    ensures Clean(l.VersionDir(version)) && Clean(PartialDir(l, version))
  {
    VersionIsPlain(version);
    PlainIsClean(version);
    PlainIsClean("." + version + ".partial");
  }

  // ---- Steps ----

  lemma ModesOk()
    ensures DIR_MODE & !DIR_MODE == 0 && FILE_MODE & !DIR_MODE == 0 && (0 as Mode) & !DIR_MODE == 0
  {
  }

  lemma ArtifactModeOk(mode: Mode)
    requires mode & !0x1FF == 0 && mode & 0x12 == 0
    ensures mode & !DIR_MODE == 0
  {
  }

  lemma StagingChecked(plan: Plan, l: Layout, m: Manifest, step: Step)
    requires plan.layout == l && ValidLayout(l) && ValidManifest(m) && step in Staging(l, m)
    ensures StepOk(plan, step)
  {
    ModesOk();
    ReleaseDirsClean(l, m.version);
    assert l.distRoot <= l.versions <= PartialDir(l, m.version) && l.versions <= l.VersionDir(m.version);
  }

  lemma PublishingChecked(plan: Plan, l: Layout, m: Manifest, step: Step)
    requires plan.layout == l && ValidLayout(l) && ValidManifest(m) && step in Publishing(l, m)
    ensures StepOk(plan, step)
  {
    ModesOk();
    ReleaseDirsClean(l, m.version);
    var partial := PartialDir(l, m.version);
    assert CleanName(MANIFEST_NAME);
    CleanAppend(partial, [MANIFEST_NAME]);
    assert l.distRoot <= partial + [MANIFEST_NAME];
    assert Parent(partial) == l.versions && Parent(l.VersionDir(m.version)) == l.versions;
  }

  lemma DirChecked(plan: Plan, l: Layout, m: Manifest, d: Path)
    requires plan.layout == l && ValidLayout(l) && ValidManifest(m)
             && d in DirSet(PartialDir(l, m.version), m.artifacts)
    ensures StepOk(plan, DirStep(d))
  {
    ModesOk();
    ReleaseDirsClean(l, m.version);
    var partial := PartialDir(l, m.version);
    var k, i :| 0 <= k < |m.artifacts| && 0 < i < |m.artifacts[k].path| && d == partial + m.artifacts[k].path[..i];
    assert m.artifacts[k] in m.artifacts;
    CleanAppend(partial, m.artifacts[k].path[..i]);
    assert l.distRoot <= d;
  }

  lemma CopyChecked(plan: Plan, l: Layout, m: Manifest, sourceRoot: Path, a: Artifact)
    requires plan.layout == l && ValidLayout(l) && ValidManifest(m) && a in m.artifacts
    ensures StepOk(plan, CopyStep(PartialDir(l, m.version), sourceRoot, a))
            <==> Clean(sourceRoot) && !Within(sourceRoot + a.path, l.stateDir)
  {
    ReleaseDirsClean(l, m.version);
    CleanAppend(PartialDir(l, m.version), a.path);
    CleanBelow(sourceRoot, a.path);
    ArtifactModeOk(a.mode);
    assert l.distRoot <= PartialDir(l, m.version) + a.path;
  }

  lemma SwitchChecked(plan: Plan, input: InstallInput, dirs: seq<Path>, step: Step)
    requires IsInstallation(plan, input, dirs) && step in plan.steps
    ensures StepOk(plan, step)
  {
    ModesOk();
    var l := plan.layout;
    if step != LinkStep(l, plan.version) {
      var i :| 0 <= i < |input.units.value|
        && step == WriteStep(UnitPath(l, input.units.value[i]), input.units.value[i].content);
      assert input.units.value[i] in input.units.value;
      LauncherChecked(plan, input.units.value[i]);
    }
  }

  lemma LauncherChecked(plan: Plan, u: Unit)
    requires ValidLayout(plan.layout) && ServiceName(u.service)
    ensures StepOk(plan, WriteStep(UnitPath(plan.layout, u), u.content))
  {
    var l := plan.layout;
    ModesOk();
    UnitNameClean(l.manager, u.service);
    CleanAppend(l.unitDir, [UnitFileName(l.manager, u.service)]);
    assert Parent(UnitPath(l, u)) == l.unitDir;
  }

  lemma UnitDirChecked(plan: Plan, l: Layout)
    requires plan.layout == l && ValidLayout(l)
    ensures StepOk(plan, DirStep(l.unitDir))
  {
    ModesOk();
  }

  /** No listed file would be copied out of the state directory. */
  predicate SourcesOutside(input: InstallInput) {
    forall a | a in input.manifest.artifacts :: !Within(input.sourceRoot + a.path, input.layout.stateDir)
  }

  /** Every listed file has a clean absolute source: the source root is one, or nothing is copied. */
  predicate SourcesClean(input: InstallInput) {
    input.manifest.artifacts != [] ==> Clean(input.sourceRoot)
  }

  lemma CopiesChecked(plan: Plan, input: InstallInput, step: Step)
    requires plan.layout == input.layout && ValidLayout(input.layout) && ValidManifest(input.manifest)
    requires SourcesClean(input) && SourcesOutside(input)
    requires step in CopySteps(PartialDir(input.layout, input.manifest.version), input.sourceRoot,
                               input.manifest.artifacts)
    ensures StepOk(plan, step)
  {
    var l, m := input.layout, input.manifest;
    var i :| 0 <= i < |m.artifacts| && step == CopyStep(PartialDir(l, m.version), input.sourceRoot, m.artifacts[i]);
    assert m.artifacts[i] in m.artifacts;
    CopyChecked(plan, l, m, input.sourceRoot, m.artifacts[i]);
  }

  lemma PrepareChecked(plan: Plan, input: InstallInput, dirs: seq<Path>, step: Step)
    requires IsInstallation(plan, input, dirs) && SourcesClean(input) && SourcesOutside(input) && step in plan.prepare
    ensures StepOk(plan, step)
  {
    var l, m := input.layout, input.manifest;
    if step in Staging(l, m) {
      StagingChecked(plan, l, m, step);
    } else if step in Publishing(l, m) {
      PublishingChecked(plan, l, m, step);
    } else if step in DirSteps(dirs) {
      DirChecked(plan, l, m, step.path);
    } else if step in CopySteps(PartialDir(l, m.version), input.sourceRoot, m.artifacts) {
      CopiesChecked(plan, input, step);
    } else {
      UnitDirChecked(plan, l);
    }
  }

  lemma ActionsChecked(plan: Plan, input: InstallInput, dirs: seq<Path>, a: ServiceAction)
    requires IsInstallation(plan, input, dirs) && (a in plan.before || a in plan.after)
    ensures ActionOk(plan.layout, a)
  {
    var units := input.units.value;
    var i :| 0 <= i < |units| && a.service == units[i].service && a.unitPath == UnitPath(plan.layout, units[i])
      && a.verb != UnknownVerb;
    assert units[i] in units;
  }

  /**
   * A planned install or upgrade passes the check before it runs exactly when no listed file's source lies in the state
   * directory and the sources are clean absolute paths: the planner refuses neither a source tree around the state
   * directory nor a relative one.
   */
  lemma PlannedPassesCheck(plan: Plan, input: InstallInput, dirs: seq<Path>)
    requires IsInstallation(plan, input, dirs)
    ensures CheckPlan(plan) <==> SourcesOutside(input) && SourcesClean(input)
  {
    var l, m := input.layout, input.manifest;
    if SourcesOutside(input) && SourcesClean(input) {
      forall a | a in plan.before || a in plan.after ensures ActionOk(l, a) {
        ActionsChecked(plan, input, dirs, a);
      }
      forall s | s in plan.prepare ensures StepOk(plan, s) {
        PrepareChecked(plan, input, dirs, s);
      }
      forall s | s in plan.steps ensures StepOk(plan, s) {
        SwitchChecked(plan, input, dirs, s);
      }
    } else {
      var a := FirstRefused(input);
      CopyChecked(plan, l, m, input.sourceRoot, a);
      CopyPlanned(plan, input, dirs, a);
    }
  }

  // ---- What any checked plan is confined to ----

  /** Where a link leads: a relative target starts at the directory of the link. */
  function LeadsTo(step: Step): Path {
    if step.target.Relative? then Parent(step.path) + step.target.path else if step.target.Absolute?
       then step.target.path else []
  }

  /** Every link a checked plan makes, hand-built ones included, leads to a clean path inside the distribution. */
  lemma LinksContained(plan: Plan, step: Step)
    requires CheckPlan(plan) && (step in plan.prepare || step in plan.steps) && step.action == SwapLink
    ensures Within(LeadsTo(step), plan.layout.distRoot) && LeadsTo(step) != plan.layout.distRoot && Clean(LeadsTo(step))
  {
    var l := plan.layout;
    assert StepOk(plan, step);
    if step.target.Relative? {
      assert Parent(step.path) == l.distRoot;
      assert step.target.path == [step.target.path[0], step.target.path[1]];
      VersionPathClean(l, step.target.path[0], step.target.path[1]);
    } else {
      assert l.distRoot <= l.currentBundle.value;
    }
  }

  lemma VersionPathClean(l: Layout, dir: string, version: string)
    requires ValidLayout(l) && (dir == "versions" || dir == "bundles") && Matches(version)
    ensures Clean(l.distRoot + [dir, version])
  {
    assert CleanName("versions") && CleanName("bundles");
    VersionIsPlain(version);
    PlainIsClean(version);
    CleanAppend(l.distRoot, [dir, version]);
  }

  /** Every service action of a checked plan names the launcher of its own service in the launcher directory. */
  lemma ServicesContained(plan: Plan, a: ServiceAction)
    requires CheckPlan(plan) && (a in plan.before || a in plan.after)
    ensures a.unitPath != [] && Parent(a.unitPath) == plan.layout.unitDir && Clean(a.unitPath)
    ensures Base(a.unitPath) == a.service + if plan.layout.manager == SystemdUser then ".service" else ".plist"
  {
    var l := plan.layout;
    assert ActionOk(l, a);
    UnitNameClean(l.manager, a.service);
    CleanAppend(l.unitDir, [UnitFileName(l.manager, a.service)]);
  }

  /**
   * Every launcher a planned upgrade rewrites has its service unloaded before and loaded after; an install only loads.
   */
  lemma LaunchersBracketed(plan: Plan, input: InstallInput, dirs: seq<Path>, s: Step)
    requires IsInstallation(plan, input, dirs) && s in plan.steps && s.action == WriteFile
    ensures exists a :: a in plan.after && a.verb == Load && a.unitPath == s.path
    ensures plan.kind == Upgrade ==> exists a :: a in plan.before && a.verb == Unload && a.unitPath == s.path
    ensures plan.kind == Install ==> plan.before == []
  {
    var l, units := plan.layout, input.units.value;
    var i :| 0 <= i < |units| && s == WriteStep(UnitPath(l, units[i]), units[i].content);
    assert plan.after[i] in plan.after && plan.after[i].unitPath == s.path;
    if plan.kind == Upgrade {
      assert plan.before[i] in plan.before && plan.before[i].unitPath == s.path;
    }
  }

  /** A planned uninstall always passes the check. */
  lemma UninstallPassesCheck(plan: Plan, l: Layout, services: seq<string>, removeState: bool)
    requires IsUninstallation(plan, l, services, removeState)
    ensures CheckPlan(plan)
  {
    forall a | a in plan.before ensures ActionOk(l, a) {
      var i :| 0 <= i < |services| && a == UnloadOf(l, services[i]);
    }
    forall k | 0 <= k < |plan.steps| ensures StepOk(plan, plan.steps[k]) {
      ModesOk();
      if k < |services| {
        UnloadChecked(plan, services[k]);
      } else if k < |services| + 2 {
        assert plan.steps[k] == [RemoveStep(RemoveFile, l.current), RemoveStep(RemoveTree, l.distRoot)][k - |services|];
      } else {
        assert plan.steps[k] == RemoveStep(RemoveTree, l.stateDir);
      }
    }
  }

  lemma UnloadChecked(plan: Plan, service: string)
    requires ValidLayout(plan.layout) && ServiceName(service)
    ensures StepOk(plan, RemoveStep(RemoveFile, UnloadOf(plan.layout, service).unitPath))
  {
    var l := plan.layout;
    ModesOk();
    UnitNameClean(l.manager, service);
    CleanAppend(l.unitDir, [UnitFileName(l.manager, service)]);
    assert Parent(UnloadOf(l, service).unitPath) == l.unitDir;
  }

  lemma FirstRefused(input: InstallInput) returns (a: Artifact)
    requires !(SourcesOutside(input) && SourcesClean(input))
    ensures a in input.manifest.artifacts
    ensures !Clean(input.sourceRoot) || Within(input.sourceRoot + a.path, input.layout.stateDir)
  {
    if SourcesOutside(input) {
      a := input.manifest.artifacts[0];
    } else {
      a :| a in input.manifest.artifacts && Within(input.sourceRoot + a.path, input.layout.stateDir);
    }
  }

  lemma CopyPlanned(plan: Plan, input: InstallInput, dirs: seq<Path>, a: Artifact)
    requires IsInstallation(plan, input, dirs) && a in input.manifest.artifacts
    ensures CopyStep(PartialDir(input.layout, input.manifest.version), input.sourceRoot, a) in plan.prepare
  {
    var l, m := input.layout, input.manifest;
    var k :| 0 <= k < |m.artifacts| && m.artifacts[k] == a;
    var copies := CopySteps(PartialDir(l, m.version), input.sourceRoot, m.artifacts);
    assert copies[k] in copies;
  }

  /**
   * A state directory beneath the source tree is planned for, and refused before it runs once a listed file lies in it.
   */
  lemma StateInsideSource(input: InstallInput, plan: Plan, dirs: seq<Path>)
    requires Acceptable(input) && input.layout.stateDir != input.sourceRoot
             && Within(input.layout.stateDir, input.sourceRoot)
    ensures Plannable(input)
    ensures IsInstallation(plan, input, dirs) && !SourcesOutside(input) ==> !CheckPlan(plan)
  {
    if Within(input.sourceRoot, input.layout.distRoot) {
      assert Within(input.layout.stateDir, input.layout.distRoot);
    }
    if IsInstallation(plan, input, dirs) {
      PlannedPassesCheck(plan, input, dirs);
    }
  }

  /** So is a source tree named by a relative path, whenever there is anything to copy. */
  lemma RelativeSource(input: InstallInput, plan: Plan, dirs: seq<Path>)
    requires Acceptable(input) && input.sourceRoot != [] && !CleanName(input.sourceRoot[0])
    ensures Plannable(input)
    ensures IsInstallation(plan, input, dirs) && input.manifest.artifacts != [] ==> !CheckPlan(plan)
  {
    assert CleanName(input.layout.distRoot[0]) && CleanName(input.layout.stateDir[0]);
    if IsInstallation(plan, input, dirs) {
      PlannedPassesCheck(plan, input, dirs);
    }
  }
}
