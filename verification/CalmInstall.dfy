/** A planned install or upgrade succeeds when nothing outside it fails. */
module CalmInstall {
  import opened Wrappers
  import opened Versions
  import opened InstallPlan
  import opened InstallPlanner
  import opened PlanAgreement
  import opened FileSystem
  import opened Installer
  import opened InstallContainment
  import opened ReleaseTree
  import opened UpgradeSafety
  import opened UpgradeRecovery
  import opened ApplyOutcomes

  predicate Calm(os: OS) {
    !os.cancelled && os.failing == {}
  }

  // ---- Ways ----

  /** Whatever lies on the way to a path, the path included, is a directory. */
  predicate Clear(fs: FS, p: Path) {
    forall i | 0 <= i <= |p| :: p[..i] in fs ==> fs[p[..i]].Dir?
  }

  lemma ClearAbove(fs: FS, p: Path, q: Path)
    requires Clear(fs, p) && q <= p
    ensures Clear(fs, q)
  {
    forall i | 0 <= i <= |q| && q[..i] in fs ensures fs[q[..i]].Dir? {
      assert q[..i] == p[..i];
    }
  }

  lemma {:induction false} ClearMakes(fs: FS, p: Path, mode: Mode)
    requires IsDir(fs, []) && Clear(fs, p)
    ensures MkdirAll(fs, p, mode).Some?
    decreases |p|
  {
    assert p[..|p|] == p;
    if p !in fs {
      ClearAbove(fs, p, Parent(p));
      ClearMakes(fs, Parent(p), mode);
    }
  }

  lemma Direct(l: Layout, fs: FS, p: Path)
    requires ValidLayout(l) && (Within(p, l.distRoot) || Within(p, l.unitDir)) && p != [] && Clear(fs, Parent(p))
    requires (p == l.distRoot || p == l.unitDir) && p in fs ==> !fs[p].Link?
    ensures !Redirected(l, fs, p)
  {
    forall i | 0 <= i < |p| && p[..i] in fs ensures fs[p[..i]].Dir? {
      assert Parent(p)[..i] == p[..i];
    }
    assert p[..|p|] == p;
    if Within(p, l.stateDir) {
      PrefixesMeet(l.stateDir, if Within(p, l.distRoot) then l.distRoot else l.unitDir, p);
    }
    if Within(p, l.distRoot) && Within(p, l.unitDir) {
      PrefixesMeet(l.distRoot, l.unitDir, p);
    }
  }

  // ---- Directories stay directories ----

  /** Between two states a directory stays one, and whatever is new is one. */
  predicate Tame(fs: FS, fs': FS, q: Path) {
    && (IsDir(fs, q) ==> IsDir(fs', q))
    && (q in fs' ==> fs'[q].Dir? || (q in fs && fs[q] == fs'[q]))
  }

  lemma {:induction false} MkdirTame(fs: FS, p: Path, mode: Mode, q: Path)
    requires MkdirAll(fs, p, mode).Some?
    ensures Tame(fs, MkdirAll(fs, p, mode).value, q)
    decreases |p|
  {
    if p !in fs {
      MkdirTame(fs, Parent(p), mode, q);
    }
  }

  lemma EnsureTame(l: Layout, fs: FS, p: Path, os: OS, q: Path)
    requires RunStep(l, fs, DirStep(p), os).ok
    ensures Tame(fs, Final(fs, RunStep(l, fs, DirStep(p), os)), q)
  {
    MkdirTame(fs, p, DIR_MODE, q);
  }

  lemma ResetTame(fs: FS, p: Path, os: OS, q: Path)
    requires RunResetDir(fs, p, DIR_MODE, os).ok && !Within(q, p)
    ensures Tame(fs, Final(fs, RunResetDir(fs, p, DIR_MODE, os)), q)
  {
    var removed := RunRemoveTree(fs, p, os);
    var mid := Final(fs, removed);
    assert SameAt(fs, mid, q);
    MkdirTame(mid, p, DIR_MODE, q);
    assert q != p;
  }

  lemma SameTame(l: Layout, fs: FS, step: Step, os: OS, q: Path)
    requires !Touches(step, q)
    ensures Tame(fs, Final(fs, RunStep(l, fs, step, os)), q) && SameAt(fs, Final(fs, RunStep(l, fs, step, os)), q)
  {
    StepKeeps(l, fs, step, os, q);
    KeepsFinal(fs, RunStep(l, fs, step, os), q);
  }

  lemma ClearTame(fs: FS, fs': FS, p: Path)
    requires Clear(fs, p) && forall i | 0 <= i <= |p| :: Tame(fs, fs', p[..i])
    ensures Clear(fs', p)
  {
  }

  // ---- Each kind of step runs ----

  predicate Inside(l: Layout, p: Path) {
    (Within(p, l.distRoot) && p != l.distRoot) || (Within(p, l.unitDir) && p != l.unitDir)
  }

  lemma InsideDirect(l: Layout, g: FS, p: Path)
    requires ValidLayout(l) && Inside(l, p) && Clear(g, Parent(p))
    ensures p != [] && !Redirected(l, g, p)
  {
    assert p != [];
    Direct(l, g, p);
  }

  lemma RunsDir(l: Layout, g: FS, p: Path, os: OS)
    requires ValidLayout(l) && Calm(os) && IsDir(g, []) && Clear(g, p) && p != []
    requires Within(p, l.distRoot) || p == l.unitDir
    ensures RunStep(l, g, DirStep(p), os).ok
  {
    assert p[..|p|] == p;
    ClearAbove(g, p, Parent(p));
    Direct(l, g, p);
    ClearMakes(g, p, DIR_MODE);
  }

  lemma RunsRemove(l: Layout, g: FS, p: Path, os: OS)
    requires ValidLayout(l) && Calm(os) && Inside(l, p) && Clear(g, Parent(p)) && (p in g ==> g[p].Dir?)
    ensures RunStep(l, g, RemoveStep(RemoveTree, p), os).ok
  {
    InsideDirect(l, g, p);
  }

  lemma RunsReset(l: Layout, g: FS, p: Path, os: OS)
    requires ValidLayout(l) && Calm(os) && Inside(l, p) && Clear(g, Parent(p)) && IsDir(g, Parent(p))
             && (p in g ==> g[p].Dir?)
    ensures RunStep(l, g, Step(ResetDir, p, [], "", 0, DIR_MODE, NoTarget, ""), os).ok
  {
    InsideDirect(l, g, p);
    var mid := Final(g, RunRemoveTree(g, p, os));
    assert !Within(Parent(p), p) && IsDir(mid, Parent(p)) && p !in mid;
    assert MkdirAll(mid, Parent(p), DIR_MODE) == Some(mid);
  }

  lemma RunsCopy(l: Layout, g: FS, step: Step, os: OS)
    requires ValidLayout(l) && Calm(os) && step.action == CopyFile && Inside(l, step.path)
             && Clear(g, Parent(step.path))
    requires step.path !in g && IsDir(g, Parent(step.path))
    requires step.source in g && g[step.source].File?
    requires |g[step.source].content| == step.size && Sha256(g[step.source].content) == step.digest
    ensures RunStep(l, g, step, os).ok
  {
    InsideDirect(l, g, step.path);
  }

  lemma RunsWrite(l: Layout, g: FS, p: Path, content: string, os: OS)
    requires ValidLayout(l) && Calm(os) && Inside(l, p) && Clear(g, Parent(p)) && IsDir(g, Parent(p)) && !IsDir(g, p)
    requires p != [] ==> TempFile(p, os.suffix) !in g
    ensures RunStep(l, g, WriteStep(p, content), os).ok
  {
    InsideDirect(l, g, p);
  }

  lemma RunsPublish(l: Layout, g: FS, source: Path, to: Path, os: OS)
    requires ValidLayout(l) && Calm(os) && Inside(l, source) && Clear(g, Parent(source)) && CanRename(g, source, to)
    ensures RunStep(l, g, Step(PublishDir, source, [], "", 0, 0, Absolute(to), ""), os).ok
  {
    InsideDirect(l, g, source);
  }

  lemma RunsLink(l: Layout, g: FS, version: string, os: OS)
    requires ValidLayout(l) && Calm(os) && Clear(g, l.distRoot) && IsDir(g, l.distRoot)
    requires l.current in g ==> g[l.current].Link?
    requires NextLink(l.current) !in g
    ensures RunStep(l, g, LinkStep(l, version), os).ok
  {
    assert Parent(l.current) == l.distRoot;
    InsideDirect(l, g, l.current);
  }

  // ---- The disk an install starts from ----

  /** The name is not the first component of a listed file. */
  predicate Unlisted(m: Manifest, name: string) {
    forall a | a in m.artifacts :: a.path != [] ==> a.path[0] != name
  }

  /** Every listed file is in the source tree as listed, out of the way of the staging. */
  ghost predicate SourcesThere(input: InstallInput, fs: FS) {
    forall a | a in input.manifest.artifacts ::
      var source := input.sourceRoot + a.path;
      && source in fs && fs[source].File? && |fs[source].content| == a.size && Sha256(fs[source].content) == a.digest
      && !StagingArea(input.layout, input.manifest.version, source)
  }

  /** The ways to the distribution and the launchers are free, and what an interrupted install left is a directory. */
  ghost predicate WaysFree(l: Layout, version: string, fs: FS) {
    && WellFormed(fs) && Clear(fs, l.versions) && Clear(fs, l.unitDir)
    && (l.VersionDir(version) in fs ==> fs[l.VersionDir(version)].Dir?)
    && (PartialDir(l, version) in fs ==> fs[PartialDir(l, version)].Dir?)
  }

  // ---- What the preparation keeps ----

  /** What every state of the preparation has in common with the disk it started from. */
  ghost predicate Steady(l: Layout, version: string, fs: FS, k: nat, g: FS) {
    && IsDir(g, []) && Clear(g, l.versions) && Clear(g, l.unitDir)
    && (k >= 1 ==> IsDir(g, l.distRoot)) && (k >= 2 ==> IsDir(g, l.versions))
    && (k <= 2 && l.VersionDir(version) in g ==> g[l.VersionDir(version)].Dir?)
    && (k <= 3 && PartialDir(l, version) in g ==> g[PartialDir(l, version)].Dir?)
    && forall p | !StagingArea(l, version, p) :: SameAt(fs, g, p)
  }

  lemma NotBelow(l: Layout, version: string, q: Path)
    requires ValidLayout(l) && (q <= l.versions || q <= l.unitDir)
    ensures !Within(q, l.VersionDir(version)) && !Within(q, PartialDir(l, version))
  {
    assert l.distRoot <= l.versions <= l.VersionDir(version) && l.distRoot <= l.versions <= PartialDir(l, version);
  }

  /** The steps of a preparation that make directories. */
  lemma MakesDirs(plan: Plan, input: InstallInput, dirs: seq<Path>, step: Step)
    requires IsInstallation(plan, input, dirs) && step in plan.prepare
    ensures step.action == EnsureDir ==> step == DirStep(step.path)
    ensures step.action == ResetDir ==> step == Staging(input.layout, input.manifest)[3]
  {
    var l, m := input.layout, input.manifest;
    if step in DirSteps(dirs) {
      var i :| 0 <= i < |dirs| && step == DirStep(dirs[i]);
    }
  }

  /** All others stay in the release and staging directories. */
  lemma StaysBelow(plan: Plan, input: InstallInput, dirs: seq<Path>, step: Step, q: Path)
    requires IsInstallation(plan, input, dirs) && step in plan.prepare && step.action != EnsureDir
             && step.action != ResetDir
    requires Touches(step, q)
    ensures Within(q, plan.layout.VersionDir(plan.version)) || Within(q, PartialDir(plan.layout, plan.version))
  {
    var l, m := input.layout, input.manifest;
    if step in CopySteps(PartialDir(l, m.version), input.sourceRoot, m.artifacts) {
      var i :| 0 <= i < |m.artifacts| && step == CopyStep(PartialDir(l, m.version), input.sourceRoot, m.artifacts[i]);
    } else if step == Publishing(l, m)[0] {
      WritesInside(PartialDir(l, m.version), MANIFEST_NAME, m.text, q);
    } else {
      assert step == Staging(l, m)[2] || step == Publishing(l, m)[1];
    }
  }

  lemma PrefixTame(plan: Plan, input: InstallInput, dirs: seq<Path>, step: Step, g: FS, os: OS, q: Path)
    requires IsInstallation(plan, input, dirs) && step in plan.prepare && RunStep(plan.layout, g, step, os).ok
    requires q <= plan.layout.versions || q <= plan.layout.unitDir
    ensures Tame(g, Final(g, RunStep(plan.layout, g, step, os)), q)
  {
    NotBelow(plan.layout, plan.version, q);
    MakesDirs(plan, input, dirs, step);
    if step.action == EnsureDir {
      EnsureTame(plan.layout, g, step.path, os, q);
    } else if step.action == ResetDir {
      ResetTame(g, step.path, os, q);
    } else {
      if Touches(step, q) {
        StaysBelow(plan, input, dirs, step, q);
      }
      SameTame(plan.layout, g, step, os, q);
    }
  }

  lemma WaysTame(l: Layout, g: FS, g': FS)
    requires ValidLayout(l) && IsDir(g, []) && Clear(g, l.versions) && Clear(g, l.unitDir)
    requires forall q | q <= l.versions || q <= l.unitDir :: Tame(g, g', q)
    ensures IsDir(g', []) && Clear(g', l.versions) && Clear(g', l.unitDir)
    ensures IsDir(g, l.distRoot) ==> IsDir(g', l.distRoot)
    ensures IsDir(g, l.versions) ==> IsDir(g', l.versions)
  {
    assert [] <= l.versions && l.distRoot <= l.versions;
    assert Tame(g, g', []) && Tame(g, g', l.distRoot) && Tame(g, g', l.versions);
    forall i | 0 <= i <= |l.versions| ensures Tame(g, g', l.versions[..i]) {
      assert l.versions[..i] <= l.versions;
    }
    forall i | 0 <= i <= |l.unitDir| ensures Tame(g, g', l.unitDir[..i]) {
      assert l.unitDir[..i] <= l.unitDir;
    }
    ClearTame(g, g', l.versions);
    ClearTame(g, g', l.unitDir);
  }

  lemma WaysKept(plan: Plan, input: InstallInput, dirs: seq<Path>, step: Step, g: FS, os: OS, g': FS)
    requires IsInstallation(plan, input, dirs) && step in plan.prepare && RunStep(plan.layout, g, step, os).ok
    requires g' == Final(g, RunStep(plan.layout, g, step, os))
    requires IsDir(g, []) && Clear(g, plan.layout.versions) && Clear(g, plan.layout.unitDir)
    ensures IsDir(g', []) && Clear(g', plan.layout.versions) && Clear(g', plan.layout.unitDir)
    ensures IsDir(g, plan.layout.distRoot) ==> IsDir(g', plan.layout.distRoot)
    ensures IsDir(g, plan.layout.versions) ==> IsDir(g', plan.layout.versions)
  {
    forall q | q <= plan.layout.versions || q <= plan.layout.unitDir ensures Tame(g, g', q) {
      PrefixTame(plan, input, dirs, step, g, os, q);
    }
    WaysTame(plan.layout, g, g');
  }

  lemma OutsideKept(plan: Plan, input: InstallInput, dirs: seq<Path>, step: Step, g: FS, os: OS, p: Path)
    requires IsInstallation(plan, input, dirs) && step in plan.prepare && !StagingArea(plan.layout, plan.version, p)
    ensures SameAt(g, Final(g, RunStep(plan.layout, g, step, os)), p)
  {
    if Touches(step, p) {
      PrepareTouches(plan, input, dirs, step, p);
    }
    SameTame(plan.layout, g, step, os, p);
  }

  /** The first steps leave the release and staging directories directories, if they are there. */
  lemma LeftoversKept(l: Layout, m: Manifest, k: nat, g: FS, os: OS)
    requires ValidLayout(l) && k < 3 && RunStep(l, g, Staging(l, m)[k], os).ok
    ensures var g' := Final(g, RunStep(l, g, Staging(l, m)[k], os));
            && (k < 2 && l.VersionDir(m.version) in g' ==>
                  g'[l.VersionDir(m.version)].Dir?
                    || (l.VersionDir(m.version) in g && g[l.VersionDir(m.version)] == g'[l.VersionDir(m.version)]))
            && (PartialDir(l, m.version) in g' ==>
                  g'[PartialDir(l, m.version)].Dir?
                    || (PartialDir(l, m.version) in g && g[PartialDir(l, m.version)] == g'[PartialDir(l, m.version)]))
            && (k == 0 ==> IsDir(g', l.distRoot)) && (k == 1 ==> IsDir(g', l.versions))
  {
    var final, partial := l.VersionDir(m.version), PartialDir(l, m.version);
    if k < 2 {
      var p := Staging(l, m)[k].path;
      EnsureTame(l, g, p, os, final);
      EnsureTame(l, g, p, os, partial);
      MadeDir(l, g, p, os);
    } else {
      NamesDiffer(m.version);
      assert final[|l.versions|] == m.version && partial[|l.versions|] == "." + m.version + ".partial";
      SameTame(l, g, Staging(l, m)[k], os, partial);
    }
  }

  lemma MadeDir(l: Layout, g: FS, p: Path, os: OS)
    requires RunStep(l, g, DirStep(p), os).ok
    ensures IsDir(Final(g, RunStep(l, g, DirStep(p), os)), p)
  {
    var made := MkdirAll(g, p, DIR_MODE);
    assert IsDir(made.value, p);
  }

  lemma SteadyStep(plan: Plan, input: InstallInput, dirs: seq<Path>, fs: FS, k: nat, g: FS, os: OS)
    requires IsInstallation(plan, input, dirs) && k < |plan.prepare| && Steady(plan.layout, plan.version, fs, k, g)
    requires RunStep(plan.layout, g, plan.prepare[k], os).ok
    ensures Steady(plan.layout, plan.version, fs, k + 1, Final(g, RunStep(plan.layout, g, plan.prepare[k], os)))
  {
    var l, m := input.layout, input.manifest;
    var g' := Final(g, RunStep(l, g, plan.prepare[k], os));
    WaysKept(plan, input, dirs, plan.prepare[k], g, os, g');
    if k < 3 {
      PrepareAt(l, m, input.sourceRoot, dirs, k);
      LeftoversKept(l, m, k, g, os);
    }
    forall p | !StagingArea(l, plan.version, p) ensures SameAt(fs, g', p) {
      OutsideKept(plan, input, dirs, plan.prepare[k], g, os, p);
    }
  }

  // ---- Every step of the preparation runs ----

  /** The way to a path in the staging directory is free when the staged tree has only directories on it. */
  lemma ClearStaged(l: Layout, version: string, g: FS, tree: map<Path, Node>, rel: Path)
    requires Clear(g, l.versions) && HasTree(g, PartialDir(l, version), tree)
    requires forall i | 0 <= i <= |rel| :: rel[..i] in tree ==> tree[rel[..i]].Dir?
    ensures Clear(g, PartialDir(l, version) + rel)
  {
    var partial := PartialDir(l, version);
    var p := partial + rel;
    forall i | 0 <= i <= |p| && p[..i] in g ensures g[p[..i]].Dir? {
      if i <= |l.versions| {
        assert p[..i] == l.versions[..i];
      } else {
        assert p[..i] == partial + rel[..i - |partial|];
      }
    }
  }

  lemma EarlyRuns(l: Layout, m: Manifest, fs: FS, k: nat, g: FS, os: OS)
    requires ValidLayout(l) && k < 4 && Calm(os) && Steady(l, m.version, fs, k, g)
    ensures RunStep(l, g, Staging(l, m)[k], os).ok
  {
    assert l.distRoot <= l.versions
           && Parent(l.VersionDir(m.version)) == l.versions == Parent(PartialDir(l, m.version));
    ClearAbove(g, l.versions, l.distRoot);
    if k < 2 {
      RunsDir(l, g, Staging(l, m)[k].path, os);
    } else if k == 2 {
      RunsRemove(l, g, l.VersionDir(m.version), os);
    } else {
      RunsReset(l, g, PartialDir(l, m.version), os);
    }
  }

  lemma DirRuns(l: Layout, version: string, fs: FS, k: nat, g: FS, dirs: set<Path>, rel: Path, os: OS)
    requires ValidLayout(l) && Calm(os) && Steady(l, version, fs, k, g) && Staged(g, l, version, DirTree(dirs))
    ensures RunStep(l, g, DirStep(PartialDir(l, version) + rel), os).ok
  {
    ClearStaged(l, version, g, DirTree(dirs), rel);
    assert l.distRoot <= PartialDir(l, version) + rel;
    RunsDir(l, g, PartialDir(l, version) + rel, os);
  }

  /** Before its turn a listed file is not staged, and everything above it is staged as a directory. */
  lemma NotCopiedYet(m: Manifest, j: nat)
    requires ValidManifest(m) && j < |m.artifacts|
    ensures var tree, path := FileTree(RelDirs(m.artifacts), m.artifacts, j), m.artifacts[j].path;
            && path !in tree
            && forall i | 0 <= i < |path| :: path[..i] in tree && tree[path[..i]].Dir?
  {
    var path := m.artifacts[j].path;
    FileTreeHolds(RelDirs(m.artifacts), m.artifacts, j);
    if path in RelDirs(m.artifacts) {
      DirIsNoFile(m, path);
    }
    forall i | 0 <= i < |path| ensures path[..i] in RelDirs(m.artifacts)
      && forall n | 0 <= n < j :: m.artifacts[n].path != path[..i] {
      assert path[..i] in RelDirs(m.artifacts);
      DirIsNoFile(m, path[..i]);
    }
  }

  lemma CopyRunsAt(l: Layout, version: string, g: FS, tree: map<Path, Node>, sourceRoot: Path, a: Artifact, os: OS)
    requires ValidLayout(l) && Calm(os) && Clear(g, l.versions) && HasTree(g, PartialDir(l, version), tree)
    requires a.path != [] && a.path !in tree
    requires forall i | 0 <= i < |a.path| :: a.path[..i] in tree && tree[a.path[..i]].Dir?
    requires sourceRoot + a.path in g && g[sourceRoot + a.path].File?
    requires |g[sourceRoot + a.path].content| == a.size && Sha256(g[sourceRoot + a.path].content) == a.digest
    ensures RunStep(l, g, CopyStep(PartialDir(l, version), sourceRoot, a), os).ok
  {
    var partial, above := PartialDir(l, version), Parent(a.path);
    var step := CopyStep(partial, sourceRoot, a);
    assert Parent(step.path) == partial + above && above == a.path[..|a.path| - 1];
    forall i | 0 <= i <= |above| ensures above[..i] in tree && tree[above[..i]].Dir? {
      assert above[..i] == a.path[..i];
    }
    assert above[..|above|] == above;
    ClearStaged(l, version, g, tree, above);
    assert l.distRoot <= partial <= step.path;
    RunsCopy(l, g, step, os);
  }

  lemma SourceThere(input: InstallInput, fs: FS, k: nat, g: FS, a: Artifact)
    requires a in input.manifest.artifacts && SourcesThere(input, fs)
             && Steady(input.layout, input.manifest.version, fs, k, g)
    ensures var source := input.sourceRoot + a.path;
            source in g && g[source].File? && |g[source].content| == a.size && Sha256(g[source].content) == a.digest
  {
    assert SameAt(fs, g, input.sourceRoot + a.path);
  }

  lemma CopyRuns(input: InstallInput, fs: FS, k: nat, g: FS, j: nat, tree: map<Path, Node>, os: OS)
    requires ValidLayout(input.layout) && ValidManifest(input.manifest) && j < |input.manifest.artifacts| && Calm(os)
    requires Steady(input.layout, input.manifest.version, fs, k, g) && SourcesThere(input, fs)
    requires tree == FileTree(RelDirs(input.manifest.artifacts), input.manifest.artifacts, j)
    requires HasTree(g, PartialDir(input.layout, input.manifest.version), tree)
    ensures RunStep(input.layout, g, CopyStep(PartialDir(input.layout, input.manifest.version), input.sourceRoot,
                                              input.manifest.artifacts[j]), os).ok
  {
    var m := input.manifest;
    var a := m.artifacts[j];
    assert a in m.artifacts;
    NotCopiedYet(m, j);
    SourceThere(input, fs, k, g, a);
    CopyRunsAt(input.layout, m.version, g, tree, input.sourceRoot, a, os);
  }

  lemma UnlistedNoDir(m: Manifest, name: string)
    requires ValidManifest(m) && Unlisted(m, name)
    ensures [name] !in RelDirs(m.artifacts) && forall k | 0 <= k < |m.artifacts| :: m.artifacts[k].path != [name]
  {
    forall k | 0 <= k < |m.artifacts| ensures m.artifacts[k].path != [] && m.artifacts[k].path[0] != name {
      assert m.artifacts[k] in m.artifacts;
    }
    forall k, i | 0 <= k < |m.artifacts| && 0 <= i < |m.artifacts[k].path| ensures m.artifacts[k].path[..i] != [name] {
      assert i > 0 ==> m.artifacts[k].path[..i][0] == m.artifacts[k].path[0];
    }
  }

  lemma UnlistedNotStaged(m: Manifest, name: string)
    requires ValidManifest(m) && Unlisted(m, name)
    ensures [name] !in FileTree(RelDirs(m.artifacts), m.artifacts, |m.artifacts|)
  {
    UnlistedNoDir(m, name);
    FileTreeHolds(RelDirs(m.artifacts), m.artifacts, |m.artifacts|);
  }

  lemma RootStaged(m: Manifest)
    requires ValidManifest(m)
    ensures var tree := FileTree(RelDirs(m.artifacts), m.artifacts, |m.artifacts|); [] in tree && tree[[]].Dir?
  {
    FileTreeHolds(RelDirs(m.artifacts), m.artifacts, |m.artifacts|);
    DirIsNoFile(m, []);
  }

  lemma ManifestRunsAt(l: Layout, m: Manifest, g: FS, tree: map<Path, Node>, os: OS)
    requires ValidLayout(l) && Calm(os) && Clear(g, l.versions) && HasTree(g, PartialDir(l, m.version), tree)
    requires [] in tree && tree[[]].Dir? && [MANIFEST_NAME] !in tree && ["." + MANIFEST_NAME + "." + os.suffix] !in tree
    ensures RunStep(l, g, Publishing(l, m)[0], os).ok
  {
    var partial := PartialDir(l, m.version);
    var p := partial + [MANIFEST_NAME];
    assert partial + [] == partial;
    ClearStaged(l, m.version, g, tree, []);
    assert Parent(p) == partial && Base(p) == MANIFEST_NAME;
    assert TempFile(p, os.suffix) == partial + ["." + MANIFEST_NAME + "." + os.suffix];
    assert l.distRoot <= p;
    RunsWrite(l, g, p, m.text, os);
  }

  lemma ManifestRuns(l: Layout, m: Manifest, fs: FS, k: nat, g: FS, tree: map<Path, Node>, os: OS)
    requires ValidLayout(l) && ValidManifest(m) && Calm(os) && Steady(l, m.version, fs, k, g)
    requires tree == FileTree(RelDirs(m.artifacts), m.artifacts, |m.artifacts|)
             && HasTree(g, PartialDir(l, m.version), tree)
    requires Unlisted(m, MANIFEST_NAME) && Unlisted(m, "." + MANIFEST_NAME + "." + os.suffix)
    ensures RunStep(l, g, Publishing(l, m)[0], os).ok
  {
    RootStaged(m);
    UnlistedNotStaged(m, MANIFEST_NAME);
    UnlistedNotStaged(m, "." + MANIFEST_NAME + "." + os.suffix);
    ManifestRunsAt(l, m, g, tree, os);
  }

  lemma PublishRuns(l: Layout, m: Manifest, fs: FS, k: nat, g: FS, os: OS)
    requires ValidLayout(l) && Calm(os) && k >= 2 && Steady(l, m.version, fs, k, g)
    requires Staged(g, l, m.version, ManifestTree(m)) && [] in ManifestTree(m)
    ensures RunStep(l, g, Publishing(l, m)[1], os).ok
  {
    var partial, final := PartialDir(l, m.version), l.VersionDir(m.version);
    assert partial + [] == partial && partial in g;
    assert Parent(partial) == l.versions == Parent(final);
    NamesDiffer(m.version);
    assert final[|l.versions|] == m.version && partial[|l.versions|] == "." + m.version + ".partial";
    assert Within(final, final) && final !in g;
    RunsPublish(l, g, partial, final, os);
  }

  /** The outside does not fail, and its temporary names are free. */
  ghost predicate CalmPrepare(m: Manifest, os: nat -> OS) {
    Unlisted(m, MANIFEST_NAME) && forall k :: Calm(os(k)) && Unlisted(m, "." + MANIFEST_NAME + "." + os(k).suffix)
  }

  lemma DirMiddle(l: Layout, m: Manifest, dirs: seq<Path>, fs: FS, k: nat, g: FS, os: OS)
    requires ValidLayout(l) && Calm(os) && AllBelow(PartialDir(l, m.version), dirs) && 4 <= k < 4 + |dirs|
    requires PhaseOk(l, m, dirs, k, g) && Steady(l, m.version, fs, k, g)
    ensures RunStep(l, g, DirStep(dirs[k - 4]), os).ok
  {
    var partial := PartialDir(l, m.version);
    var rel := dirs[k - 4][|partial|..];
    assert dirs[k - 4] == partial + rel;
    DirRuns(l, m.version, fs, k, g, DirsUpTo(partial, dirs, k - 4), rel, os);
  }

  lemma FilesStaged(l: Layout, m: Manifest, dirs: seq<Path>, k: nat, g: FS, tree: map<Path, Node>)
    requires AllBelow(PartialDir(l, m.version), dirs) && Lists(dirs, DirSet(PartialDir(l, m.version), m.artifacts))
    requires 4 + |dirs| <= k <= 4 + |dirs| + |m.artifacts| && PhaseOk(l, m, dirs, k, g)
    requires tree == FileTree(RelDirs(m.artifacts), m.artifacts, k - 4 - |dirs|)
    ensures HasTree(g, PartialDir(l, m.version), tree)
  {
    DirsDone(l, m, dirs);
  }

  lemma CopyMiddle(input: InstallInput, dirs: seq<Path>, fs: FS, k: nat, g: FS, os: OS)
    requires ValidLayout(input.layout) && ValidManifest(input.manifest) && Calm(os) && SourcesThere(input, fs)
    requires AllBelow(PartialDir(input.layout, input.manifest.version), dirs)
    requires Lists(dirs, DirSet(PartialDir(input.layout, input.manifest.version), input.manifest.artifacts))
    requires 4 + |dirs| <= k < 4 + |dirs| + |input.manifest.artifacts|
    requires PhaseOk(input.layout, input.manifest, dirs, k, g) && Steady(input.layout, input.manifest.version, fs, k, g)
    ensures RunStep(input.layout, g, CopyStep(PartialDir(input.layout, input.manifest.version), input.sourceRoot,
                                              input.manifest.artifacts[k - 4 - |dirs|]), os).ok
  {
    var m, j := input.manifest, k - 4 - |dirs|;
    var tree := FileTree(RelDirs(m.artifacts), m.artifacts, j);
    FilesStaged(input.layout, m, dirs, k, g, tree);
    CopyRuns(input, fs, k, g, j, tree, os);
  }

  lemma LateRuns(l: Layout, m: Manifest, dirs: seq<Path>, fs: FS, k: nat, g: FS, os: OS)
    requires ValidLayout(l) && ValidManifest(m) && Calm(os)
    requires AllBelow(PartialDir(l, m.version), dirs) && Lists(dirs, DirSet(PartialDir(l, m.version), m.artifacts))
    requires 4 + |dirs| + |m.artifacts| <= k < 6 + |dirs| + |m.artifacts|
    requires PhaseOk(l, m, dirs, k, g) && Steady(l, m.version, fs, k, g)
    requires Unlisted(m, MANIFEST_NAME) && Unlisted(m, "." + MANIFEST_NAME + "." + os.suffix)
    ensures RunStep(l, g, Publishing(l, m)[k - 4 - |dirs| - |m.artifacts|], os).ok
  {
    if k == 4 + |dirs| + |m.artifacts| {
      var tree := FileTree(RelDirs(m.artifacts), m.artifacts, |m.artifacts|);
      FilesStaged(l, m, dirs, k, g, tree);
      ManifestRuns(l, m, fs, k, g, tree, os);
    } else {
      ManifestTreeContents(m);
      assert [] in RelDirs(m.artifacts) && [] != [MANIFEST_NAME];
      PublishRuns(l, m, fs, k, g, os);
    }
  }

  lemma ReleaseStepRuns(input: InstallInput, dirs: seq<Path>, fs: FS, k: nat, g: FS, os: OS, steps: seq<Step>)
    requires ValidLayout(input.layout) && ValidManifest(input.manifest) && Calm(os) && SourcesThere(input, fs)
    requires AllBelow(PartialDir(input.layout, input.manifest.version), dirs)
    requires Lists(dirs, DirSet(PartialDir(input.layout, input.manifest.version), input.manifest.artifacts))
    requires Unlisted(input.manifest, MANIFEST_NAME) && Unlisted(input.manifest, "." + MANIFEST_NAME + "." + os.suffix)
    requires PhaseOk(input.layout, input.manifest, dirs, k, g) && Steady(input.layout, input.manifest.version, fs, k, g)
    requires steps == ReleaseSteps(input.layout, input.manifest, input.sourceRoot, dirs) && k < |steps|
    ensures RunStep(input.layout, g, steps[k], os).ok
  {
    var l, m := input.layout, input.manifest;
    PrepareAt(l, m, input.sourceRoot, dirs, k);
    if k < 4 {
      EarlyRuns(l, m, fs, k, g, os);
    } else if k < 4 + |dirs| {
      DirMiddle(l, m, dirs, fs, k, g, os);
    } else if k < 4 + |dirs| + |m.artifacts| {
      CopyMiddle(input, dirs, fs, k, g, os);
    } else {
      LateRuns(l, m, dirs, fs, k, g, os);
    }
  }

  lemma PrepareStepRuns(plan: Plan, input: InstallInput, dirs: seq<Path>, fs: FS, k: nat, g: FS, os: OS)
    requires IsInstallation(plan, input, dirs) && k < |plan.prepare| && Calm(os) && SourcesThere(input, fs)
    requires AllBelow(PartialDir(input.layout, input.manifest.version), dirs)
    requires Unlisted(input.manifest, MANIFEST_NAME) && Unlisted(input.manifest, "." + MANIFEST_NAME + "." + os.suffix)
    requires PhaseOk(input.layout, input.manifest, dirs, k, g) && Steady(input.layout, input.manifest.version, fs, k, g)
    ensures RunStep(plan.layout, g, plan.prepare[k], os).ok
  {
    var l := input.layout;
    var steps := ReleaseSteps(l, input.manifest, input.sourceRoot, dirs);
    if k < |steps| {
      assert plan.prepare[k] == steps[k];
      ReleaseStepRuns(input, dirs, fs, k, g, os, steps);
    } else {
      assert plan.prepare[k] == DirStep(l.unitDir);
      UnitDirNotRoot(l);
      RunsDir(l, g, l.unitDir, os);
    }
  }

  /** Induction over a run whose every step succeeds from what the ones before it leave. */
  lemma {:induction false} RunsThrough(l: Layout, fs: FS, steps: seq<Step>, os: nat -> OS, n: nat,
                                       inv: (nat, FS) -> bool)
    requires n <= |steps| && inv(0, fs)
    requires forall k: nat, g | k < n && inv(k, g) ::
               RunStep(l, g, steps[k], os(k)).ok && inv(k + 1, Final(g, RunStep(l, g, steps[k], os(k))))
    ensures RunSteps(l, fs, steps, os, n).ok && inv(n, Final(fs, RunSteps(l, fs, steps, os, n)))
  {
    if n > 0 {
      RunsThrough(l, fs, steps, os, n - 1, inv);
      RunNext(l, fs, steps, os, n - 1);
      assert inv((n - 1) + 1, Final(fs, RunSteps(l, fs, steps, os, n)));
    }
  }

  lemma RunNext(l: Layout, fs: FS, steps: seq<Step>, os: nat -> OS, n: nat)
    requires n < |steps| && RunSteps(l, fs, steps, os, n).ok
    ensures var g := Final(fs, RunSteps(l, fs, steps, os, n)); var x := RunStep(l, g, steps[n], os(n));
            RunSteps(l, fs, steps, os, n + 1).ok == x.ok && Final(fs, RunSteps(l, fs, steps, os, n + 1)) == Final(g, x)
  {
    var r := RunSteps(l, fs, steps, os, n);
    FinalAppend(fs, r, RunStep(l, Final(fs, r), steps[n], os(n)));
  }

  lemma FinalAppend(fs: FS, r: Ran, x: Ran)
    ensures Final(fs, Ran(r.states + x.states, x.ok)) == Final(Final(fs, r), x)
  {
  }

  /** A calm preparation runs to its end and leaves the launcher directory ready. */
  lemma CalmPrepares(plan: Plan, input: InstallInput, dirs: seq<Path>, fs: FS, os: nat -> OS)
    requires IsInstallation(plan, input, dirs) && WaysFree(plan.layout, plan.version, fs) && SourcesThere(input, fs)
    requires CalmPrepare(input.manifest, os)
    ensures RunSteps(plan.layout, fs, plan.prepare, os, |plan.prepare|).ok
    ensures var ready := Final(fs, RunSteps(plan.layout, fs, plan.prepare, os, |plan.prepare|));
            Steady(plan.layout, plan.version, fs, |plan.prepare|, ready) && IsDir(ready, plan.layout.unitDir)
  {
    var l, m := input.layout, input.manifest;
    ListedBelow(PartialDir(l, m.version), m.artifacts, dirs);
    var last := |plan.prepare| - 1;
    var inv := (k: nat, g: FS) => PhaseOk(l, m, dirs, k, g) && Steady(l, m.version, fs, k, g)
      && (k > last ==> IsDir(g, l.unitDir));
    forall k: nat, g | k < |plan.prepare| && inv(k, g)
      ensures RunStep(l, g, plan.prepare[k], os(k)).ok && inv(k + 1, Final(g, RunStep(l, g, plan.prepare[k], os(k))))
    {
      PrepareStepRuns(plan, input, dirs, fs, k, g, os(k));
      PhaseStep(plan, input, dirs, k, g, os(k));
      SteadyStep(plan, input, dirs, fs, k, g, os(k));
      if k == last {
        MadeDir(l, g, l.unitDir, os(k));
      }
    }
    RunsThrough(l, fs, plan.prepare, os, |plan.prepare|, inv);
  }

  // ---- The switch ----

  /** The link is one or free, and launchers and their temporary names are in nobody's way. */
  ghost predicate LaunchersFree(l: Layout, units: seq<Unit>, fs: FS, os: nat -> OS)
    requires l.current != []
  {
    && (l.current in fs ==> fs[l.current].Link?) && NextLink(l.current) !in fs
    && (forall u | u in units :: !IsDir(fs, UnitPath(l, u)))
    && (forall u, k: nat | u in units :: TempFile(UnitPath(l, u), os(k).suffix) !in fs)
  }

  /** What every state of the switch keeps. */
  ghost predicate SwitchSteady(l: Layout, units: seq<Unit>, os: nat -> OS, g: FS) {
    && Clear(g, l.unitDir) && IsDir(g, l.unitDir)
    && (forall u | u in units :: !IsDir(g, UnitPath(l, u)))
    && (forall u, k: nat | u in units :: TempFile(UnitPath(l, u), os(k).suffix) !in g)
  }

  lemma UnitNames(l: Layout, u: Unit, v: Unit, suffix: string)
    requires ServiceName(u.service) && ServiceName(v.service)
    ensures Parent(UnitPath(l, u)) == l.unitDir && UnitPath(l, u) != []
            && Base(UnitPath(l, u)) == UnitFileName(l.manager, u.service)
    ensures Parent(TempFile(UnitPath(l, u), suffix)) == l.unitDir
    ensures TempFile(UnitPath(l, u), suffix) != UnitPath(l, v)
  {
    var p, q := TempFile(UnitPath(l, u), suffix), UnitPath(l, v);
    JoinSplit(v.service, '.');
    assert Identifier(Split(v.service, '.')[0]) && v.service[0] == Split(v.service, '.')[0][0];
    assert q[|l.unitDir|][0] == v.service[0] && p[|l.unitDir|][0] == '.';
  }

  lemma LinkKeepsUnits(l: Layout, version: string, units: seq<Unit>, os: nat -> OS, g: FS, k: nat)
    requires ValidLayout(l) && ValidUnits(units) && SwitchSteady(l, units, os, g)
    ensures SwitchSteady(l, units, os, Final(g, RunStep(l, g, LinkStep(l, version), os(k))))
  {
    var step, g' := LinkStep(l, version), Final(g, RunStep(l, g, LinkStep(l, version), os(k)));
    CurrentApart(l);
    forall q | Within(q, l.unitDir) || q <= l.unitDir ensures SameAt(g, g', q) {
      ApartFromLink(l, q);
      SameTame(l, g, step, os(k), q);
    }
    forall u | u in units ensures Within(UnitPath(l, u), l.unitDir) {
    }
    forall u, j: nat | u in units ensures Within(TempFile(UnitPath(l, u), os(j).suffix), l.unitDir) {
      UnitNames(l, u, u, os(j).suffix);
    }
    UnitsSame(l, units, os, g, g');
  }

  lemma ApartFromLink(l: Layout, q: Path)
    requires ValidLayout(l) && (Within(q, l.unitDir) || q <= l.unitDir)
    ensures q != l.current && q != NextLink(l.current)
  {
    assert l.distRoot <= l.current && Parent(l.current) == l.distRoot && l.distRoot <= NextLink(l.current);
    if q == l.current || q == NextLink(l.current) {
      if Within(q, l.unitDir) {
        PrefixesMeet(l.unitDir, l.distRoot, q);
      }
    }
  }

  lemma UnitsSame(l: Layout, units: seq<Unit>, os: nat -> OS, g: FS, g': FS)
    requires SwitchSteady(l, units, os, g) && forall q | Within(q, l.unitDir) || q <= l.unitDir :: SameAt(g, g', q)
    requires forall u | u in units :: Within(UnitPath(l, u), l.unitDir)
    requires forall u, j: nat | u in units :: Within(TempFile(UnitPath(l, u), os(j).suffix), l.unitDir)
    ensures SwitchSteady(l, units, os, g')
  {
    forall i | 0 <= i <= |l.unitDir| ensures SameAt(g, g', l.unitDir[..i]) {
      assert l.unitDir[..i] <= l.unitDir;
    }
    assert SameAt(g, g', l.unitDir);
    forall u | u in units ensures !IsDir(g', UnitPath(l, u)) {
      assert SameAt(g, g', UnitPath(l, u));
    }
    forall u, j: nat | u in units ensures TempFile(UnitPath(l, u), os(j).suffix) !in g' {
      assert SameAt(g, g', TempFile(UnitPath(l, u), os(j).suffix));
    }
  }

  lemma WriteKeepsUnits(l: Layout, units: seq<Unit>, os: nat -> OS, g: FS, v: Unit, content: string)
    requires ValidLayout(l) && ValidUnits(units) && SwitchSteady(l, units, os, g) && v in units
    ensures SwitchSteady(l, units, os, g[UnitPath(l, v) := File(content, FILE_MODE)])
  {
    var g' := g[UnitPath(l, v) := File(content, FILE_MODE)];
    assert |UnitPath(l, v)| > |l.unitDir|;
    forall u, j: nat | u in units ensures TempFile(UnitPath(l, u), os(j).suffix) !in g' {
      UnitNames(l, u, v, os(j).suffix);
    }
  }

  lemma WriteUnitRuns(l: Layout, units: seq<Unit>, os: nat -> OS, g: FS, u: Unit, k: nat)
    requires ValidLayout(l) && ValidUnits(units) && SwitchSteady(l, units, os, g) && u in units && Calm(os(k))
    ensures RunStep(l, g, WriteStep(UnitPath(l, u), u.content), os(k)).ok
  {
    UnitNames(l, u, u, os(k).suffix);
    assert Within(UnitPath(l, u), l.unitDir);
    RunsWrite(l, g, UnitPath(l, u), u.content, os(k));
  }

  /** The link swap and the launcher writes, in order. */
  ghost predicate SwitchSteps(l: Layout, version: string, units: seq<Unit>, steps: seq<Step>) {
    steps == [LinkStep(l, version)] + UnitSteps(l, units)
  }

  lemma SwitchStepRuns(l: Layout, version: string, units: seq<Unit>, os: nat -> OS, k: nat, g: FS)
    requires ValidLayout(l) && ValidUnits(units) && 0 < k <= |units| && Calm(os(k)) && SwitchSteady(l, units, os, g)
    ensures var step := WriteStep(UnitPath(l, units[k - 1]), units[k - 1].content);
            RunStep(l, g, step, os(k)).ok && SwitchSteady(l, units, os, Final(g, RunStep(l, g, step, os(k))))
  {
    var u := units[k - 1];
    WriteUnitRuns(l, units, os, g, u, k);
    WriteStepOk(l, g, UnitPath(l, u), u.content, os(k));
    WriteKeepsUnits(l, units, os, g, u, u.content);
  }

  /** The link can be swapped. */
  ghost predicate LinkFree(l: Layout, g: FS) {
    && Clear(g, l.distRoot) && IsDir(g, l.distRoot)
    && l.current != [] && NextLink(l.current) !in g && (l.current in g ==> g[l.current].Link?)
  }

  lemma EachRuns(l: Layout, version: string, units: seq<Unit>, steps: seq<Step>, os: nat -> OS, k: nat, g: FS)
    requires ValidLayout(l) && ValidUnits(units) && SwitchSteps(l, version, units, steps) && k < |steps| && Calm(os(k))
    requires SwitchSteady(l, units, os, g) && (k == 0 ==> LinkFree(l, g))
    ensures RunStep(l, g, steps[k], os(k)).ok && SwitchSteady(l, units, os, Final(g, RunStep(l, g, steps[k], os(k))))
  {
    if k == 0 {
      assert steps[0] == LinkStep(l, version);
      RunsLink(l, g, version, os(0));
      LinkKeepsUnits(l, version, units, os, g, 0);
    } else {
      assert steps[k] == WriteStep(UnitPath(l, units[k - 1]), units[k - 1].content);
      SwitchStepRuns(l, version, units, os, k, g);
    }
  }

  /** A calm switch runs to its end. */
  lemma CalmSwitches(l: Layout, version: string, units: seq<Unit>, steps: seq<Step>, ready: FS, os: nat -> OS)
    requires ValidLayout(l) && ValidUnits(units) && SwitchSteps(l, version, units, steps) && forall k :: Calm(os(k))
    requires LinkFree(l, ready) && SwitchSteady(l, units, os, ready)
    ensures RunSteps(l, ready, steps, os, |steps|).ok
  {
    var inv := (k: nat, g: FS) => SwitchSteady(l, units, os, g) && (k == 0 ==> LinkFree(l, g));
    forall k: nat, g | k < |steps| && inv(k, g)
      ensures RunStep(l, g, steps[k], os(k)).ok && inv(k + 1, Final(g, RunStep(l, g, steps[k], os(k))))
    {
      EachRuns(l, version, units, steps, os, k, g);
    }
    RunsThrough(l, ready, steps, os, |steps|, inv);
  }

  // ---- The whole application ----

  lemma BesideLink(l: Layout, version: string)
    requires ValidLayout(l)
    ensures l.current != [] && !StagingArea(l, version, l.current) && !StagingArea(l, version, NextLink(l.current))
  {
    var next, final, partial := NextLink(l.current), l.VersionDir(version), PartialDir(l, version);
    assert l.distRoot <= l.versions && l.distRoot <= l.current && Parent(l.current) == l.distRoot && l.distRoot <= next;
    assert l.current[|l.distRoot|] == "current" && next[|l.distRoot|] == "current" + ".next";
    assert l.versions[|l.distRoot|] == final[|l.distRoot|] == partial[|l.distRoot|] == "versions";
    assert "current"[0] == 'c' && ("current" + ".next")[0] == 'c' && "versions"[0] == 'v';
  }

  lemma UnitsOutside(l: Layout, version: string, p: Path)
    requires ValidLayout(l) && p != [] && Parent(p) == l.unitDir
    ensures !StagingArea(l, version, p)
  {
    ReliedIsSafe(l, version, p);
  }

  /** What the preparation leaves is ready for the switch. */
  lemma ReadyToSwitch(l: Layout, version: string, units: seq<Unit>, fs: FS, k: nat, ready: FS, os: nat -> OS)
    requires ValidLayout(l) && ValidUnits(units) && k >= 1 && Steady(l, version, fs, k, ready)
             && IsDir(ready, l.unitDir)
    requires LaunchersFree(l, units, fs, os)
    ensures LinkFree(l, ready) && SwitchSteady(l, units, os, ready)
  {
    BesideLink(l, version);
    assert SameAt(fs, ready, l.current) && SameAt(fs, ready, NextLink(l.current));
    ClearAbove(ready, l.versions, l.distRoot);
    forall u | u in units ensures !IsDir(ready, UnitPath(l, u)) {
      UnitNames(l, u, u, "");
      UnitsOutside(l, version, UnitPath(l, u));
      assert SameAt(fs, ready, UnitPath(l, u));
    }
    forall u, j: nat | u in units ensures TempFile(UnitPath(l, u), os(j).suffix) !in ready {
      UnitNames(l, u, u, os(j).suffix);
      UnitsOutside(l, version, TempFile(UnitPath(l, u), os(j).suffix));
      assert SameAt(fs, ready, TempFile(UnitPath(l, u), os(j).suffix));
    }
  }

  /** Nothing outside fails: the operating system, and the service manager, which is there. */
  ghost predicate CalmEnv(m: Manifest, env: Env) {
    && CalmPrepare(m, env.prepare) && (forall k :: Calm(env.steps(k)))
    && (forall k :: env.unload(k) && env.load(k)) && env.manager
  }

  /** An upgrade finds every launcher it will rewrite. */
  ghost predicate LaunchersThere(plan: Plan, units: seq<Unit>, fs: FS) {
    plan.kind == Upgrade ==>
      forall u | u in units :: UnitPath(plan.layout, u) in fs && fs[UnitPath(plan.layout, u)].File?
  }

  lemma LaunchersStay(plan: Plan, input: InstallInput, dirs: seq<Path>, fs: FS, ready: FS)
    requires IsInstallation(plan, input, dirs) && LaunchersThere(plan, input.units.value, fs) && Restores(plan)
    requires Steady(plan.layout, plan.version, fs, |plan.prepare|, ready)
    ensures forall s | s in plan.steps && s.action == WriteFile && Parent(s.path) == plan.layout.unitDir ::
              s.path in ready && ready[s.path].File?
  {
    var l, units := plan.layout, input.units.value;
    forall s | s in plan.steps && s.action == WriteFile ensures s.path in ready && ready[s.path].File? {
      var i :| 0 <= i < |units| && s == WriteStep(UnitPath(l, units[i]), units[i].content);
      assert units[i] in units;
      UnitNames(l, units[i], units[i], "");
      UnitsOutside(l, plan.version, s.path);
      assert SameAt(fs, ready, s.path);
    }
  }

  /**
   * A planned install or upgrade from a clean source outside the state directory succeeds whenever nothing outside it
   * fails: the files of the release are where the manifest says, the ways to the distribution and the launchers are
   * free, and the release it was planned over is active.
   */
  lemma CalmInstallSucceeds(plan: Plan, input: InstallInput, dirs: seq<Path>, fs: FS, env: Env)
    requires IsInstallation(plan, input, dirs) && SourcesOutside(input) && SourcesClean(input)
             && Inspect(plan.layout, fs) == Some(plan.previous)
    requires WaysFree(plan.layout, plan.version, fs) && SourcesThere(input, fs) && CalmEnv(input.manifest, env)
    requires plan.layout.current != [] && LaunchersFree(plan.layout, input.units.value, fs, env.steps)
    requires LaunchersThere(plan, input.units.value, fs)
    ensures Apply(plan, fs, env).outcome == Succeeded
  {
    PlannedPassesCheck(plan, input, dirs);
    CalmReaches(plan, input, dirs, fs, env);
    var ready := Final(fs, PrepareRun(plan, fs, env));
    CalmSwitches(plan.layout, plan.version, input.units.value, plan.steps, ready, env.steps);
    SucceedsExactly(plan, fs, env);
  }

  lemma CalmReaches(plan: Plan, input: InstallInput, dirs: seq<Path>, fs: FS, env: Env)
    requires IsInstallation(plan, input, dirs) && CheckPlan(plan) && Inspect(plan.layout, fs) == Some(plan.previous)
    requires WaysFree(plan.layout, plan.version, fs) && SourcesThere(input, fs) && CalmEnv(input.manifest, env)
    requires plan.layout.current != [] && LaunchersFree(plan.layout, input.units.value, fs, env.steps)
    requires LaunchersThere(plan, input.units.value, fs)
    ensures ReachesSwitch(plan, fs, env)
    ensures var ready := Final(fs, PrepareRun(plan, fs, env));
            LinkFree(plan.layout, ready) && SwitchSteady(plan.layout, input.units.value, env.steps, ready)
  {
    var ready := Final(fs, PrepareRun(plan, fs, env));
    CalmPrepares(plan, input, dirs, fs, env.prepare);
    if Restores(plan) {
      LaunchersStay(plan, input, dirs, fs, ready);
    }
    ReadyToSwitch(plan.layout, plan.version, input.units.value, fs, |plan.prepare|, ready, env.steps);
  }

  // ---- Uninstalling ----

  /** A state with nothing but what the disk had. */
  ghost predicate Left(fs: FS, g: FS) {
    forall p | p in g :: p in fs && g[p] == fs[p]
  }

  /** Nothing to remove is of the wrong kind, and no layout directory is a link. */
  ghost predicate Removable(l: Layout, services: seq<string>, fs: FS) {
    && (forall s | s in services :: !IsDir(fs, UnloadOf(l, s).unitPath)) && !IsDir(fs, l.current)
    && (l.distRoot in fs ==> fs[l.distRoot].Dir?) && (l.stateDir in fs ==> fs[l.stateDir].Dir?)
    && (l.unitDir in fs ==> !fs[l.unitDir].Link?)
  }

  lemma ShortWay(l: Layout, g: FS, p: Path, root: Path)
    requires ValidLayout(l) && (root == l.distRoot || root == l.unitDir || root == l.stateDir)
    requires (p == root || Parent(p) == root) && p != [] && (root in g ==> !g[root].Link?)
    ensures !Redirected(l, g, p)
  {
    assert root <= p;
    assert p[..|root|] == root;
    if Within(p, l.stateDir) && root != l.stateDir {
      PrefixesMeet(l.stateDir, root, p);
    }
    if Within(p, l.unitDir) && root != l.unitDir {
      PrefixesMeet(l.unitDir, root, p);
    }
  }

  lemma RemovesRun(l: Layout, services: seq<string>, fs: FS, g: FS, step: Step, os: OS)
    requires ValidLayout(l) && Removable(l, services, fs) && Left(fs, g) && Calm(os)
    requires || (exists s :: s in services && step == RemoveStep(RemoveFile, UnloadOf(l, s).unitPath))
             || step == RemoveStep(RemoveFile, l.current) || step == RemoveStep(RemoveTree, l.distRoot)
             || step == RemoveStep(RemoveTree, l.stateDir)
    ensures RunStep(l, g, step, os).ok && Left(fs, Final(g, RunStep(l, g, step, os)))
  {
    if step == RemoveStep(RemoveTree, l.distRoot) {
      ShortWay(l, g, l.distRoot, l.distRoot);
    } else if step == RemoveStep(RemoveTree, l.stateDir) {
      ShortWay(l, g, l.stateDir, l.stateDir);
    } else if step == RemoveStep(RemoveFile, l.current) {
      assert Parent(l.current) == l.distRoot;
      ShortWay(l, g, l.current, l.distRoot);
    } else {
      var s :| s in services && step == RemoveStep(RemoveFile, UnloadOf(l, s).unitPath);
      assert Parent(step.path) == l.unitDir;
      ShortWay(l, g, step.path, l.unitDir);
    }
  }

  /** A planned uninstall succeeds whenever nothing outside it fails. */
  lemma CalmUninstallSucceeds(plan: Plan, l: Layout, services: seq<string>, removeState: bool, fs: FS, env: Env)
    requires IsUninstallation(plan, l, services, removeState) && Removable(l, services, fs)
    requires env.manager && (forall k :: env.unload(k)) && (forall k :: Calm(env.steps(k)))
    ensures Apply(plan, fs, env).outcome == Succeeded
  {
    UninstallPassesCheck(plan, l, services, removeState);
    var inv := (k: nat, g: FS) => Left(fs, g);
    forall k: nat, g | k < |plan.steps| && inv(k, g)
      ensures RunStep(l, g, plan.steps[k], env.steps(k)).ok
              && inv(k + 1, Final(g, RunStep(l, g, plan.steps[k], env.steps(k))))
    {
      UninstallStep(plan, l, services, removeState, k);
      RemovesRun(l, services, fs, g, plan.steps[k], env.steps(k));
    }
    RunsThrough(l, fs, plan.steps, env.steps, |plan.steps|, inv);
    SucceedsExactly(plan, fs, env);
  }

  lemma UninstallStep(plan: Plan, l: Layout, services: seq<string>, removeState: bool, k: nat)
    requires IsUninstallation(plan, l, services, removeState) && k < |plan.steps|
    ensures var step := plan.steps[k];
            || (exists s :: s in services && step == RemoveStep(RemoveFile, UnloadOf(l, s).unitPath))
            || step == RemoveStep(RemoveFile, l.current) || step == RemoveStep(RemoveTree, l.distRoot)
            || step == RemoveStep(RemoveTree, l.stateDir)
  {
    if k < |services| {
      assert services[k] in services && plan.steps[k] == RemoveStep(RemoveFile, UnloadOf(l, services[k]).unitPath);
    }
  }
}
