/** Crash consistency and recovery of installs and upgrades, over every state on disk. */
module UpgradeSafety {
  import opened Wrappers
  import opened Versions
  import opened InstallPlan
  import opened InstallPlanner
  import opened FileSystem
  import opened Installer
  import opened InstallContainment
  import opened ReleaseTree

  // ---- The preparation leaves what is in use alone ----

  lemma PrepareKeeps(plan: Plan, input: InstallInput, dirs: seq<Path>, fs: FS, os: nat -> OS, p: Path)
    requires IsInstallation(plan, input, dirs) && Relied(plan.layout, plan.version, p)
    ensures Keeps(fs, RunSteps(plan.layout, fs, plan.prepare, os, |plan.prepare|).states, p)
  {
    ReliedIsSafe(plan.layout, plan.version, p);
    forall i | 0 <= i < |plan.prepare| ensures !Touches(plan.prepare[i], p) {
      if Touches(plan.prepare[i], p) {
        PrepareTouches(plan, input, dirs, plan.prepare[i], p);
      }
    }
    StepsKeep(plan.layout, fs, plan.prepare, os, |plan.prepare|, p);
  }

  /** What runs while the services are down: one link swap, then launcher writes. */
  ghost predicate SwitchShape(plan: Plan) {
    && ValidLayout(plan.layout)
    && |plan.steps| > 0 && plan.steps[0] == LinkStep(plan.layout, plan.version)
    && forall i | 0 < i < |plan.steps| :: IsLauncher(plan.layout, plan.steps[i])
  }

  lemma InstallationShape(plan: Plan, input: InstallInput, dirs: seq<Path>)
    requires IsInstallation(plan, input, dirs)
    ensures SwitchShape(plan)
  {
    var l, units := input.layout, input.units.value;
    forall i | 0 < i < |plan.steps| ensures IsLauncher(l, plan.steps[i]) {
      assert plan.steps[i] == WriteStep(UnitPath(l, units[i - 1]), units[i - 1].content);
      assert Parent(UnitPath(l, units[i - 1])) == l.unitDir;
    }
  }

  lemma UnitDirNotRoot(l: Layout)
    requires ValidLayout(l)
    ensures l.unitDir != []
  {
    assert !Within(l.distRoot, l.unitDir);
  }

  /** After the preparation only the link, its sibling and the launcher directory change. */
  lemma SwitchTouches(plan: Plan, step: Step, p: Path)
    requires SwitchShape(plan) && step in plan.steps && Touches(step, p)
    ensures (step == LinkStep(plan.layout, plan.version)
             && (p == plan.layout.current || p == NextLink(plan.layout.current)))
            || (IsLauncher(plan.layout, step) && p != [] && Parent(p) == plan.layout.unitDir)
  {
    var l := plan.layout;
    UnitDirNotRoot(l);
    if step != LinkStep(l, plan.version) && p != step.path {
      var suffix :| p == TempFile(step.path, suffix);
      assert Parent(p) == Parent(step.path);
    }
  }

  /** Paths inside some release directory. */
  ghost predicate InReleases(l: Layout, p: Path) {
    |p| > |l.versions| && l.versions <= p
  }

  lemma ReleasesApart(l: Layout, p: Path)
    requires ValidLayout(l) && InReleases(l, p)
    ensures p != [] && l.current != [] && p != l.current && p != NextLink(l.current) && Parent(p) != l.unitDir
  {
    assert Parent(l.current) == l.distRoot;
    assert p[|l.distRoot|] == l.versions[|l.distRoot|] == "versions";
    assert Base(l.current) == "current";
    assert NextLink(l.current)[|l.distRoot|] == "current.next";
    assert l.distRoot <= Parent(p);
  }

  lemma SwitchSparesReleases(plan: Plan, p: Path)
    requires SwitchShape(plan) && InReleases(plan.layout, p)
    ensures forall s | s in plan.steps :: !Touches(s, p)
  {
    ReleasesApart(plan.layout, p);
    forall s | s in plan.steps ensures !Touches(s, p) {
      if Touches(s, p) {
        SwitchTouches(plan, s, p);
      }
    }
  }

  /**
   * Every other release on disk, the previous one among them, stays byte for byte as it was, whatever fails and
   * wherever it stops.
   */
  lemma OtherReleasesKept(plan: Plan, input: InstallInput, dirs: seq<Path>, fs: FS, env: Env, other: string, p: Path)
    requires IsInstallation(plan, input, dirs)
    requires Matches(other) && other != plan.version && Within(p, plan.layout.VersionDir(other))
    ensures Keeps(fs, Apply(plan, fs, env).states, p)
  {
    var l := plan.layout;
    InstallationShape(plan, input, dirs);
    ReleasesApart(l, p);
    SwitchSparesReleases(plan, p);
    ReliedIsSafe(l, plan.version, p);
    forall s | s in plan.prepare ensures !Touches(s, p) {
      if Touches(s, p) {
        PrepareTouches(plan, input, dirs, s, p);
      }
    }
    ApplyKeeps(plan, fs, env, p);
  }

  // ---- The active link ----

  function LinkTo(version: string): Node {
    Link(Relative(["versions", version]))
  }

  /** The link is as it was, or names the new release. */
  ghost predicate OldOrNew(l: Layout, version: string, fs: FS, g: FS) {
    SameAt(fs, g, l.current) || (l.current in g && g[l.current] == LinkTo(version))
  }

  /** Induction over every state of a run, failed steps included. */
  lemma {:induction false} Throughout(l: Layout, fs: FS, steps: seq<Step>, os: nat -> OS, n: nat, inv: FS -> bool)
    requires n <= |steps| && inv(fs)
    requires forall k, g, i | 0 <= k < n && inv(g) && 0 <= i < |RunStep(l, g, steps[k], os(k)).states| ::
               inv(RunStep(l, g, steps[k], os(k)).states[i])
    ensures forall i | 0 <= i < |RunSteps(l, fs, steps, os, n).states| :: inv(RunSteps(l, fs, steps, os, n).states[i])
  {
    if n > 0 {
      Throughout(l, fs, steps, os, n - 1, inv);
      var r := RunSteps(l, fs, steps, os, n - 1);
      if r.ok {
        var g := Final(fs, r);
        assert inv(g);
        var x := RunStep(l, g, steps[n - 1], os(n - 1));
        assert forall i | 0 <= i < |x.states| :: inv(x.states[i]);
      }
    }
  }

  lemma SwapStates(fs: FS, link: Path, target: Target, os: OS, i: nat)
    requires i < |RunSwapLink(fs, link, target, os).states|
    ensures var g := RunSwapLink(fs, link, target, os).states[i];
            SameAt(fs, g, link) || (link in g && g[link] == Link(target))
  {
    var next := NextLink(link);
    assert next[|next| - 1] == link[|link| - 1] + ".next";
    assert |next[|next| - 1]| != |link[|link| - 1]|;
    assert next != link;
  }

  lemma CurrentApart(l: Layout)
    requires ValidLayout(l)
    ensures l.current != [] && Parent(l.current) != l.unitDir && Parent(l.current) == l.distRoot
  {
    assert Parent(l.current) == l.distRoot;
  }

  lemma SwitchStepLink(plan: Plan, fs: FS, g: FS, k: nat, os: OS, i: nat)
    requires SwitchShape(plan) && k < |plan.steps| && OldOrNew(plan.layout, plan.version, fs, g)
    requires i < |RunStep(plan.layout, g, plan.steps[k], os).states|
    ensures OldOrNew(plan.layout, plan.version, fs, RunStep(plan.layout, g, plan.steps[k], os).states[i])
  {
    var l := plan.layout;
    CurrentApart(l);
    if plan.steps[k] == LinkStep(l, plan.version) {
      SwapStates(g, l.current, Relative(["versions", plan.version]), os, i);
    } else {
      if Touches(plan.steps[k], l.current) {
        SwitchTouches(plan, plan.steps[k], l.current);
      }
      RunStepFrame(l, g, plan.steps[k], os, l.current, i);
    }
  }

  lemma SwitchLink(plan: Plan, fs: FS, ready: FS, os: nat -> OS, i: nat)
    requires SwitchShape(plan) && OldOrNew(plan.layout, plan.version, fs, ready)
    requires i < |RunSteps(plan.layout, ready, plan.steps, os, |plan.steps|).states|
    ensures OldOrNew(plan.layout, plan.version, fs,
                     RunSteps(plan.layout, ready, plan.steps, os, |plan.steps|).states[i])
  {
    var l := plan.layout;
    var inv := (g: FS) => OldOrNew(l, plan.version, fs, g);
    forall k, g, j | 0 <= k < |plan.steps| && inv(g) && 0 <= j < |RunStep(l, g, plan.steps[k], os(k)).states|
      ensures inv(RunStep(l, g, plan.steps[k], os(k)).states[j])
    {
      SwitchStepLink(plan, fs, g, k, os(k), j);
    }
    Throughout(l, ready, plan.steps, os, |plan.steps|, inv);
    assert inv(RunSteps(l, ready, plan.steps, os, |plan.steps|).states[i]);
  }

  /** An upgrade found the link naming the previous release. */
  lemma PreviousLink(plan: Plan, fs: FS)
    requires Inspect(plan.layout, fs) == Some(plan.previous) && plan.previous != ""
    ensures plan.layout.current in fs && fs[plan.layout.current] == LinkTo(plan.previous)
  {
    match fs[plan.layout.current] {
      case Link(Relative(t)) => assert t == ["versions", plan.previous];
      case _ =>
    }
  }

  lemma RestoreLink(plan: Plan, fs: FS, g: FS, saved: map<Path, Node>, moved: bool, env: Env, i: nat)
    requires ValidLayout(plan.layout) && OldOrNew(plan.layout, plan.version, fs, g)
    requires moved ==> plan.layout.current in fs && fs[plan.layout.current] == LinkTo(plan.previous)
    requires forall q | q in saved :: Parent(q) == plan.layout.unitDir
    requires i < |Restore(plan, g, saved, moved, env).states|
    ensures OldOrNew(plan.layout, plan.version, fs, Restore(plan, g, saved, moved, env).states[i])
  {
    var l := plan.layout;
    CurrentApart(l);
    var target := Relative(["versions", plan.previous]);
    var back := Relink(plan, g, moved, env);
    forall j | 0 <= j < |back.states| ensures OldOrNew(l, plan.version, fs, back.states[j]) {
      SwapStates(g, l.current, target, env.relink, j);
    }
    if back.ok && i >= |back.states| {
      var mid := Final(g, back);
      RewriteKeeps(mid, saved, env.order, env.rewrite, |env.order|, l.current);
      assert SameAt(mid, Rewrite(mid, saved, env.order, env.rewrite, |env.order|).states[i - |back.states|], l.current);
    }
  }

  // ---- Crash consistency ----

  /** The link is as it was before the application, or it names the new release and that release is complete. */
  ghost predicate Consistent(l: Layout, m: Manifest, fs: FS, g: FS) {
    || SameAt(fs, g, l.current)
    || (l.current in g && g[l.current] == LinkTo(m.version) && HasTree(g, l.VersionDir(m.version), ManifestTree(m)))
  }

  lemma StoppedLink(plan: Plan, fs: FS, ready: FS, os: nat -> OS)
    requires SwitchShape(plan) && OldOrNew(plan.layout, plan.version, fs, ready)
    ensures OldOrNew(plan.layout, plan.version, fs,
                     Final(ready, RunSteps(plan.layout, ready, plan.steps, os, |plan.steps|)))
  {
    var n := |RunSteps(plan.layout, ready, plan.steps, os, |plan.steps|).states|;
    if n > 0 {
      SwitchLink(plan, fs, ready, os, n - 1);
    }
  }

  /** The states of a switch are those of its steps, then those of its recovery. */
  lemma SwitchStates(plan: Plan, ready: FS, saved: map<Path, Node>, env: Env, ran: Ran, i: nat)
    requires ran == RunSteps(plan.layout, ready, plan.steps, env.steps, |plan.steps|)
             && i < |Switch(plan, ready, saved, env).states|
    ensures i < |ran.states| ==> Switch(plan, ready, saved, env).states[i] == ran.states[i]
    ensures var restored :=
            Restore(plan, Final(ready, ran), saved, LinkMoved(plan.layout, ready, plan.steps, env.steps, |plan.steps|),
                    env);
            i >= |ran.states| ==>
              && plan.kind == Upgrade && i - |ran.states| < |restored.states|
              && Switch(plan, ready, saved, env).states[i] == restored.states[i - |ran.states|]
  {
  }

  lemma SwitchStateLink(plan: Plan, fs: FS, ready: FS, saved: map<Path, Node>, env: Env, i: nat)
    requires SwitchShape(plan) && OldOrNew(plan.layout, plan.version, fs, ready)
    requires plan.kind == Upgrade ==> plan.layout.current in fs && fs[plan.layout.current] == LinkTo(plan.previous)
    requires forall q | q in saved :: Parent(q) == plan.layout.unitDir
    requires i < |Switch(plan, ready, saved, env).states|
    ensures OldOrNew(plan.layout, plan.version, fs, Switch(plan, ready, saved, env).states[i])
  {
    var ran := RunSteps(plan.layout, ready, plan.steps, env.steps, |plan.steps|);
    SwitchStates(plan, ready, saved, env, ran, i);
    if i < |ran.states| {
      SwitchLink(plan, fs, ready, env.steps, i);
    } else {
      StoppedLink(plan, fs, ready, env.steps);
      RestoreLink(plan, fs, Final(ready, ran), saved,
                  LinkMoved(plan.layout, ready, plan.steps, env.steps, |plan.steps|), env, i - |ran.states|);
    }
  }

  lemma ProceedLink(plan: Plan, fs: FS, ready: FS, saved: map<Path, Node>, env: Env, i: nat)
    requires SwitchShape(plan) && OldOrNew(plan.layout, plan.version, fs, ready)
    requires plan.kind == Upgrade ==> plan.layout.current in fs && fs[plan.layout.current] == LinkTo(plan.previous)
    requires forall q | q in saved :: Parent(q) == plan.layout.unitDir
    requires i < |Proceed(plan, ready, saved, env).states|
    ensures OldOrNew(plan.layout, plan.version, fs, Proceed(plan, ready, saved, env).states[i])
  {
    if AllDo(env.unload, |plan.before|) {
      SwitchStateLink(plan, fs, ready, saved, env, i);
    } else {
      RestoreLink(plan, fs, ready, saved, false, env, i);
    }
  }

  lemma ProceedTree(plan: Plan, ready: FS, saved: map<Path, Node>, env: Env, i: nat, tree: map<Path, Node>)
    requires SwitchShape(plan) && i < |Proceed(plan, ready, saved, env).states|
    requires HasTree(ready, plan.layout.VersionDir(plan.version), tree)
    requires forall q | q in saved :: Parent(q) == plan.layout.unitDir
    ensures HasTree(Proceed(plan, ready, saved, env).states[i], plan.layout.VersionDir(plan.version), tree)
  {
    var l := plan.layout;
    var g := Proceed(plan, ready, saved, env).states[i];
    forall r: Path ensures SameAt(ready, g, l.VersionDir(plan.version) + r) {
      var p := l.VersionDir(plan.version) + r;
      assert InReleases(l, p);
      ReleasesApart(l, p);
      SwitchSparesReleases(plan, p);
      ProceedKeeps(plan, ready, saved, env, p);
    }
  }

  /** What the preparation hands to the switch when it succeeds. */
  lemma PreparedState(plan: Plan, input: InstallInput, dirs: seq<Path>, fs: FS, env: Env, prepared: Ran)
    requires IsInstallation(plan, input, dirs) && WellFormed(fs)
    requires prepared == RunSteps(plan.layout, fs, plan.prepare, env.prepare, |plan.prepare|)
    ensures Keeps(fs, prepared.states, plan.layout.current) && SameAt(fs, Final(fs, prepared), plan.layout.current)
    ensures prepared.ok ==>
            HasTree(Final(fs, prepared), plan.layout.VersionDir(plan.version), ManifestTree(input.manifest))
  {
    PrepareKeeps(plan, input, dirs, fs, env.prepare, plan.layout.current);
    KeepsFinal(fs, prepared, plan.layout.current);
    if prepared.ok {
      PreparedRelease(plan, input, dirs, fs, env.prepare);
    }
  }

  lemma UpgradeLink(plan: Plan, input: InstallInput, dirs: seq<Path>, fs: FS, env: Env)
    requires IsInstallation(plan, input, dirs) && Admissible(plan, fs, env) && plan.kind == Upgrade
    ensures plan.layout.current in fs && fs[plan.layout.current] == LinkTo(plan.previous)
  {
    PreviousLink(plan, fs);
  }

  lemma ConsistentAfter(plan: Plan, input: InstallInput, dirs: seq<Path>, fs: FS, ready: FS, env: Env, k: nat)
    requires IsInstallation(plan, input, dirs) && Admissible(plan, fs, env) && SameAt(fs, ready, plan.layout.current)
    requires HasTree(ready, plan.layout.VersionDir(plan.version), ManifestTree(input.manifest))
    requires k < |Proceed(plan, ready, SavedFor(plan, ready), env).states|
    ensures Consistent(plan.layout, input.manifest, fs, Proceed(plan, ready, SavedFor(plan, ready), env).states[k])
  {
    SavedAreLaunchers(plan, ready);
    if plan.kind == Upgrade {
      UpgradeLink(plan, input, dirs, fs, env);
    }
    InstallationShape(plan, input, dirs);
    ProceedLink(plan, fs, ready, SavedFor(plan, ready), env, k);
    ProceedTree(plan, ready, SavedFor(plan, ready), env, k, ManifestTree(input.manifest));
  }

  /** A state of an application belongs to the preparation, or to what follows from the state it left ready. */
  lemma CrashPoint(plan: Plan, input: InstallInput, dirs: seq<Path>, fs: FS, env: Env, i: nat)
    returns (early: bool, ready: FS, k: nat)
    requires IsInstallation(plan, input, dirs) && WellFormed(fs) && i < |Apply(plan, fs, env).states|
    ensures early ==> SameAt(fs, Apply(plan, fs, env).states[i], plan.layout.current)
    ensures !early ==>
              && Admissible(plan, fs, env) && SameAt(fs, ready, plan.layout.current)
              && HasTree(ready, plan.layout.VersionDir(plan.version), ManifestTree(input.manifest))
              && k < |Proceed(plan, ready, SavedFor(plan, ready), env).states|
              && Apply(plan, fs, env).states[i] == Proceed(plan, ready, SavedFor(plan, ready), env).states[k]
  {
    var prepared := RunSteps(plan.layout, fs, plan.prepare, env.prepare, |plan.prepare|);
    PreparedState(plan, input, dirs, fs, env, prepared);
    ApplyStates(plan, fs, env, prepared, i);
    early, ready := i < |prepared.states|, Final(fs, prepared);
    k := if early then 0 else i - |prepared.states|;
  }

  /**
   * After every prefix of an install or upgrade, wherever it crashes, fails or is being recovered, the active link is
   * as it was found or names the new release with exactly its manifest's tree published.
   */
  lemma CrashConsistent(plan: Plan, input: InstallInput, dirs: seq<Path>, fs: FS, env: Env, i: nat)
    requires IsInstallation(plan, input, dirs) && WellFormed(fs) && i < |Apply(plan, fs, env).states|
    ensures Consistent(plan.layout, input.manifest, fs, Apply(plan, fs, env).states[i])
  {
    var early, ready, k := CrashPoint(plan, input, dirs, fs, env, i);
    if !early {
      ConsistentAfter(plan, input, dirs, fs, ready, env, k);
    }
  }
}
