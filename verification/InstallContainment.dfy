/** What no application of a plan ever changes: the state directory, and during an upgrade the previous release. */
module InstallContainment {
  import opened Versions
  import opened InstallPlan
  import opened InstallPlanner
  import opened FileSystem
  import opened Installer

  lemma SavedAreLaunchers(plan: Plan, ready: FS)
    ensures forall q | q in SavedFor(plan, ready) :: Parent(q) == plan.layout.unitDir
  {
  }

  lemma ApplyIsThen(plan: Plan, fs: FS, env: Env)
    requires Apply(plan, fs, env).states != []
    ensures Admissible(plan, fs, env)
    ensures var prepared := RunSteps(plan.layout, fs, plan.prepare, env.prepare, |plan.prepare|);
            var ready := Final(fs, prepared);
            Apply(plan, fs, env) == Then(prepared, Recovers(plan) ==> LaunchersPresent(plan.layout, ready, plan.steps),
                                         Proceed(plan, ready, SavedFor(plan, ready), env))
  {
  }

  /** An application's states are those of its preparation, then those of what follows a successful one. */
  lemma ApplyStates(plan: Plan, fs: FS, env: Env, prepared: Ran, i: nat)
    requires i < |Apply(plan, fs, env).states|
             && prepared == RunSteps(plan.layout, fs, plan.prepare, env.prepare, |plan.prepare|)
    ensures Admissible(plan, fs, env)
    ensures i < |prepared.states| ==> Apply(plan, fs, env).states[i] == prepared.states[i]
    ensures var rest := Proceed(plan, Final(fs, prepared), SavedFor(plan, Final(fs, prepared)), env);
            i >= |prepared.states| ==>
                  prepared.ok && i - |prepared.states| < |rest.states|
                  && Apply(plan, fs, env).states[i] == rest.states[i - |prepared.states|]
  {
    ApplyIsThen(plan, fs, env);
    var ready := Final(fs, prepared);
    ThenStates(prepared, Recovers(plan) ==> LaunchersPresent(plan.layout, ready, plan.steps),
               Proceed(plan, ready, SavedFor(plan, ready), env), i);
  }

  lemma ThenStates(prepared: Ran, found: bool, rest: Applied, i: nat)
    ensures var all := Then(prepared, found, rest).states;
            i < |all| ==>
              && (i < |prepared.states| ==> all[i] == prepared.states[i])
              && (i >= |prepared.states| ==>
                    && prepared.ok && i - |prepared.states| < |rest.states|
                    && all[i] == rest.states[i - |prepared.states|])
  {
  }

  lemma SwitchKeeps(plan: Plan, ready: FS, saved: map<Path, Node>, env: Env, p: Path)
    requires p != [] && plan.layout.current != [] && p != plan.layout.current && p != NextLink(plan.layout.current)
    requires forall q | q in saved && q != [] :: Parent(q) != Parent(p)
    requires forall s | s in plan.steps :: !Touches(s, p)
    ensures Keeps(ready, Switch(plan, ready, saved, env).states, p)
  {
    var l := plan.layout;
    var ran := RunSteps(l, ready, plan.steps, env.steps, |plan.steps|);
    StepsKeep(l, ready, plan.steps, env.steps, |plan.steps|, p);
    KeepsFinal(ready, ran, p);
    var moved := LinkMoved(l, ready, plan.steps, env.steps, |plan.steps|);
    var restored := Restore(plan, Final(ready, ran), saved, moved, env);
    RestoreKeeps(plan, Final(ready, ran), saved, moved, env, p);
    KeepsAppend(ready, ran.states, restored, Final(ready, ran), p);
  }

  lemma ProceedKeeps(plan: Plan, ready: FS, saved: map<Path, Node>, env: Env, p: Path)
    requires p != [] && plan.layout.current != [] && p != plan.layout.current && p != NextLink(plan.layout.current)
    requires forall q | q in saved && q != [] :: Parent(q) != Parent(p)
    requires forall s | s in plan.steps :: !Touches(s, p)
    ensures Keeps(ready, Proceed(plan, ready, saved, env).states, p)
  {
    SwitchKeeps(plan, ready, saved, env, p);
    RestoreKeeps(plan, ready, saved, false, env, p);
  }

  /**
   * A path no step touches, other than the link and the launcher directory, stays as it was through the whole
   * application and its recovery.
   */
  lemma ApplyKeeps(plan: Plan, fs: FS, env: Env, p: Path)
    requires p != [] && plan.layout.current != [] && p != plan.layout.current && p != NextLink(plan.layout.current)
    requires Parent(p) != plan.layout.unitDir
    requires forall s | s in plan.prepare || s in plan.steps :: !Touches(s, p)
    ensures Keeps(fs, Apply(plan, fs, env).states, p)
  {
    var l := plan.layout;
    var prepared := RunSteps(l, fs, plan.prepare, env.prepare, |plan.prepare|);
    StepsKeep(l, fs, plan.prepare, env.prepare, |plan.prepare|, p);
    KeepsFinal(fs, prepared, p);
    var ready := Final(fs, prepared);
    SavedAreLaunchers(plan, ready);
    ProceedKeeps(plan, ready, SavedFor(plan, ready), env, p);
    forall i | 0 <= i < |Apply(plan, fs, env).states| ensures SameAt(fs, Apply(plan, fs, env).states[i], p) {
      ApplyStates(plan, fs, env, prepared, i);
    }
  }

  // ---- The state directory ----

  lemma OutsideLayout(l: Layout, p: Path)
    requires ValidLayout(l) && Within(p, l.stateDir)
    ensures p != [] && l.current != [] && p != l.current && p != NextLink(l.current) && Parent(p) != l.unitDir
  {
    assert Parent(l.current) == l.distRoot;
    assert l.distRoot <= NextLink(l.current);
    if p == l.current || p == NextLink(l.current) {
      PrefixesMeet(l.stateDir, l.distRoot, p);
    }
    if Parent(p) == l.unitDir {
      PrefixesMeet(l.stateDir, l.unitDir, p);
    }
  }

  /**
   * Applying any plan that is not flagged to remove state, hand-built ones included, leaves everything in the state
   * directory as it was in every state it passes through, recovery and crashes inside a step included.
   */
  lemma StateUntouched(plan: Plan, fs: FS, env: Env, p: Path)
    requires !plan.removesState && Within(p, plan.layout.stateDir)
    ensures Keeps(fs, Apply(plan, fs, env).states, p)
  {
    if CheckPlan(plan) {
      OutsideLayout(plan.layout, p);
      forall s | s in plan.prepare || s in plan.steps ensures !Touches(s, p) {
        if Touches(s, p) {
          StateContained(plan, s, p);
        }
      }
      ApplyKeeps(plan, fs, env, p);
    }
  }

  // ---- The previous release and the other paths an upgrade must keep ----

  /** Where the preparation of a release may write. */
  ghost predicate StagingArea(l: Layout, version: string, p: Path) {
    p <= l.versions || p <= l.unitDir || Within(p, l.VersionDir(version)) || Within(p, PartialDir(l, version))
  }

  lemma BelowPartial(l: Layout, version: string, rel: Path, p: Path)
    requires p <= PartialDir(l, version) + rel
    ensures StagingArea(l, version, p)
  {
    var partial := PartialDir(l, version);
    assert partial <= partial + rel;
    PrefixesMeet(p, partial, partial + rel);
    if p <= partial && p != partial {
      assert p <= l.versions;
    }
  }

  lemma ListedDir(l: Layout, m: Manifest, d: Path)
    requires d in DirSet(PartialDir(l, m.version), m.artifacts)
    ensures exists rel :: d == PartialDir(l, m.version) + rel
  {
    var k, i :| 0 <= k < |m.artifacts| && 0 < i < |m.artifacts[k].path|
      && d == PartialDir(l, m.version) + m.artifacts[k].path[..i];
    assert d == PartialDir(l, m.version) + m.artifacts[k].path[..i];
  }

  lemma InPartial(l: Layout, version: string, p: Path, rel: Path)
    requires p == PartialDir(l, version) + rel
    ensures StagingArea(l, version, p)
  {
  }

  lemma StagingTouches(l: Layout, m: Manifest, step: Step, p: Path)
    requires ValidLayout(l) && step in Staging(l, m) && Touches(step, p)
    ensures StagingArea(l, m.version, p)
  {
    assert l.distRoot <= l.versions;
    BelowPartial(l, m.version, [], PartialDir(l, m.version));
    if step.action == ResetDir && Within(PartialDir(l, m.version), p) {
      assert PartialDir(l, m.version) + [] == PartialDir(l, m.version);
      BelowPartial(l, m.version, [], p);
    }
  }

  lemma PublishingTouches(l: Layout, m: Manifest, step: Step, p: Path)
    requires step in Publishing(l, m) && Touches(step, p)
    ensures StagingArea(l, m.version, p)
  {
    if step.action == WriteFile {
      assert Parent(step.path) == PartialDir(l, m.version);
      if p != step.path {
        var suffix :| p == TempFile(step.path, suffix);
        assert Parent(p) == PartialDir(l, m.version);
      }
      assert PartialDir(l, m.version) <= p;
    }
  }

  /** The preparation of a planned release stays in its staging area. */
  lemma PrepareTouches(plan: Plan, input: InstallInput, dirs: seq<Path>, step: Step, p: Path)
    requires IsInstallation(plan, input, dirs) && step in plan.prepare && Touches(step, p)
    ensures StagingArea(plan.layout, plan.version, p)
  {
    var l, m := input.layout, input.manifest;
    if step in Staging(l, m) {
      StagingTouches(l, m, step, p);
    } else if step in Publishing(l, m) {
      PublishingTouches(l, m, step, p);
    } else if step in DirSteps(dirs) {
      ListedDir(l, m, step.path);
      var rel :| step.path == PartialDir(l, m.version) + rel;
      BelowPartial(l, m.version, rel, p);
    } else if step in CopySteps(PartialDir(l, m.version), input.sourceRoot, m.artifacts) {
      InPartial(l, m.version, p, p[|PartialDir(l, m.version)|..]);
    } else {
      assert step == DirStep(l.unitDir);
    }
  }

  /** Paths an upgrade relies on while it prepares: the link, the launchers and any other release. */
  ghost predicate Relied(l: Layout, version: string, p: Path) {
    || p == l.current
    || (p != [] && Parent(p) == l.unitDir)
    || (exists other :: other != version && Matches(other) && Within(p, l.VersionDir(other)))
  }

  lemma AcceptedStartsWithDigit(s: string)
    requires Matches(s)
    ensures s != "" && IsDigit(s[0])
  {
    CutJoin(s, '-');
    var core := Cut(s, '-').0;
    JoinSplit(core, '.');
    assert core[0] == Split(core, '.')[0][0];
  }

  lemma ReliedIsSafe(l: Layout, version: string, p: Path)
    requires ValidLayout(l) && Relied(l, version, p)
    ensures !StagingArea(l, version, p)
  {
    var partial := PartialDir(l, version);
    assert l.distRoot <= l.versions && l.distRoot <= l.current && l.distRoot <= partial
           && l.distRoot <= l.VersionDir(version);
    if p == l.current {
      assert p[|l.distRoot|] == "current";
      assert l.versions[|l.distRoot|] == partial[|l.distRoot|] == l.VersionDir(version)[|l.distRoot|] == "versions";
    } else if p != [] && Parent(p) == l.unitDir {
      assert l.unitDir <= p;
      if Within(p, l.distRoot) {
        PrefixesMeet(l.unitDir, l.distRoot, p);
      }
    } else {
      var other :| other != version && Matches(other) && Within(p, l.VersionDir(other));
      AcceptedStartsWithDigit(other);
      assert p[|l.versions|] == other;
      assert partial[|l.versions|] == "." + version + ".partial" && l.VersionDir(version)[|l.versions|] == version;
      assert ("." + version + ".partial")[0] == '.';
      assert l.distRoot <= p;
    }
  }
}
