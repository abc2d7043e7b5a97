/** What a successful uninstall leaves behind, and what it keeps. */
module Uninstallation {
  import opened InstallPlan
  import opened InstallPlanner
  import opened FileSystem
  import opened Installer
  import opened InstallContainment
  import opened ReleaseTree
  import opened UpgradeRecovery

  predicate IsRemoval(s: Step) {
    (s.action == RemoveFile || s.action == RemoveTree) && s.path != []
  }

  /** What a removal is for no longer exists. */
  ghost predicate Gone(fs: FS, s: Step) {
    if s.action == RemoveTree then Bare(fs, s.path) else s.path !in fs
  }

  /** A leaf can be removed without leaving orphans. */
  lemma RemoveLeaf(fs: FS, p: Path)
    requires WellFormed(fs) && p in fs && p != [] && !fs[p].Dir?
    ensures WellFormed(Remove(fs, p))
  {
    var fs' := Remove(fs, p);
    forall q | q in fs' && q != [] ensures IsDir(fs', Parent(q)) {
      assert IsDir(fs, Parent(q));
    }
  }

  lemma RemovalStep(l: Layout, fs: FS, s: Step, os: OS)
    requires WellFormed(fs) && IsRemoval(s) && RunStep(l, fs, s, os).ok
    ensures var fs' := Final(fs, RunStep(l, fs, s, os)); WellFormed(fs') && fs'.Keys <= fs.Keys && Gone(fs', s)
  {
    if s.action == RemoveTree {
      RemoveTreeOk(fs, s.path, os);
    } else if s.path in fs {
      RemoveLeaf(fs, s.path);
    }
  }

  ghost predicate RemovedSoFar(steps: seq<Step>, k: nat, fs: FS) {
    WellFormed(fs) && k <= |steps| && forall j | 0 <= j < k :: Gone(fs, steps[j])
  }

  lemma EachRemoves(l: Layout, steps: seq<Step>, os: nat -> OS)
    requires forall s | s in steps :: IsRemoval(s)
    ensures forall k, g | 0 <= k < |steps| && RemovedSoFar(steps, k, g) && RunStep(l, g, steps[k], os(k)).ok ::
              RemovedSoFar(steps, k + 1, Final(g, RunStep(l, g, steps[k], os(k))))
  {
    forall k, g | 0 <= k < |steps| && RemovedSoFar(steps, k, g) && RunStep(l, g, steps[k], os(k)).ok
      ensures RemovedSoFar(steps, k + 1, Final(g, RunStep(l, g, steps[k], os(k))))
    {
      RemovalStep(l, g, steps[k], os(k));
      var g' := Final(g, RunStep(l, g, steps[k], os(k)));
      forall j | 0 <= j < k + 1 ensures Gone(g', steps[j]) {
        if j < k {
          assert Gone(g, steps[j]);
        }
      }
    }
  }

  lemma UninstallRemovals(plan: Plan, l: Layout, services: seq<string>, removeState: bool)
    requires IsUninstallation(plan, l, services, removeState)
    ensures forall s | s in plan.steps :: IsRemoval(s)
  {
    forall k | 0 <= k < |plan.steps| ensures IsRemoval(plan.steps[k]) {
      if k < |services| {
        assert plan.steps[k] == RemoveStep(RemoveFile, UnloadOf(l, services[k]).unitPath);
      } else if k < |services| + 2 {
        assert plan.steps[k] == [RemoveStep(RemoveFile, l.current), RemoveStep(RemoveTree, l.distRoot)][k - |services|];
      } else {
        assert plan.steps[k] == RemoveStep(RemoveTree, l.stateDir);
      }
    }
  }

  /**
   * A successful uninstall leaves no launcher, link or file of the distribution; the state directory is gone if its
   * removal was confirmed and otherwise untouched.
   */
  lemma UninstallRemoves(plan: Plan, l: Layout, services: seq<string>, removeState: bool, fs: FS, env: Env)
    requires IsUninstallation(plan, l, services, removeState) && WellFormed(fs)
             && Apply(plan, fs, env).outcome == Succeeded
    ensures forall s | s in plan.steps :: Gone(EndState(fs, Apply(plan, fs, env)), s)
    ensures Bare(EndState(fs, Apply(plan, fs, env)), l.distRoot)
    ensures removeState ==> Bare(EndState(fs, Apply(plan, fs, env)), l.stateDir)
    ensures !removeState ==> forall p | Within(p, l.stateDir) :: SameAt(fs, EndState(fs, Apply(plan, fs, env)), p)
  {
    var end := EndState(fs, Apply(plan, fs, env));
    EndsWithRest(plan, fs, env);
    NothingPrepared(plan, fs, env);
    SwitchSucceeded(plan, fs, SavedFor(plan, fs), env);
    AllRemoved(plan, l, services, removeState, fs, env);
    assert RemoveStep(RemoveTree, l.distRoot) in plan.steps;
    assert removeState ==> RemoveStep(RemoveTree, l.stateDir) in plan.steps;
    if !removeState {
      forall p | Within(p, l.stateDir) ensures SameAt(fs, end, p) {
        StateUntouched(plan, fs, env, p);
        KeepsFinal(fs, Ran(Apply(plan, fs, env).states, true), p);
      }
    }
  }

  lemma NothingPrepared(plan: Plan, fs: FS, env: Env)
    requires plan.prepare == []
    ensures Ready(plan, fs, env) == fs
  {
  }

  lemma AllRemoved(plan: Plan, l: Layout, services: seq<string>, removeState: bool, fs: FS, env: Env)
    requires IsUninstallation(plan, l, services, removeState) && WellFormed(fs)
    requires RunSteps(l, fs, plan.steps, env.steps, |plan.steps|).ok
    ensures forall s | s in plan.steps :: Gone(Final(fs, RunSteps(l, fs, plan.steps, env.steps, |plan.steps|)), s)
  {
    UninstallRemovals(plan, l, services, removeState);
    EachRemoves(l, plan.steps, env.steps);
    Along(l, fs, plan.steps, env.steps, |plan.steps|, (k: nat, g: FS) => RemovedSoFar(plan.steps, k, g));
  }
}
