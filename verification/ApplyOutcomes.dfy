/** How an application ends, on what the operating system and the service manager answer. */
module ApplyOutcomes {
  import opened Wrappers
  import opened InstallPlan
  import opened FileSystem
  import opened Installer

  // ---- Up to the switch ----

  /**
   * The plan passes the check, a manager is there for its services, and the release it was planned over is still
   * active.
   */
  predicate Startable(plan: Plan, fs: FS, env: Env) {
    && CheckPlan(plan)
    && (plan.before != [] || plan.after != [] ==> env.manager)
    && (plan.kind != Uninstall ==> Inspect(plan.layout, fs) == Some(plan.previous))
  }

  function PrepareRun(plan: Plan, fs: FS, env: Env): Ran {
    RunSteps(plan.layout, fs, plan.prepare, env.prepare, |plan.prepare|)
  }

  predicate Restores(plan: Plan) {
    plan.kind == Upgrade && plan.layout.manager != NoManager
  }

  /**
   * Everything before the first unload succeeded: the preparation, and for an upgrade the reading of every launcher.
   */
  predicate ReachesSwitch(plan: Plan, fs: FS, env: Env) {
    && Startable(plan, fs, env) && PrepareRun(plan, fs, env).ok
    && (Restores(plan) ==>
          forall s | s in plan.steps && s.action == WriteFile && Parent(s.path) == plan.layout.unitDir ::
            s.path in Final(fs, PrepareRun(plan, fs, env)) && Final(fs, PrepareRun(plan, fs, env))[s.path].File?)
  }

  /** Every launcher an upgrade rewrites, as the preparation left it. */
  ghost predicate Saves(plan: Plan, ready: FS, saved: map<Path, Node>) {
    && (forall p :: p in saved <==> Restores(plan) && exists s :: s in plan.steps && s.action == WriteFile
                                                              && Parent(s.path) == plan.layout.unitDir && s.path == p)
    && (forall p | p in saved :: p in ready && saved[p] == ready[p])
  }

  predicate Every(answers: nat -> bool, n: nat) {
    forall i | 0 <= i < n :: answers(i)
  }

  function SwitchRun(plan: Plan, ready: FS, env: Env): Ran {
    RunSteps(plan.layout, ready, plan.steps, env.steps, |plan.steps|)
  }

  // ---- Recovery ----

  /** Step k is a link swap, and it and every step before it ran. */
  predicate SwapAt(plan: Plan, ready: FS, os: nat -> OS, k: nat) {
    k < |plan.steps| && plan.steps[k].action == SwapLink && RunSteps(plan.layout, ready, plan.steps, os, k + 1).ok
  }

  /** A link swap among the steps completed. */
  ghost predicate SwapDone(plan: Plan, ready: FS, env: Env) {
    exists k :: 0 <= k < |plan.steps| && SwapAt(plan, ready, env.steps, k)
  }

  /** From the given state the old link comes back if it has to, then every saved launcher, then every service. */
  predicate ComesBack(plan: Plan, stopped: FS, saved: map<Path, Node>, moved: bool, env: Env) {
    var relinked := if moved
      then RunSwapLink(stopped, plan.layout.current, Relative(["versions", plan.previous]), env.relink)
                    else Ran([], true);
    && relinked.ok
    && Rewrite(Final(stopped, relinked), saved, env.order, env.rewrite, |env.order|).ok
    && Every(env.reload, |plan.after|)
  }

  function RecoveryOutcome(back: bool): Outcome {
    if back then Recovered else NotRecovered
  }

  lemma {:induction false} SwapDoneIs(plan: Plan, ready: FS, os: nat -> OS, n: nat)
    requires n <= |plan.steps|
    ensures LinkMoved(plan.layout, ready, plan.steps, os, n) <==> exists k :: 0 <= k < n && SwapAt(plan, ready, os, k)
  {
    if n > 0 {
      SwapDoneIs(plan, ready, os, n - 1);
      assert SwapAt(plan, ready, os, n - 1) <==>
             plan.steps[n - 1].action == SwapLink && RunSteps(plan.layout, ready, plan.steps, os, n).ok;
    }
  }

  lemma ComesBackIs(plan: Plan, stopped: FS, saved: map<Path, Node>, moved: bool, env: Env)
    ensures Restore(plan, stopped, saved, moved, env).ok <==> ComesBack(plan, stopped, saved, moved, env)
  {
  }

  lemma SavedIs(plan: Plan, fs: FS, env: Env)
    requires ReachesSwitch(plan, fs, env)
    ensures Saves(plan, Final(fs, PrepareRun(plan, fs, env)), SavedFor(plan, Final(fs, PrepareRun(plan, fs, env))))
  {
  }

  lemma ReachesRest(plan: Plan, fs: FS, env: Env)
    requires plan.kind != Noop
    ensures ReachesSwitch(plan, fs, env) ==>
              Apply(plan, fs, env).outcome
              == var ready :=
                Final(fs, PrepareRun(plan, fs, env)); Proceed(plan, ready, SavedFor(plan, ready), env).outcome
    ensures !ReachesSwitch(plan, fs, env) ==> Apply(plan, fs, env).outcome == Failed
  {
  }

  // ---- The outcomes ----

  /** Applying a repeat of the active release succeeds exactly when the release verifies, and touches nothing. */
  lemma NoopExactly(plan: Plan, fs: FS, env: Env)
    requires plan.kind == Noop
    ensures Apply(plan, fs, env) == Applied([], if CheckPlan(plan) && env.noopHolds then Succeeded else Failed)
  {
  }

  /**
   * Any other application succeeds if and only if it reaches its switch, every service is unloaded, every step runs,
     and
   * every service is loaded.
   */
  lemma SucceedsExactly(plan: Plan, fs: FS, env: Env)
    requires plan.kind != Noop
    ensures Apply(plan, fs, env).outcome == Succeeded <==>
            && ReachesSwitch(plan, fs, env) && Every(env.unload, |plan.before|)
            && SwitchRun(plan, Final(fs, PrepareRun(plan, fs, env)), env).ok && Every(env.load, |plan.after|)
  {
    ReachesRest(plan, fs, env);
  }

  /**
   * An upgrade whose steps or loads fail after its services were unloaded is reported as recovered if and only if the
   * link, when a swap completed, the launchers and the services come back, and as not recovered otherwise.
   */
  lemma RecoversExactly(plan: Plan, fs: FS, env: Env) returns (saved: map<Path, Node>)
    requires Restores(plan) && ReachesSwitch(plan, fs, env) && Every(env.unload, |plan.before|)
    requires !(SwitchRun(plan, Final(fs, PrepareRun(plan, fs, env)), env).ok && Every(env.load, |plan.after|))
    ensures var ready := Final(fs, PrepareRun(plan, fs, env));
            && Saves(plan, ready, saved)
            && Apply(plan, fs, env).outcome
               == RecoveryOutcome(ComesBack(plan, Final(ready, SwitchRun(plan, ready, env)), saved,
                                            SwapDone(plan, ready, env), env))
  {
    var ready := Final(fs, PrepareRun(plan, fs, env));
    saved := SavedFor(plan, ready);
    ReachesRest(plan, fs, env);
    SavedIs(plan, fs, env);
    SwapDoneIs(plan, ready, env.steps, |plan.steps|);
    ComesBackIs(plan, Final(ready, SwitchRun(plan, ready, env)), saved, SwapDone(plan, ready, env), env);
  }

  /**
   * If an unload fails, what was unloaded before it is reloaded; if the first one fails there is nothing to bring back.
   */
  lemma UnloadFailsExactly(plan: Plan, fs: FS, env: Env) returns (saved: map<Path, Node>)
    requires plan.kind != Noop && ReachesSwitch(plan, fs, env) && !Every(env.unload, |plan.before|)
    ensures var ready := Final(fs, PrepareRun(plan, fs, env));
            && Saves(plan, ready, saved)
            && Apply(plan, fs, env).outcome
               == if env.unload(0) then RecoveryOutcome(ComesBack(plan, ready, saved, false, env)) else Failed
  {
    var ready := Final(fs, PrepareRun(plan, fs, env));
    saved := SavedFor(plan, ready);
    ReachesRest(plan, fs, env);
    SavedIs(plan, fs, env);
    ComesBackIs(plan, ready, saved, false, env);
  }

  /** Everything else fails: what does not reach its switch, and an install or uninstall whose steps or loads fail. */
  lemma FailsExactly(plan: Plan, fs: FS, env: Env)
    requires plan.kind != Noop
    ensures Apply(plan, fs, env).outcome == Failed <==>
            || !ReachesSwitch(plan, fs, env)
            || (!Every(env.unload, |plan.before|) && !env.unload(0))
            || (&& Every(env.unload, |plan.before|) && !Restores(plan)
                && !(SwitchRun(plan, Final(fs, PrepareRun(plan, fs, env)), env).ok && Every(env.load, |plan.after|)))
  {
    ReachesRest(plan, fs, env);
  }
}
