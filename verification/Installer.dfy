/** Applying a plan: run its steps in order, and restore the previous release when an upgrade fails part way. */
module Installer {
  import opened Wrappers
  import opened Versions
  import opened InstallPlan
  import opened FileSystem

  /** The active release: empty when there is none, nothing when the link is not one this package manages. */
  function Inspect(l: Layout, fs: FS): Option<string> {
    if l.versions in fs && !fs[l.versions].Dir? then None
    else if l.current !in fs then Some("")
    else
      match fs[l.current]
      case Link(Relative(t)) => if |t| == 2 && t[0] == "versions" && Matches(t[1]) then Some(t[1]) else None
      case _ => None
  }

  /**
   * Everything outside the installer: the operating system, the service manager, and the order launchers are restored
   * in.
   */
  datatype Env = Env(prepare: nat -> OS, unload: nat -> bool, steps: nat -> OS, load: nat -> bool,
                     relink: OS, rewrite: nat -> OS, order: seq<Path>, reload: nat -> bool, manager: bool,
                     noopHolds: bool)

  /** The first n steps, stopping at the first that fails. */
  function RunSteps(l: Layout, fs: FS, steps: seq<Step>, os: nat -> OS, n: nat): Ran
    requires n <= |steps|
  {
    if n == 0 then Ran([], true)
    else
      var r := RunSteps(l, fs, steps, os, n - 1);
      if !r.ok then r
      else
        var x := RunStep(l, Final(fs, r), steps[n - 1], os(n - 1));
        Ran(r.states + x.states, x.ok)
  }

  /** Whether one of the first n steps was a link swap that completed. */
  predicate LinkMoved(l: Layout, fs: FS, steps: seq<Step>, os: nat -> OS, n: nat)
    requires n <= |steps|
  {
    n > 0 && (LinkMoved(l, fs, steps, os, n - 1)
              || (steps[n - 1].action == SwapLink && RunSteps(l, fs, steps, os, n).ok))
  }

  lemma {:induction false} RunStops(l: Layout, fs: FS, steps: seq<Step>, os: nat -> OS, i: nat, n: nat)
    requires i <= n <= |steps| && !RunSteps(l, fs, steps, os, i).ok
    ensures RunSteps(l, fs, steps, os, n) == RunSteps(l, fs, steps, os, i)
  {
    if i < n {
      RunStops(l, fs, steps, os, i, n - 1);
    }
  }

  // ---- Launchers ----

  predicate IsLauncher(l: Layout, step: Step) {
    step.action == WriteFile && IsUnit(l, step.path)
  }

  function LauncherPaths(l: Layout, steps: seq<Step>): set<Path> {
    set s | s in steps && IsLauncher(l, s) :: s.path
  }

  predicate LaunchersPresent(l: Layout, fs: FS, steps: seq<Step>) {
    forall s | s in steps && IsLauncher(l, s) :: s.path in fs && fs[s.path].File?
  }

  /** The launchers an upgrade is about to rewrite, as they are on disk. */
  function SavedLaunchers(l: Layout, fs: FS, steps: seq<Step>): map<Path, Node>
    requires LaunchersPresent(l, fs, steps)
  {
    map p | p in LauncherPaths(l, steps) && p in fs :: fs[p]
  }

  function Rewrite(fs: FS, saved: map<Path, Node>, order: seq<Path>, os: nat -> OS, n: nat): Ran
    requires n <= |order|
  {
    if n == 0 then Ran([], true)
    else
      var r := Rewrite(fs, saved, order, os, n - 1);
      if !r.ok then r
      else if !(order[n - 1] in saved && saved[order[n - 1]].File?) then r
      else
        var node := saved[order[n - 1]];
        var x := RunWriteAtomic(Final(fs, r), order[n - 1], node.content, node.mode, os(n - 1));
        Ran(r.states + x.states, x.ok)
  }

  predicate AllDo(answers: nat -> bool, n: nat) {
    forall i | 0 <= i < n :: answers(i)
  }

  function Relink(plan: Plan, fs: FS, moved: bool, env: Env): Ran {
    if moved then RunSwapLink(fs, plan.layout.current, Relative(["versions", plan.previous]), env.relink)
    else Ran([], true)
  }

  /** Best-effort recovery: the link back if it moved, the saved launchers, then the services. */
  function Restore(plan: Plan, fs: FS, saved: map<Path, Node>, moved: bool, env: Env): Ran {
    var back := Relink(plan, fs, moved, env);
    if !back.ok then back
    else
      var files := Rewrite(Final(fs, back), saved, env.order, env.rewrite, |env.order|);
      Ran(back.states + files.states, files.ok && AllDo(env.reload, |plan.after|))
  }

  // ---- Apply ----

  datatype Outcome = Succeeded | Failed | Recovered | NotRecovered

  /** Every state on disk from the first change to the last, and how the application ended. */
  datatype Applied = Applied(states: seq<FS>, outcome: Outcome)

  function Recovering(states: seq<FS>, restored: Ran): Applied {
    Applied(states + restored.states, if restored.ok then Recovered else NotRecovered)
  }

  predicate Recovers(plan: Plan) {
    plan.kind == Upgrade && plan.layout.manager != NoManager
  }

  predicate Admissible(plan: Plan, fs: FS, env: Env) {
    && CheckPlan(plan)
    && (|plan.before| + |plan.after| > 0 ==> env.manager)
    && (plan.kind != Uninstall ==> Inspect(plan.layout, fs) == Some(plan.previous))
  }

  function Apply(plan: Plan, fs: FS, env: Env): Applied {
    var l := plan.layout;
    if CheckPlan(plan) && plan.kind == Noop then Applied([], if env.noopHolds then Succeeded else Failed)
    else if !Admissible(plan, fs, env) then Applied([], Failed)
    else
      var prepared := RunSteps(l, fs, plan.prepare, env.prepare, |plan.prepare|);
      var ready := Final(fs, prepared);
      Then(prepared, Recovers(plan) ==> LaunchersPresent(l, ready, plan.steps),
           Proceed(plan, ready, SavedFor(plan, ready), env))
  }

  /** The rest of an application follows a successful preparation that found the launchers it may have to restore. */
  function Then(prepared: Ran, found: bool, rest: Applied): Applied {
    if prepared.ok && found then Applied(prepared.states + rest.states, rest.outcome)
    else Applied(prepared.states, Failed)
  }

  /** What a failed application would restore. */
  function SavedFor(plan: Plan, ready: FS): map<Path, Node> {
    if Recovers(plan) && LaunchersPresent(plan.layout, ready, plan.steps)
    then SavedLaunchers(plan.layout, ready, plan.steps)
    else map[]
  }

  /** From the first unload on. */
  function Proceed(plan: Plan, ready: FS, saved: map<Path, Node>, env: Env): Applied {
    if AllDo(env.unload, |plan.before|) then Switch(plan, ready, saved, env)
    else if env.unload(0) then Recovering([], Restore(plan, ready, saved, false, env))
    else Applied([], Failed)
  }

  /** The part of an application that runs while the services are down, and the reload. */
  function Switch(plan: Plan, ready: FS, saved: map<Path, Node>, env: Env): Applied {
    var l := plan.layout;
    var ran := RunSteps(l, ready, plan.steps, env.steps, |plan.steps|);
    var moved := LinkMoved(l, ready, plan.steps, env.steps, |plan.steps|);
    if ran.ok && AllDo(env.load, |plan.after|) then Applied(ran.states, Succeeded)
    else if Recovers(plan) then Recovering(ran.states, Restore(plan, Final(ready, ran), saved, moved, env))
    else Applied(ran.states, Failed)
  }

  // ---- Containment of the state directory over whole applications ----

  /** Every state from `fs` on agrees with it on the given paths. */
  ghost predicate Keeps(fs: FS, states: seq<FS>, p: Path) {
    forall i | 0 <= i < |states| :: SameAt(fs, states[i], p)
  }

  lemma KeepsFinal(fs: FS, ran: Ran, p: Path)
    requires Keeps(fs, ran.states, p)
    ensures SameAt(fs, Final(fs, ran), p)
  {
  }

  lemma KeepsAppend(fs: FS, states: seq<FS>, ran: Ran, mid: FS, p: Path)
    requires Keeps(fs, states, p) && SameAt(fs, mid, p) && Keeps(mid, ran.states, p)
    ensures Keeps(fs, states + ran.states, p)
  {
  }

  lemma StepKeeps(l: Layout, fs: FS, step: Step, os: OS, p: Path)
    requires !Touches(step, p)
    ensures Keeps(fs, RunStep(l, fs, step, os).states, p)
  {
    forall i | 0 <= i < |RunStep(l, fs, step, os).states| ensures SameAt(fs, RunStep(l, fs, step, os).states[i], p) {
      RunStepFrame(l, fs, step, os, p, i);
    }
  }

  lemma {:induction false} StepsKeep(l: Layout, fs: FS, steps: seq<Step>, os: nat -> OS, n: nat, p: Path)
    requires n <= |steps| && forall i | 0 <= i < n :: !Touches(steps[i], p)
    ensures Keeps(fs, RunSteps(l, fs, steps, os, n).states, p)
  {
    if n > 0 {
      StepsKeep(l, fs, steps, os, n - 1, p);
      var r := RunSteps(l, fs, steps, os, n - 1);
      if r.ok {
        KeepsFinal(fs, r, p);
        StepKeeps(l, Final(fs, r), steps[n - 1], os(n - 1), p);
        KeepsAppend(fs, r.states, RunStep(l, Final(fs, r), steps[n - 1], os(n - 1)), Final(fs, r), p);
      }
    }
  }

  lemma {:induction false} RewriteKeeps(fs: FS, saved: map<Path, Node>, order: seq<Path>, os: nat -> OS, n: nat,
                                        p: Path)
    requires n <= |order|
    requires forall q | q in saved && q != [] :: Parent(q) != Parent(p)
    requires p != []
    ensures Keeps(fs, Rewrite(fs, saved, order, os, n).states, p)
  {
    if n > 0 {
      RewriteKeeps(fs, saved, order, os, n - 1, p);
      var r := Rewrite(fs, saved, order, os, n - 1);
      if r.ok && order[n - 1] in saved && saved[order[n - 1]].File? {
        KeepsFinal(fs, r, p);
        var q, node := order[n - 1], saved[order[n - 1]];
        var x := RunWriteAtomic(Final(fs, r), q, node.content, node.mode, os(n - 1));
        assert q != [] ==> Parent(TempFile(q, os(n - 1).suffix)) == Parent(q);
        KeepsAppend(fs, r.states, x, Final(fs, r), p);
      }
    }
  }

  lemma SwapKeeps(fs: FS, link: Path, target: Target, os: OS, p: Path)
    requires p != link && (link != [] ==> p != NextLink(link))
    ensures Keeps(fs, RunSwapLink(fs, link, target, os).states, p)
  {
  }

  lemma RestoreKeeps(plan: Plan, fs: FS, saved: map<Path, Node>, moved: bool, env: Env, p: Path)
    requires p != [] && plan.layout.current != [] && p != plan.layout.current && p != NextLink(plan.layout.current)
    requires forall q | q in saved && q != [] :: Parent(q) != Parent(p)
    ensures Keeps(fs, Restore(plan, fs, saved, moved, env).states, p)
  {
    var back := Relink(plan, fs, moved, env);
    SwapKeeps(fs, plan.layout.current, Relative(["versions", plan.previous]), env.relink, p);
    if back.ok {
      KeepsFinal(fs, back, p);
      RewriteKeeps(Final(fs, back), saved, env.order, env.rewrite, |env.order|, p);
      KeepsAppend(fs, back.states, Rewrite(Final(fs, back), saved, env.order, env.rewrite, |env.order|),
                  Final(fs, back), p);
    }
  }
}
