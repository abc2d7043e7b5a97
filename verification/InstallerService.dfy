/** The installer as it runs: a disk changed call by call, flags for what has happened, and recovery on failure. */
module InstallerService {
  import opened Wrappers
  import opened InstallPlan
  import opened FileSystem
  import opened Installer

  class Disk {
    var fs: FS
    /** Every state the disk has been in since the object was created. */
    ghost var states: seq<FS>

    constructor (initial: FS)
      ensures fs == initial && states == []
    {
      fs, states := initial, [];
    }

    ghost predicate Follows(from: FS, history: seq<FS>, ran: Ran)
      reads this
    {
      fs == Final(from, ran) && states == history + ran.states
    }

    method Commit(next: FS)
      modifies this
      ensures fs == next && states == old(states) + [next]
    {
      fs, states := next, states + [next];
    }

    // ---- Steps ----

    method EnsureDirectory(p: Path, mode: Mode, owned: bool, os: OS, call: nat) returns (ok: bool)
      modifies this
      ensures Follows(old(fs), old(states), RunEnsureDir(old(fs), p, mode, owned, os, call))
              && ok == RunEnsureDir(old(fs), p, mode, owned, os, call).ok
    {
      var made := MkdirAll(fs, p, mode);
      if call in os.failing || made.None? {
        return false;
      }
      Commit(made.value);
      if owned {
        if call + 1 in os.failing {
          return false;
        }
        Commit(fs[p := Dir(mode)]);
      }
      return true;
    }

    method RemoveDirectory(p: Path, os: OS) returns (ok: bool)
      modifies this
      ensures Follows(old(fs), old(states), RunRemoveTree(old(fs), p, os)) && ok == RunRemoveTree(old(fs), p, os).ok
    {
      if p !in fs {
        return true;
      }
      if !fs[p].Dir? {
        return false;
      }
      if 0 in os.failing {
        Commit(Prune(fs, p, os.pruned));
        return false;
      }
      Commit(RemoveAll(fs, p));
      return true;
    }

    method CopyVerified(step: Step, os: OS) returns (ok: bool)
      modifies this
      ensures Follows(old(fs), old(states), RunCopyFile(old(fs), step, os)) && ok == RunCopyFile(old(fs), step, os).ok
    {
      if step.source !in fs || !fs[step.source].File? || 0 in os.failing {
        return false;
      }
      if step.path == [] || step.path in fs || !IsDir(fs, Parent(step.path)) {
        return false;
      }
      var before, content := fs, fs[step.source].content;
      Commit(fs[step.path := File("", step.mode)]);
      if 1 in os.failing || |content| != step.size || Sha256(content) != step.digest {
        Commit(before);
        return false;
      }
      assert before[step.path := File(content, step.mode)] == fs[step.path := File(content, step.mode)];
      Commit(fs[step.path := File(content, step.mode)]);
      return true;
    }

    method WriteAtomic(p: Path, content: string, mode: Mode, os: OS) returns (ok: bool)
      modifies this
      ensures Follows(old(fs), old(states), RunWriteAtomic(old(fs), p, content, mode, os))
              && ok == RunWriteAtomic(old(fs), p, content, mode, os).ok
    {
      if p == [] || 0 in os.failing || !IsDir(fs, Parent(p)) || TempFile(p, os.suffix) in fs {
        return false;
      }
      var before := fs;
      Commit(fs[TempFile(p, os.suffix) := File(content, mode)]);
      if 1 in os.failing || IsDir(before, p) {
        if 2 !in os.failing {
          Commit(before);
        }
        return false;
      }
      Commit(before[p := File(content, mode)]);
      return 3 !in os.failing;
    }

    method SwapLinkTo(link: Path, target: Target, os: OS) returns (ok: bool)
      modifies this
      ensures Follows(old(fs), old(states), RunSwapLink(old(fs), link, target, os))
              && ok == RunSwapLink(old(fs), link, target, os).ok
    {
      if link == [] || (link in fs && !fs[link].Link?) {
        return false;
      }
      var next := NextLink(link);
      if next in fs && (0 in os.failing || HasChildren(fs, next)) {
        return false;
      }
      var parent := IsDir(fs, Parent(link));
      var cleared := Remove(fs, next);
      Commit(cleared);
      if 1 in os.failing || !parent {
        return false;
      }
      Commit(fs[next := Link(target)]);
      if 2 in os.failing {
        if 3 !in os.failing {
          Commit(cleared);
        }
        return false;
      }
      Commit(cleared[link := Link(target)]);
      return LINK_SYNC !in os.failing;
    }

    method Publish(source: Path, target: Target, os: OS) returns (ok: bool)
      modifies this
      ensures Follows(old(fs), old(states), RunPublishDir(old(fs), source, target, os))
              && ok == RunPublishDir(old(fs), source, target, os).ok
    {
      if !target.Absolute? || 0 in os.failing || !CanRename(fs, source, target.path) {
        return false;
      }
      Commit(Rename(fs, source, target.path));
      return 1 !in os.failing;
    }

    method Extract(step: Step, os: OS) returns (ok: bool)
      modifies this
      ensures Follows(old(fs), old(states), RunExtractBundle(old(fs), step, os))
              && ok == RunExtractBundle(old(fs), step, os).ok
    {
      if step.path == [] || step.path in fs || !IsDir(fs, Parent(step.path)) || 2 in os.failing {
        return false;
      }
      var before := fs;
      Commit(Unpack(fs, step.path, os.bundle));
      if 3 in os.failing {
        Commit(before);
        return false;
      }
      ok := Publish(step.path, step.target, os);
    }

    method RemoveOne(p: Path, os: OS) returns (ok: bool)
      modifies this
      ensures Follows(old(fs), old(states), RunRemoveFile(old(fs), p, os)) && ok == RunRemoveFile(old(fs), p, os).ok
    {
      if p !in fs {
        return true;
      }
      if fs[p].Dir? || 0 in os.failing {
        return false;
      }
      Commit(Remove(fs, p));
      return true;
    }

    method Perform(l: Layout, step: Step, os: OS) returns (ok: bool)
      modifies this
      ensures Follows(old(fs), old(states), RunStep(l, old(fs), step, os)) && ok == RunStep(l, old(fs), step, os).ok
    {
      if os.cancelled || Redirected(l, fs, step.path) {
        return false;
      }
      ghost var from := fs;
      match step.action
      case EnsureDir =>
        ok := EnsureDirectory(step.path, step.mode, Within(step.path, l.distRoot), os, 0);
      case ResetDir =>
        ok := RemoveDirectory(step.path, os);
        if ok {
          ok := EnsureDirectory(step.path, step.mode, true, os, 1);
        }
      case CopyFile =>
        ok := CopyVerified(step, os);
      case WriteFile =>
        ok := WriteAtomic(step.path, step.content, step.mode, os);
      case SwapLink =>
        ok := SwapLinkTo(step.path, step.target, os);
      case RemoveTree =>
        ok := RemoveDirectory(step.path, os);
      case PublishDir =>
        ok := Publish(step.path, step.target, os);
      case ExtractBundle =>
        ok := Extract(step, os);
      case RemoveFile =>
        ok := RemoveOne(step.path, os);
      case UnknownAction =>
        ok := true;
    }

    // ---- Applying a plan ----

    /** One more step of a run. */
    method PerformNext(l: Layout, steps: seq<Step>, os: nat -> OS, i: nat, ghost from: FS,
                       ghost history: seq<FS>) returns (ok: bool)
      requires i < |steps| && RunSteps(l, from, steps, os, i).ok
               && Follows(from, history, RunSteps(l, from, steps, os, i))
      modifies this
      ensures Follows(from, history, RunSteps(l, from, steps, os, i + 1))
              && ok == RunSteps(l, from, steps, os, i + 1).ok
    {
      ghost var r := RunSteps(l, from, steps, os, i);
      ok := Perform(l, steps[i], os(i));
      Joined(from, history, r, RunStep(l, Final(from, r), steps[i], os(i)), fs, states);
    }

    /** Runs steps until one fails; `moved` tells whether a link was swapped. */
    method PerformAll(l: Layout, steps: seq<Step>, os: nat -> OS) returns (ok: bool, moved: bool)
      modifies this
      ensures Follows(old(fs), old(states), RunSteps(l, old(fs), steps, os, |steps|))
              && ok == RunSteps(l, old(fs), steps, os, |steps|).ok
      ensures moved == LinkMoved(l, old(fs), steps, os, |steps|)
    {
      ghost var from, history := fs, states;
      ok, moved := true, false;
      for i := 0 to |steps|
        invariant RunSteps(l, from, steps, os, i).ok && Follows(from, history, RunSteps(l, from, steps, os, i))
        invariant moved == LinkMoved(l, from, steps, os, i)
      {
        ok := PerformNext(l, steps, os, i, from, history);
        if !ok {
          RunStops(l, from, steps, os, i + 1, |steps|);
          MovedStops(l, from, steps, os, i + 1, |steps|);
          return;
        }
        if steps[i].action == SwapLink {
          moved := true;
        }
      }
    }

    /** Restores the saved launchers in whatever order they come. */
    method RewriteLaunchers(saved: map<Path, Node>, order: seq<Path>, os: nat -> OS) returns (ok: bool)
      modifies this
      ensures Follows(old(fs), old(states), Rewrite(old(fs), saved, order, os, |order|))
              && ok == Rewrite(old(fs), saved, order, os, |order|).ok
    {
      ghost var from, history := fs, states;
      ok := true;
      for i := 0 to |order|
        invariant Rewrite(from, saved, order, os, i).ok && Follows(from, history, Rewrite(from, saved, order, os, i))
      {
        if order[i] in saved && saved[order[i]].File? {
          ghost var r := Rewrite(from, saved, order, os, i);
          ok := WriteAtomic(order[i], saved[order[i]].content, saved[order[i]].mode, os(i));
          ghost var x := RunWriteAtomic(Final(from, r), order[i], saved[order[i]].content, saved[order[i]].mode, os(i));
          Joined(from, history, r, x, fs, states);
          if !ok {
            RewriteStops(from, saved, order, os, i + 1, |order|);
            return false;
          }
        }
      }
      return true;
    }

    /** Asks the service manager for each action in turn, up to the first refusal. */
    method Ask(answers: nat -> bool, n: nat) returns (all: bool, first: bool)
      ensures all == AllDo(answers, n) && (!all ==> first == answers(0))
    {
      first := false;
      for i := 0 to n
        invariant AllDo(answers, i) && first == (i > 0)
      {
        if !answers(i) {
          return false, first;
        }
        first := true;
      }
      return true, first;
    }

    method RestoreUpgrade(plan: Plan, saved: map<Path, Node>, moved: bool, env: Env) returns (ok: bool)
      modifies this
      ensures Follows(old(fs), old(states), Restore(plan, old(fs), saved, moved, env))
              && ok == Restore(plan, old(fs), saved, moved, env).ok
    {
      ghost var from, history := fs, states;
      ghost var back := Relink(plan, fs, moved, env);
      if moved {
        ok := SwapLinkTo(plan.layout.current, Relative(["versions", plan.previous]), env.relink);
        if !ok {
          return;
        }
      }
      ghost var files := Rewrite(fs, saved, env.order, env.rewrite, |env.order|);
      ok := RewriteLaunchers(saved, env.order, env.rewrite);
      Joined(from, history, back, files, fs, states);
      if ok {
        var first: bool;
        ok, first := Ask(env.reload, |plan.after|);
      }
    }

    /** The launchers about to be rewritten, or nothing when one of them is not a regular file. */
    method SaveLaunchers(l: Layout, steps: seq<Step>) returns (saved: Option<map<Path, Node>>)
      ensures saved.Some? <==> LaunchersPresent(l, fs, steps)
      ensures saved.Some? ==> saved.value == SavedLaunchers(l, fs, steps)
    {
      var found: map<Path, Node> := map[];
      for i := 0 to |steps|
        invariant forall j | 0 <= j < i && IsLauncher(l, steps[j]) :: steps[j].path in found
        invariant forall p | p in found :: p in LauncherPaths(l, steps) && p in fs && fs[p].File? && found[p] == fs[p]
      {
        if IsLauncher(l, steps[i]) {
          var p := steps[i].path;
          if p !in fs || !fs[p].File? {
            return None;
          }
          found := found[p := fs[p]];
        }
      }
      return Some(found);
    }

    /** What runs while the services are down, and the reload. */
    method RunSwitch(plan: Plan, env: Env) returns (up: bool, linkMoved: bool)
      modifies this
      ensures var ran := RunSteps(plan.layout, old(fs), plan.steps, env.steps, |plan.steps|);
              Follows(old(fs), old(states), ran) && up == (ran.ok && AllDo(env.load, |plan.after|))
      ensures linkMoved == LinkMoved(plan.layout, old(fs), plan.steps, env.steps, |plan.steps|)
    {
      up, linkMoved := PerformAll(plan.layout, plan.steps, env.steps);
      if up {
        var first: bool;
        up, first := Ask(env.load, |plan.after|);
      }
    }

    /** The switch with its recovery. */
    method SwitchOver(plan: Plan, saved: map<Path, Node>, env: Env) returns (outcome: Outcome)
      modifies this
      ensures fs == Final(old(fs), Ran(Switch(plan, old(fs), saved, env).states, true))
      ensures states == old(states) + Switch(plan, old(fs), saved, env).states
              && outcome == Switch(plan, old(fs), saved, env).outcome
    {
      ghost var from, history := fs, states;
      ghost var ran := RunSteps(plan.layout, fs, plan.steps, env.steps, |plan.steps|);
      var up, linkMoved := RunSwitch(plan, env);
      if up {
        return Succeeded;
      }
      if !Recovers(plan) {
        return Failed;
      }
      ghost var restore := Restore(plan, fs, saved, linkMoved, env);
      var recovered := RestoreUpgrade(plan, saved, linkMoved, env);
      Joined(from, history, ran, restore, fs, states);
      return if recovered then Recovered else NotRecovered;
    }

    /** From the first unload to the last load, with recovery. */
    method Continue(plan: Plan, saved: map<Path, Node>, env: Env) returns (outcome: Outcome)
      modifies this
      ensures fs == Final(old(fs), Ran(Proceed(plan, old(fs), saved, env).states, true))
      ensures states == old(states) + Proceed(plan, old(fs), saved, env).states
              && outcome == Proceed(plan, old(fs), saved, env).outcome
    {
      var unloaded, some := Ask(env.unload, |plan.before|);
      if unloaded {
        outcome := SwitchOver(plan, saved, env);
      } else if some {
        var restored := RestoreUpgrade(plan, saved, false, env);
        return if restored then Recovered else NotRecovered;
      } else {
        return Failed;
      }
    }

    /** Applies a plan. */
    method ApplyPlan(plan: Plan, env: Env) returns (outcome: Outcome)
      modifies this
      ensures fs == Final(old(fs), Ran(Apply(plan, old(fs), env).states, true))
      ensures states == old(states) + Apply(plan, old(fs), env).states && outcome == Apply(plan, old(fs), env).outcome
    {
      var l := plan.layout;
      if !CheckPlan(plan) {
        return Failed;
      }
      if plan.kind == Noop {
        return if env.noopHolds then Succeeded else Failed;
      }
      if |plan.before| + |plan.after| > 0 && !env.manager {
        return Failed;
      }
      if plan.kind != Uninstall && Inspect(l, fs) != Some(plan.previous) {
        return Failed;
      }
      ghost var from, history := fs, states;
      ghost var prepared := RunSteps(l, fs, plan.prepare, env.prepare, |plan.prepare|);
      var ok, moved := PerformAll(l, plan.prepare, env.prepare);
      if !ok {
        return Failed;
      }
      var saved: map<Path, Node> := map[];
      if Recovers(plan) {
        var found := SaveLaunchers(l, plan.steps);
        if found.None? {
          return Failed;
        }
        saved := found.value;
      }
      ghost var rest := Proceed(plan, fs, saved, env);
      outcome := Continue(plan, saved, env);
      Joined(from, history, prepared, Ran(rest.states, true), fs, states);
    }
  }

  lemma {:induction false} RewriteStops(fs: FS, saved: map<Path, Node>, order: seq<Path>, os: nat -> OS, i: nat, n: nat)
    requires i <= n <= |order| && !Rewrite(fs, saved, order, os, i).ok
    ensures Rewrite(fs, saved, order, os, n) == Rewrite(fs, saved, order, os, i)
  {
    if i < n {
      RewriteStops(fs, saved, order, os, i, n - 1);
    }
  }

  lemma {:induction false} MovedStops(l: Layout, fs: FS, steps: seq<Step>, os: nat -> OS, i: nat, n: nat)
    requires i <= n <= |steps| && !RunSteps(l, fs, steps, os, i).ok
    ensures LinkMoved(l, fs, steps, os, n) == LinkMoved(l, fs, steps, os, i)
  {
    if i < n {
      MovedStops(l, fs, steps, os, i, n - 1);
      RunStops(l, fs, steps, os, i, n);
    }
  }

  lemma Joined(from: FS, history: seq<FS>, r: Ran, x: Ran, fs: FS, states: seq<FS>)
    requires fs == Final(Final(from, r), x) && states == (history + r.states) + x.states
    ensures fs == Final(from, Ran(r.states + x.states, x.ok)) && states == history + (r.states + x.states)
  {
  }
}
