/** What a recovered upgrade leaves behind, and what a successful one installs. */
module UpgradeRecovery {
  import opened Versions
  import opened VersionOrder
  import opened InstallPlan
  import opened InstallPlanner
  import opened FileSystem
  import opened Installer
  import opened InstallContainment
  import opened ReleaseTree
  import opened UpgradeSafety

  function EndState(fs: FS, applied: Applied): FS {
    Final(fs, Ran(applied.states, true))
  }

  // ---- Restoring launchers and link ----

  lemma WriteOk(fs: FS, p: Path, content: string, mode: Mode, os: OS)
    requires RunWriteAtomic(fs, p, content, mode, os).ok
    ensures Final(fs, RunWriteAtomic(fs, p, content, mode, os)) == fs[p := File(content, mode)]
  {
  }

  lemma {:induction false} RewriteRestores(fs: FS, saved: map<Path, Node>, order: seq<Path>, os: nat -> OS, n: nat,
                                           i: nat)
    requires i < n <= |order| && Rewrite(fs, saved, order, os, n).ok && order[i] in saved && saved[order[i]].File?
    ensures var g := Final(fs, Rewrite(fs, saved, order, os, n)); order[i] in g && g[order[i]] == saved[order[i]]
  {
    var r := Rewrite(fs, saved, order, os, n - 1);
    if i < n - 1 {
      RewriteRestores(fs, saved, order, os, n - 1, i);
    }
    var q := order[n - 1];
    if q in saved && saved[q].File? {
      var x := RunWriteAtomic(Final(fs, r), q, saved[q].content, saved[q].mode, os(n - 1));
      WriteOk(Final(fs, r), q, saved[q].content, saved[q].mode, os(n - 1));
      assert Final(fs, Ran(r.states + x.states, x.ok)) == Final(Final(fs, r), x);
    }
  }

  lemma RewriteAll(fs: FS, saved: map<Path, Node>, order: seq<Path>, os: nat -> OS, p: Path)
    requires Rewrite(fs, saved, order, os, |order|).ok && p in saved && saved[p].File? && p in order
    ensures var g := Final(fs, Rewrite(fs, saved, order, os, |order|)); p in g && g[p] == saved[p]
  {
    var i :| 0 <= i < |order| && order[i] == p;
    RewriteRestores(fs, saved, order, os, |order|, i);
  }

  lemma RestoreEnd(plan: Plan, g: FS, saved: map<Path, Node>, moved: bool, env: Env)
    requires Restore(plan, g, saved, moved, env).ok
    ensures var back := Relink(plan, g, moved, env);
            var files := Rewrite(Final(g, back), saved, env.order, env.rewrite, |env.order|);
            back.ok && files.ok && Final(g, Restore(plan, g, saved, moved, env)) == Final(Final(g, back), files)
  {
    var back := Relink(plan, g, moved, env);
    var files := Rewrite(Final(g, back), saved, env.order, env.rewrite, |env.order|);
    assert Final(g, Ran(back.states + files.states, true)) == Final(Final(g, back), files);
  }

  lemma RestoreLaunchers(plan: Plan, g: FS, saved: map<Path, Node>, moved: bool, env: Env, p: Path)
    requires Restore(plan, g, saved, moved, env).ok && p in saved && saved[p].File? && p in env.order
    ensures var end := Final(g, Restore(plan, g, saved, moved, env)); p in end && end[p] == saved[p]
  {
    RestoreEnd(plan, g, saved, moved, env);
    RewriteAll(Final(g, Relink(plan, g, moved, env)), saved, env.order, env.rewrite, p);
  }

  lemma SwapOk(fs: FS, link: Path, target: Target, os: OS)
    requires RunSwapLink(fs, link, target, os).ok
    ensures var g := Final(fs, RunSwapLink(fs, link, target, os)); link in g && g[link] == Link(target)
  {
  }

  /** A successful recovery puts a moved link back and otherwise leaves the link where it stopped. */
  lemma RestoreLinkEnd(plan: Plan, g: FS, saved: map<Path, Node>, moved: bool, env: Env)
    requires ValidLayout(plan.layout) && Restore(plan, g, saved, moved, env).ok
    requires forall q | q in saved :: Parent(q) == plan.layout.unitDir
    ensures var end := Final(g, Restore(plan, g, saved, moved, env)); var link := plan.layout.current;
            if moved then link in end && end[link] == LinkTo(plan.previous) else SameAt(g, end, link)
  {
    var l := plan.layout;
    CurrentApart(l);
    RestoreEnd(plan, g, saved, moved, env);
    if moved {
      SwapOk(g, l.current, Relative(["versions", plan.previous]), env.relink);
    }
    var mid := Final(g, Relink(plan, g, moved, env));
    RewriteKeeps(mid, saved, env.order, env.rewrite, |env.order|, l.current);
    KeepsFinal(mid, Rewrite(mid, saved, env.order, env.rewrite, |env.order|), l.current);
  }

  // ---- Where the switch stopped ----

  /** The link swap gets as far as renaming the new link into place and then cannot sync the directory. */
  predicate SyncFails(l: Layout, fs: FS, os: OS) {
    && !os.cancelled && !Redirected(l, fs, l.current)
    && l.current != [] && (l.current in fs ==> fs[l.current].Link?)
    && !(NextLink(l.current) in fs && (0 in os.failing || HasChildren(fs, NextLink(l.current))))
    && 1 !in os.failing && IsDir(fs, Parent(l.current)) && 2 !in os.failing
    && LINK_SYNC in os.failing
  }

  lemma SwapFailure(fs: FS, link: Path, target: Target, os: OS)
    requires link != [] && !RunSwapLink(fs, link, target, os).ok
    ensures var g := Final(fs, RunSwapLink(fs, link, target, os));
            if |RunSwapLink(fs, link, target, os).states| == 3 && 2 !in os.failing
            then link in g && g[link] == Link(target)
            else SameAt(fs, g, link)
  {
    var next := NextLink(link);
    assert |next[|next| - 1]| != |link[|link| - 1]|;
    assert next != link;
  }

  lemma SyncFailsLate(l: Layout, version: string, fs: FS, os: OS)
    requires ValidLayout(l) && !RunStep(l, fs, LinkStep(l, version), os).ok
    ensures var target := Relative(["versions", version]);
            SyncFails(l, fs, os) <==> !os.cancelled && !Redirected(l, fs, l.current)
                                      && |RunSwapLink(fs, l.current, target, os).states| == 3 && 2 !in os.failing
  {
  }

  /** A failed swap leaves the old link, except when only its final sync failed. */
  lemma FailedSwap(l: Layout, version: string, fs: FS, os: OS)
    requires ValidLayout(l) && !RunStep(l, fs, LinkStep(l, version), os).ok
    ensures var g := Final(fs, RunStep(l, fs, LinkStep(l, version), os));
            if SyncFails(l, fs, os) then l.current in g && g[l.current] == LinkTo(version) else SameAt(fs, g, l.current)
  {
    SyncFailsLate(l, version, fs, os);
    if !os.cancelled && !Redirected(l, fs, l.current) {
      SwapFailure(fs, l.current, Relative(["versions", version]), os);
    }
  }

  lemma SwapStepOk(l: Layout, version: string, fs: FS, os: OS)
    requires RunStep(l, fs, LinkStep(l, version), os).ok
    ensures !SyncFails(l, fs, os)
  {
  }

  /**
   * Only the first step of a planned switch swaps a link, so the link is known to have moved exactly when that step
   * succeeded.
   */
  lemma {:induction false} MovedFirst(plan: Plan, ready: FS, os: nat -> OS, n: nat)
    requires SwitchShape(plan) && 0 < n <= |plan.steps|
    ensures LinkMoved(plan.layout, ready, plan.steps, os, n) <==> RunSteps(plan.layout, ready, plan.steps, os, 1).ok
  {
    if n > 1 {
      MovedFirst(plan, ready, os, n - 1);
      assert plan.steps[n - 1].action == WriteFile;
    } else {
      assert plan.steps[0].action == SwapLink;
      assert !LinkMoved(plan.layout, ready, plan.steps, os, 0);
    }
  }

  /** Where the link stands when the switch stops, and whether the installer knows that it moved. */
  lemma Stopped(plan: Plan, ready: FS, os: nat -> OS)
    requires SwitchShape(plan)
    ensures var ran := RunSteps(plan.layout, ready, plan.steps, os, |plan.steps|);
            var moved := LinkMoved(plan.layout, ready, plan.steps, os, |plan.steps|);
            var g := Final(ready, ran); var link := plan.layout.current;
            && (moved ==> !SyncFails(plan.layout, ready, os(0)))
            && (!moved && !SyncFails(plan.layout, ready, os(0)) ==> SameAt(ready, g, link))
            && (!moved && SyncFails(plan.layout, ready, os(0)) ==> link in g && g[link] == LinkTo(plan.version))
  {
    var l := plan.layout;
    assert plan.steps[0] == LinkStep(l, plan.version);
    MovedFirst(plan, ready, os, |plan.steps|);
    FirstStep(l, ready, plan.steps, os);
    if RunSteps(l, ready, plan.steps, os, 1).ok {
      SwapStepOk(l, plan.version, ready, os(0));
    } else {
      RunStops(l, ready, plan.steps, os, 1, |plan.steps|);
      FailedSwap(l, plan.version, ready, os(0));
    }
  }

  lemma FirstStep(l: Layout, fs: FS, steps: seq<Step>, os: nat -> OS)
    requires |steps| > 0
    ensures RunSteps(l, fs, steps, os, 1) == RunStep(l, fs, steps[0], os(0))
  {
    assert RunSteps(l, fs, steps, os, 0) == Ran([], true);
    var x := RunStep(l, fs, steps[0], os(0));
    assert [] + x.states == x.states;
  }

  // ---- Recovered upgrades ----

  /** The recovery iterates over every launcher it saved. */
  predicate Covers(env: Env, saved: map<Path, Node>) {
    forall p | p in saved :: p in env.order
  }

  lemma RecoveringEnd(fs: FS, ran: Ran, restored: Ran)
    ensures EndState(fs, Recovering(ran.states, restored)) == Final(Final(fs, ran), restored)
  {
  }

  /**
   * Every saved launcher is back, and the link is back exactly when it was not moved by a swap that then failed to
   * sync.
   */
  ghost predicate Restored(plan: Plan, ready: FS, saved: map<Path, Node>, late: bool, end: FS) {
    && (forall p | p in saved :: p in end && end[p] == saved[p])
    && (late ==> plan.layout.current in end && end[plan.layout.current] == LinkTo(plan.version))
    && (!late ==> SameAt(ready, end, plan.layout.current))
  }

  lemma SwitchRecovered(plan: Plan, ready: FS, saved: map<Path, Node>, env: Env)
    requires SwitchShape(plan) && Covers(env, saved)
    requires forall q | q in saved :: Parent(q) == plan.layout.unitDir && saved[q].File?
    requires plan.layout.current in ready && ready[plan.layout.current] == LinkTo(plan.previous)
    requires Switch(plan, ready, saved, env).outcome == Recovered
    ensures Restored(plan, ready, saved, SyncFails(plan.layout, ready, env.steps(0)),
                     EndState(ready, Switch(plan, ready, saved, env)))
  {
    var l := plan.layout;
    var ran := RunSteps(l, ready, plan.steps, env.steps, |plan.steps|);
    var moved := LinkMoved(l, ready, plan.steps, env.steps, |plan.steps|);
    var stopped := Final(ready, ran);
    var restored := Restore(plan, stopped, saved, moved, env);
    RecoveringEnd(ready, ran, restored);
    Stopped(plan, ready, env.steps);
    RestoreLinkEnd(plan, stopped, saved, moved, env);
    forall p | p in saved ensures p in Final(stopped, restored) && Final(stopped, restored)[p] == saved[p] {
      RestoreLaunchers(plan, stopped, saved, moved, env, p);
    }
  }

  lemma UnloadRecovered(plan: Plan, ready: FS, saved: map<Path, Node>, env: Env)
    requires ValidLayout(plan.layout) && Covers(env, saved)
    requires forall q | q in saved :: Parent(q) == plan.layout.unitDir && saved[q].File?
    requires Restore(plan, ready, saved, false, env).ok
    ensures Restored(plan, ready, saved, false,
                     EndState(ready, Recovering([], Restore(plan, ready, saved, false, env))))
  {
    RecoveringEnd(ready, Ran([], true), Restore(plan, ready, saved, false, env));
    RestoreLinkEnd(plan, ready, saved, false, env);
    forall p | p in saved ensures p in Final(ready, Restore(plan, ready, saved, false, env))
                               && Final(ready, Restore(plan, ready, saved, false, env))[p] == saved[p] {
      RestoreLaunchers(plan, ready, saved, false, env, p);
    }
  }

  /** The services were unloaded and the new link was renamed into place by a swap that then failed to sync. */
  predicate LateSwap(plan: Plan, ready: FS, env: Env) {
    AllDo(env.unload, |plan.before|) && SyncFails(plan.layout, ready, env.steps(0))
  }

  lemma ProceedRecovered(plan: Plan, ready: FS, saved: map<Path, Node>, env: Env)
    requires SwitchShape(plan) && Covers(env, saved)
    requires forall q | q in saved :: Parent(q) == plan.layout.unitDir && saved[q].File?
    requires plan.layout.current in ready && ready[plan.layout.current] == LinkTo(plan.previous)
    requires Proceed(plan, ready, saved, env).outcome == Recovered
    ensures Restored(plan, ready, saved, LateSwap(plan, ready, env), EndState(ready, Proceed(plan, ready, saved, env)))
  {
    if AllDo(env.unload, |plan.before|) {
      SwitchRecovered(plan, ready, saved, env);
    } else {
      UnloadRecovered(plan, ready, saved, env);
    }
  }

  /** The state the preparation of a plan leaves for the switch. */
  function Ready(plan: Plan, fs: FS, env: Env): FS {
    Final(fs, RunSteps(plan.layout, fs, plan.prepare, env.prepare, |plan.prepare|))
  }

  /** An application that got past its preparation ends where the rest of it ends. */
  lemma EndsWithRest(plan: Plan, fs: FS, env: Env)
    requires Apply(plan, fs, env).outcome != Failed && plan.kind != Noop
    ensures Admissible(plan, fs, env)
            && (Recovers(plan) ==> LaunchersPresent(plan.layout, Ready(plan, fs, env), plan.steps))
    ensures var rest := Proceed(plan, Ready(plan, fs, env), SavedFor(plan, Ready(plan, fs, env)), env);
            Apply(plan, fs, env).outcome == rest.outcome
              && EndState(fs, Apply(plan, fs, env)) == EndState(Ready(plan, fs, env), rest)
  {
    var prepared := RunSteps(plan.layout, fs, plan.prepare, env.prepare, |plan.prepare|);
    var rest := Proceed(plan, Ready(plan, fs, env), SavedFor(plan, Ready(plan, fs, env)), env);
    ThenEnd(fs, prepared, Recovers(plan) ==> LaunchersPresent(plan.layout, Ready(plan, fs, env), plan.steps), rest);
  }

  lemma ThenEnd(fs: FS, prepared: Ran, found: bool, rest: Applied)
    ensures prepared.ok && found ==> EndState(fs, Then(prepared, found, rest)) == EndState(Final(fs, prepared), rest)
  {
  }

  lemma ReadyKeeps(plan: Plan, input: InstallInput, dirs: seq<Path>, fs: FS, env: Env, p: Path)
    requires IsInstallation(plan, input, dirs) && Relied(plan.layout, plan.version, p)
    ensures SameAt(fs, Ready(plan, fs, env), p)
  {
    PrepareKeeps(plan, input, dirs, fs, env.prepare, p);
    KeepsFinal(fs, RunSteps(plan.layout, fs, plan.prepare, env.prepare, |plan.prepare|), p);
  }

  lemma SavedWhole(plan: Plan, ready: FS)
    requires Recovers(plan) && LaunchersPresent(plan.layout, ready, plan.steps)
    ensures forall p :: p in SavedFor(plan, ready) <==>
              exists s :: s in plan.steps && IsLauncher(plan.layout, s) && s.path == p
    ensures forall p | p in SavedFor(plan, ready) ::
              p in ready && SavedFor(plan, ready)[p] == ready[p] && ready[p].File?
  {
  }

  /**
   * If an upgrade fails after services were unloaded and recovery succeeds, every launcher it rewrites is as it was
   * before the upgrade, and so is the active link, unless the link swap itself failed only in its final sync: then the
   * installer does not know that the link moved, and the new release stays active beside the old launchers.
   */
  lemma RecoveredExactly(plan: Plan, input: InstallInput, dirs: seq<Path>, fs: FS, env: Env)
    requires IsInstallation(plan, input, dirs) && plan.kind == Upgrade && Apply(plan, fs, env).outcome == Recovered
    requires Covers(env, SavedFor(plan, Ready(plan, fs, env)))
    ensures var end := EndState(fs, Apply(plan, fs, env));
            && (forall s | s in plan.steps && IsLauncher(plan.layout, s) :: SameAt(fs, end, s.path))
            && (SameAt(fs, end, plan.layout.current) <==> !LateSwap(plan, Ready(plan, fs, env), env))
  {
    var l, ready := plan.layout, Ready(plan, fs, env);
    var saved := SavedFor(plan, ready);
    EndsWithRest(plan, fs, env);
    UpgradeLink(plan, input, dirs, fs, env);
    ReadyKeeps(plan, input, dirs, fs, env, l.current);
    SavedWhole(plan, ready);
    SavedAreLaunchers(plan, ready);
    InstallationShape(plan, input, dirs);
    ProceedRecovered(plan, ready, saved, env);
    LinksDiffer(plan);
    var end := EndState(fs, Apply(plan, fs, env));
    forall s | s in plan.steps && IsLauncher(l, s) ensures SameAt(fs, end, s.path) {
      assert s.path in saved;
      LauncherRelied(plan, s);
      ReadyKeeps(plan, input, dirs, fs, env, s.path);
    }
  }

  lemma LauncherRelied(plan: Plan, s: Step)
    requires IsLauncher(plan.layout, s) && ValidLayout(plan.layout)
    ensures Relied(plan.layout, plan.version, s.path)
  {
    assert plan.layout.unitDir != [] by {
      assert !Within(plan.layout.distRoot, plan.layout.unitDir);
    }
  }

  lemma LinksDiffer(plan: Plan)
    requires plan.kind == Upgrade && KindFor(plan.kind, plan.version, plan.previous) && Matches(plan.version)
    ensures plan.version != plan.previous && LinkTo(plan.version) != LinkTo(plan.previous)
  {
    CompareTotal(plan.version, plan.version);
    assert ["versions", plan.version][1] == plan.version && ["versions", plan.previous][1] == plan.previous;
  }

  /** A failed application puts every launcher back and reloads, starting where the switch stopped. */
  predicate LaunchersComeBack(plan: Plan, ready: FS, saved: map<Path, Node>, env: Env) {
    var stopped := Final(ready, RunSteps(plan.layout, ready, plan.steps, env.steps, |plan.steps|));
    Rewrite(stopped, saved, env.order, env.rewrite, |env.order|).ok && AllDo(env.reload, |plan.after|)
  }

  /**
   * Whenever the swap of an upgrade fails in its final sync, the application is reported as recovered exactly when the
   * launchers come back, and the new link stays.
   */
  lemma LateSwapUnnoticed(plan: Plan, ready: FS, saved: map<Path, Node>, env: Env)
    requires SwitchShape(plan) && Recovers(plan) && SyncFails(plan.layout, ready, env.steps(0))
    requires forall q | q in saved :: Parent(q) == plan.layout.unitDir
    ensures var done, link := Switch(plan, ready, saved, env), plan.layout.current;
            && (done.outcome == Recovered <==> LaunchersComeBack(plan, ready, saved, env))
            && (done.outcome == Recovered ==>
                  link in EndState(ready, done) && EndState(ready, done)[link] == LinkTo(plan.version))
  {
    var l := plan.layout;
    var ran := RunSteps(l, ready, plan.steps, env.steps, |plan.steps|);
    var moved := LinkMoved(l, ready, plan.steps, env.steps, |plan.steps|);
    Stopped(plan, ready, env.steps);
    MovedFirst(plan, ready, env.steps, |plan.steps|);
    assert !moved;
    RunStops(l, ready, plan.steps, env.steps, 1, |plan.steps|);
    var stopped := Final(ready, ran);
    var restored := Restore(plan, stopped, saved, false, env);
    assert Relink(plan, stopped, false, env) == Ran([], true);
    RecoveringEnd(ready, ran, restored);
    if restored.ok {
      RestoreLinkEnd(plan, stopped, saved, false, env);
    }
  }

  lemma LateSwapProceeds(plan: Plan, ready: FS, saved: map<Path, Node>, env: Env)
    requires AllDo(env.unload, |plan.before|)
    ensures Proceed(plan, ready, saved, env) == Switch(plan, ready, saved, env)
  {
  }

  lemma AppliedRest(plan: Plan, fs: FS, env: Env)
    requires Admissible(plan, fs, env) && plan.kind != Noop
    requires RunSteps(plan.layout, fs, plan.prepare, env.prepare, |plan.prepare|).ok
    requires Recovers(plan) ==> LaunchersPresent(plan.layout, Ready(plan, fs, env), plan.steps)
    ensures Apply(plan, fs, env).outcome
            == Proceed(plan, Ready(plan, fs, env), SavedFor(plan, Ready(plan, fs, env)), env).outcome
  {
  }

  /**
   * So a planned upgrade that unloaded its services and then failed in that sync is reported as recovered, with the new
   * release active and the old launchers in place.
   */
  lemma LateSwapRecovered(plan: Plan, input: InstallInput, dirs: seq<Path>, fs: FS, env: Env)
    requires IsInstallation(plan, input, dirs) && plan.kind == Upgrade && Admissible(plan, fs, env)
    requires RunSteps(plan.layout, fs, plan.prepare, env.prepare, |plan.prepare|).ok
    requires var ready := Ready(plan, fs, env);
             && LaunchersPresent(plan.layout, ready, plan.steps) && LateSwap(plan, ready, env)
             && LaunchersComeBack(plan, ready, SavedFor(plan, ready), env)
    ensures var applied, link := Apply(plan, fs, env), plan.layout.current;
            && applied.outcome == Recovered
            && link in EndState(fs, applied) && EndState(fs, applied)[link] == LinkTo(plan.version)
            && !SameAt(fs, EndState(fs, applied), link)
  {
    var ready := Ready(plan, fs, env);
    InstallationShape(plan, input, dirs);
    SavedAreLaunchers(plan, ready);
    LateSwapUnnoticed(plan, ready, SavedFor(plan, ready), env);
    LateSwapProceeds(plan, ready, SavedFor(plan, ready), env);
    AppliedRest(plan, fs, env);
    EndsWithRest(plan, fs, env);
    UpgradeLink(plan, input, dirs, fs, env);
    LinksDiffer(plan);
  }

  // ---- Successful installs ----

  /** After the first k switch steps the link names the new release and the first launchers are written. */
  ghost predicate Switched(plan: Plan, units: seq<Unit>, k: nat, g: FS) {
    && (k > 0 ==> plan.layout.current in g && g[plan.layout.current] == LinkTo(plan.version))
    && forall j | 0 <= j < k - 1 && j < |units| ::
         UnitPath(plan.layout, units[j]) in g && g[UnitPath(plan.layout, units[j])] == File(units[j].content, FILE_MODE)
  }

  lemma UnitPathsDiffer(l: Layout, u: Unit, v: Unit)
    requires ValidLayout(l) && u.service != v.service
    ensures UnitPath(l, u) != UnitPath(l, v) && UnitPath(l, u) != l.current
  {
    var suffix := if l.manager == SystemdUser then ".service" else ".plist";
    assert UnitFileName(l.manager, u.service) == u.service + suffix
           && UnitFileName(l.manager, v.service) == v.service + suffix;
    assert (u.service + suffix)[..|u.service|] == u.service && (v.service + suffix)[..|v.service|] == v.service;
    assert UnitPath(l, u)[|l.unitDir|] == u.service + suffix && UnitPath(l, v)[|l.unitDir|] == v.service + suffix;
    CurrentApart(l);
    assert Parent(UnitPath(l, u)) == l.unitDir;
  }

  lemma LauncherWritten(plan: Plan, units: seq<Unit>, k: nat, g: FS, g': FS)
    requires ValidLayout(plan.layout) && ValidUnits(units) && 0 < k <= |units| && Switched(plan, units, k, g)
    requires g' == g[UnitPath(plan.layout, units[k - 1]) := File(units[k - 1].content, FILE_MODE)]
    ensures Switched(plan, units, k + 1, g')
  {
    var l, u := plan.layout, units[k - 1];
    CurrentApart(l);
    assert Parent(UnitPath(l, u)) == l.unitDir;
    forall j | 0 <= j < k - 1 ensures UnitPath(l, units[j]) != UnitPath(l, u) {
      UnitPathsDiffer(l, units[j], u);
    }
  }

  lemma WriteStepOk(l: Layout, g: FS, path: Path, content: string, os: OS)
    requires RunStep(l, g, WriteStep(path, content), os).ok
    ensures Final(g, RunStep(l, g, WriteStep(path, content), os)) == g[path := File(content, FILE_MODE)]
  {
    WriteOk(g, path, content, FILE_MODE, os);
  }

  lemma LinkStepOk(l: Layout, version: string, g: FS, os: OS)
    requires RunStep(l, g, LinkStep(l, version), os).ok
    ensures var g' := Final(g, RunStep(l, g, LinkStep(l, version), os));
            l.current in g' && g'[l.current] == LinkTo(version)
  {
    SwapOk(g, l.current, Relative(["versions", version]), os);
  }

  function SwitchStep(l: Layout, version: string, units: seq<Unit>, k: nat): Step
    requires k <= |units|
  {
    if k == 0 then LinkStep(l, version) else WriteStep(UnitPath(l, units[k - 1]), units[k - 1].content)
  }

  lemma SwitchedStep(plan: Plan, units: seq<Unit>, k: nat, g: FS, os: OS)
    requires ValidLayout(plan.layout) && ValidUnits(units) && k <= |units| && Switched(plan, units, k, g)
    requires RunStep(plan.layout, g, SwitchStep(plan.layout, plan.version, units, k), os).ok
    ensures Switched(plan, units, k + 1,
                     Final(g, RunStep(plan.layout, g, SwitchStep(plan.layout, plan.version, units, k), os)))
  {
    var l := plan.layout;
    if k == 0 {
      LinkStepOk(l, plan.version, g, os);
    } else {
      WriteStepOk(l, g, UnitPath(l, units[k - 1]), units[k - 1].content, os);
      LauncherWritten(plan, units, k, g,
                      Final(g, RunStep(l, g, WriteStep(UnitPath(l, units[k - 1]), units[k - 1].content), os)));
    }
  }

  lemma EachSwitches(plan: Plan, units: seq<Unit>, os: nat -> OS)
    requires ValidLayout(plan.layout) && ValidUnits(units)
    requires plan.steps == [LinkStep(plan.layout, plan.version)] + UnitSteps(plan.layout, units)
    ensures forall k, g | 0 <= k < |plan.steps| && Switched(plan, units, k, g)
            && RunStep(plan.layout, g, plan.steps[k], os(k)).ok ::
              Switched(plan, units, k + 1, Final(g, RunStep(plan.layout, g, plan.steps[k], os(k))))
  {
    forall k, g | 0 <= k < |plan.steps| && Switched(plan, units, k, g)
      && RunStep(plan.layout, g, plan.steps[k], os(k)).ok
      ensures Switched(plan, units, k + 1, Final(g, RunStep(plan.layout, g, plan.steps[k], os(k))))
    {
      assert plan.steps[k] == SwitchStep(plan.layout, plan.version, units, k);
      SwitchedStep(plan, units, k, g, os(k));
    }
  }

  lemma AllSwitched(plan: Plan, units: seq<Unit>, ready: FS, os: nat -> OS)
    requires ValidLayout(plan.layout) && ValidUnits(units)
    requires plan.steps == [LinkStep(plan.layout, plan.version)] + UnitSteps(plan.layout, units)
    requires RunSteps(plan.layout, ready, plan.steps, os, |plan.steps|).ok
    ensures Switched(plan, units, |plan.steps|,
                     Final(ready, RunSteps(plan.layout, ready, plan.steps, os, |plan.steps|)))
  {
    EachSwitches(plan, units, os);
    Along(plan.layout, ready, plan.steps, os, |plan.steps|, (k: nat, g: FS) => Switched(plan, units, k, g));
  }

  /** A successful application activates the new release, fully published, with every launcher as planned. */
  lemma SuccessInstalls(plan: Plan, input: InstallInput, dirs: seq<Path>, fs: FS, env: Env)
    requires IsInstallation(plan, input, dirs) && Apply(plan, fs, env).outcome == Succeeded
    ensures var end := EndState(fs, Apply(plan, fs, env));
            && plan.layout.current in end && end[plan.layout.current] == LinkTo(plan.version)
            && forall u | u in input.units.value ::
                 UnitPath(plan.layout, u) in end && end[UnitPath(plan.layout, u)] == File(u.content, FILE_MODE)
    ensures WellFormed(fs) ==>
            HasTree(EndState(fs, Apply(plan, fs, env)), plan.layout.VersionDir(plan.version),
                    ManifestTree(input.manifest))
  {
    if WellFormed(fs) {
      InstalledTree(plan, input, dirs, fs, env);
    }
    var ready := Ready(plan, fs, env);
    EndsWithRest(plan, fs, env);
    SwitchSucceeded(plan, ready, SavedFor(plan, ready), env);
    AllSwitched(plan, input.units.value, ready, env.steps);
  }

  lemma InstalledTree(plan: Plan, input: InstallInput, dirs: seq<Path>, fs: FS, env: Env)
    requires IsInstallation(plan, input, dirs) && WellFormed(fs) && Apply(plan, fs, env).outcome == Succeeded
    ensures HasTree(EndState(fs, Apply(plan, fs, env)), plan.layout.VersionDir(plan.version),
                    ManifestTree(input.manifest))
  {
    var ready := Ready(plan, fs, env);
    var states := Proceed(plan, ready, SavedFor(plan, ready), env).states;
    EndsWithRest(plan, fs, env);
    ReadyTree(plan, input, dirs, fs, env);
    if states != [] {
      SavedAreLaunchers(plan, ready);
      InstallationShape(plan, input, dirs);
      ProceedTree(plan, ready, SavedFor(plan, ready), env, |states| - 1, ManifestTree(input.manifest));
    }
  }

  lemma ReadyTree(plan: Plan, input: InstallInput, dirs: seq<Path>, fs: FS, env: Env)
    requires IsInstallation(plan, input, dirs) && WellFormed(fs) && Apply(plan, fs, env).outcome == Succeeded
    ensures HasTree(Ready(plan, fs, env), plan.layout.VersionDir(plan.version), ManifestTree(input.manifest))
  {
    PreparedState(plan, input, dirs, fs, env, RunSteps(plan.layout, fs, plan.prepare, env.prepare, |plan.prepare|));
  }

  lemma SwitchSucceeded(plan: Plan, ready: FS, saved: map<Path, Node>, env: Env)
    requires Proceed(plan, ready, saved, env).outcome == Succeeded
    ensures var ran := RunSteps(plan.layout, ready, plan.steps, env.steps, |plan.steps|);
            ran.ok && EndState(ready, Proceed(plan, ready, saved, env)) == Final(ready, ran)
  {
  }
}
