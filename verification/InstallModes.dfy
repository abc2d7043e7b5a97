/** No application of a checked plan makes a file or directory that others may write. */
module InstallModes {
  import opened InstallPlan
  import opened FileSystem
  import opened Installer
  import opened InstallContainment

  /** A link, or a node with no permission beyond reading and running it, and writing it for its owner. */
  predicate Tidy(n: Node) {
    n.Link? || n.mode & !0x1ED == 0
  }

  ghost predicate Known(fs: FS, n: Node) {
    exists p :: p in fs && fs[p] == n
  }

  /** Every node of a state is tidy or was on the disk already, perhaps elsewhere. */
  ghost predicate Derived(fs: FS, g: FS) {
    forall p | p in g :: Tidy(g[p]) || Known(fs, g[p])
  }

  ghost predicate AllDerived(fs: FS, states: seq<FS>) {
    forall i | 0 <= i < |states| :: Derived(fs, states[i])
  }

  lemma DerivedSelf(fs: FS)
    ensures Derived(fs, fs)
  {
  }

  lemma DerivedTrans(fs: FS, g: FS, h: FS)
    requires Derived(fs, g) && Derived(g, h)
    ensures Derived(fs, h)
  {
    forall p | p in h && !Tidy(h[p]) ensures Known(fs, h[p]) {
      var q :| q in g && g[q] == h[p];
    }
  }

  lemma DerivedFinal(fs: FS, ran: Ran)
    requires AllDerived(fs, ran.states)
    ensures Derived(fs, Final(fs, ran))
  {
    DerivedSelf(fs);
  }

  lemma DerivedAppend(fs: FS, states: seq<FS>, g: FS, more: seq<FS>)
    requires AllDerived(fs, states) && Derived(fs, g) && AllDerived(g, more)
    ensures AllDerived(fs, states + more)
  {
    forall i | 0 <= i < |states + more| ensures Derived(fs, (states + more)[i]) {
      if i >= |states| {
        DerivedTrans(fs, g, more[i - |states|]);
      }
    }
  }

  // ---- Steps ----

  lemma {:induction false} MkdirDerived(fs: FS, p: Path, mode: Mode)
    requires MkdirAll(fs, p, mode).Some? && mode & !0x1ED == 0
    ensures Derived(fs, MkdirAll(fs, p, mode).value)
    decreases |p|
  {
    if p !in fs {
      MkdirDerived(fs, Parent(p), mode);
    }
  }

  lemma EnsureDerived(fs: FS, p: Path, mode: Mode, owned: bool, os: OS, call: nat)
    requires mode & !0x1ED == 0
    ensures AllDerived(fs, RunEnsureDir(fs, p, mode, owned, os, call).states)
  {
    if MkdirAll(fs, p, mode).Some? {
      MkdirDerived(fs, p, mode);
    }
  }

  lemma RemoveDerived(fs: FS, p: Path, os: OS)
    ensures AllDerived(fs, RunRemoveTree(fs, p, os).states) && AllDerived(fs, RunRemoveFile(fs, p, os).states)
  {
  }

  lemma ResetDerived(fs: FS, p: Path, mode: Mode, os: OS)
    requires mode & !0x1ED == 0
    ensures AllDerived(fs, RunResetDir(fs, p, mode, os).states)
  {
    var removed := RunRemoveTree(fs, p, os);
    RemoveDerived(fs, p, os);
    DerivedFinal(fs, removed);
    if removed.ok {
      var mid := Final(fs, removed);
      EnsureDerived(mid, p, mode, true, os, 1);
      DerivedAppend(fs, removed.states, mid, RunEnsureDir(mid, p, mode, true, os, 1).states);
    }
  }

  lemma CopyDerived(fs: FS, step: Step, os: OS)
    requires step.mode & !0x1ED == 0
    ensures AllDerived(fs, RunCopyFile(fs, step, os).states)
  {
  }

  lemma WriteDerived(fs: FS, p: Path, content: string, mode: Mode, os: OS)
    requires mode & !0x1ED == 0 || Known(fs, File(content, mode))
    ensures AllDerived(fs, RunWriteAtomic(fs, p, content, mode, os).states)
  {
  }

  lemma SwapDerived(fs: FS, link: Path, target: Target, os: OS)
    ensures AllDerived(fs, RunSwapLink(fs, link, target, os).states)
  {
  }

  lemma PublishDerived(fs: FS, source: Path, target: Target, os: OS)
    ensures AllDerived(fs, RunPublishDir(fs, source, target, os).states)
  {
  }

  /** A step whose mode is tidy, and which unpacks no bundle, makes only tidy nodes. */
  lemma StepDerived(l: Layout, fs: FS, step: Step, os: OS)
    requires step.mode & !0x1ED == 0 && step.action != ExtractBundle
    ensures AllDerived(fs, RunStep(l, fs, step, os).states)
  {
    if !os.cancelled && !Redirected(l, fs, step.path) {
      EnsureDerived(fs, step.path, step.mode, Within(step.path, l.distRoot), os, 0);
      ResetDerived(fs, step.path, step.mode, os);
      CopyDerived(fs, step, os);
      WriteDerived(fs, step.path, step.content, step.mode, os);
      PublishDerived(fs, step.path, step.target, os);
      SwapDerived(fs, step.path, step.target, os);
      RemoveDerived(fs, step.path, os);
    }
  }

  lemma {:induction false} StepsDerived(l: Layout, fs: FS, steps: seq<Step>, os: nat -> OS, n: nat)
    requires n <= |steps| && forall i | 0 <= i < n :: steps[i].mode & !0x1ED == 0 && steps[i].action != ExtractBundle
    ensures AllDerived(fs, RunSteps(l, fs, steps, os, n).states)
  {
    if n > 0 {
      StepsDerived(l, fs, steps, os, n - 1);
      var r := RunSteps(l, fs, steps, os, n - 1);
      if r.ok {
        DerivedFinal(fs, r);
        StepDerived(l, Final(fs, r), steps[n - 1], os(n - 1));
        DerivedAppend(fs, r.states, Final(fs, r), RunStep(l, Final(fs, r), steps[n - 1], os(n - 1)).states);
      }
    }
  }

  // ---- Recovery ----

  lemma WriteBack(fs: FS, g: FS, p: Path, node: Node, os: OS)
    requires Derived(fs, g) && node.File? && (Tidy(node) || Known(fs, node))
    ensures AllDerived(fs, RunWriteAtomic(g, p, node.content, node.mode, os).states)
  {
    assert File(node.content, node.mode) == node;
  }

  lemma {:induction false} RewriteDerived(fs: FS, g: FS, saved: map<Path, Node>, order: seq<Path>, os: nat -> OS,
                                          n: nat)
    requires n <= |order| && Derived(fs, g) && forall p | p in saved :: Tidy(saved[p]) || Known(fs, saved[p])
    ensures AllDerived(fs, Rewrite(g, saved, order, os, n).states)
            && Derived(fs, Final(g, Rewrite(g, saved, order, os, n)))
  {
    if n > 0 {
      RewriteDerived(fs, g, saved, order, os, n - 1);
      var r := Rewrite(g, saved, order, os, n - 1);
      if r.ok && order[n - 1] in saved && saved[order[n - 1]].File? {
        WriteBack(fs, Final(g, r), order[n - 1], saved[order[n - 1]], os(n - 1));
      }
    }
  }

  lemma RestoreDerived(fs: FS, plan: Plan, g: FS, saved: map<Path, Node>, moved: bool, env: Env)
    requires Derived(fs, g) && forall p | p in saved :: Tidy(saved[p]) || Known(fs, saved[p])
    ensures AllDerived(fs, Restore(plan, g, saved, moved, env).states)
  {
    var back := Relink(plan, g, moved, env);
    SwapDerived(g, plan.layout.current, Relative(["versions", plan.previous]), env.relink);
    DerivedFinal(g, back);
    DerivedTrans(fs, g, Final(g, back));
    forall i | 0 <= i < |back.states| ensures Derived(fs, back.states[i]) {
      DerivedTrans(fs, g, back.states[i]);
    }
    if back.ok {
      RewriteDerived(fs, Final(g, back), saved, env.order, env.rewrite, |env.order|);
    }
  }

  // ---- Applications ----

  lemma CheckedModes(plan: Plan)
    requires CheckPlan(plan) && plan.layout.manager != NoManager
    ensures forall s | s in plan.prepare || s in plan.steps :: s.mode & !0x1ED == 0 && s.action != ExtractBundle
  {
    forall s | s in plan.prepare || s in plan.steps ensures s.mode & !0x1ED == 0 && s.action != ExtractBundle {
      assert StepOk(plan, s);
    }
  }

  lemma SwitchDerived(fs: FS, plan: Plan, ready: FS, saved: map<Path, Node>, env: Env)
    requires Derived(fs, ready) && forall p | p in saved :: Tidy(saved[p]) || Known(fs, saved[p])
    requires forall s | s in plan.steps :: s.mode & !0x1ED == 0 && s.action != ExtractBundle
    ensures AllDerived(fs, Switch(plan, ready, saved, env).states)
  {
    var ran := RunSteps(plan.layout, ready, plan.steps, env.steps, |plan.steps|);
    StepsDerived(plan.layout, ready, plan.steps, env.steps, |plan.steps|);
    DerivedFinal(ready, ran);
    DerivedTrans(fs, ready, Final(ready, ran));
    forall i | 0 <= i < |ran.states| ensures Derived(fs, ran.states[i]) {
      DerivedTrans(fs, ready, ran.states[i]);
    }
    RestoreDerived(fs, plan, Final(ready, ran), saved,
                   LinkMoved(plan.layout, ready, plan.steps, env.steps, |plan.steps|), env);
  }

  lemma ProceedDerived(fs: FS, plan: Plan, ready: FS, saved: map<Path, Node>, env: Env)
    requires Derived(fs, ready) && forall p | p in saved :: Tidy(saved[p]) || Known(fs, saved[p])
    requires forall s | s in plan.steps :: s.mode & !0x1ED == 0 && s.action != ExtractBundle
    ensures AllDerived(fs, Proceed(plan, ready, saved, env).states)
  {
    SwitchDerived(fs, plan, ready, saved, env);
    RestoreDerived(fs, plan, ready, saved, false, env);
  }

  lemma SavedDerived(fs: FS, plan: Plan, ready: FS)
    requires Derived(fs, ready)
    ensures forall p | p in SavedFor(plan, ready) ::
              Tidy(SavedFor(plan, ready)[p]) || Known(fs, SavedFor(plan, ready)[p])
  {
    forall p | p in SavedFor(plan, ready) ensures p in ready && SavedFor(plan, ready)[p] == ready[p] {
    }
  }

  /**
   * Whatever a checked plan of a controller layout does, and wherever it stops or is recovered, no state on disk has a
   * file or directory with a permission to write for group or others, or a special bit, that was not there before.
   */
  lemma NothingOpened(plan: Plan, fs: FS, env: Env)
    requires plan.layout.manager != NoManager
    ensures AllDerived(fs, Apply(plan, fs, env).states)
  {
    if Apply(plan, fs, env).states != [] {
      ApplyIsThen(plan, fs, env);
      var prepared := RunSteps(plan.layout, fs, plan.prepare, env.prepare, |plan.prepare|);
      var ready := Final(fs, prepared);
      CheckedModes(plan);
      StepsDerived(plan.layout, fs, plan.prepare, env.prepare, |plan.prepare|);
      DerivedFinal(fs, prepared);
      SavedDerived(fs, plan, ready);
      ProceedDerived(fs, plan, ready, SavedFor(plan, ready), env);
    }
  }
}
