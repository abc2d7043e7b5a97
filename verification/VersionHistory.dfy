/** Over any sequence of installs and upgrades, interrupted anywhere, the active version never falls. */
module VersionHistory {
  import opened Wrappers
  import opened Versions
  import opened VersionOrder
  import opened InstallPlan
  import opened InstallPlanner
  import opened FileSystem
  import opened Installer
  import opened InstallContainment
  import opened UpgradeSafety

  /** The release the active link names. */
  ghost predicate Active(l: Layout, fs: FS, version: string) {
    l.current in fs && fs[l.current] == LinkTo(version) && Matches(version)
  }

  lemma ActiveIsUnique(l: Layout, fs: FS, v: string, w: string)
    requires Active(l, fs, v) && Active(l, fs, w)
    ensures v == w
  {
    assert ["versions", v][1] == ["versions", w][1];
  }

  lemma InspectedIsActive(l: Layout, fs: FS, version: string)
    requires Inspect(l, fs) == Some(version) && l.current in fs
    ensures Active(l, fs, version)
  {
    match fs[l.current] {
      case Link(Relative(t)) => assert t == ["versions", version];
      case _ =>
    }
  }

  /**
   * Inspection finds a release exactly when the link names one, none exactly when there is no link, and fails
   * otherwise.
   */
  lemma InspectExactly(l: Layout, fs: FS, version: string)
    ensures Inspect(l, fs) == Some(version) <==>
            && (l.versions in fs ==> fs[l.versions].Dir?)
            && (if version == "" then l.current !in fs else Active(l, fs, version))
  {
    if l.current in fs {
      match fs[l.current] {
        case Link(Relative(t)) =>
          assert |t| == 2 && t[0] == "versions" && t[1] == version ==> t == ["versions", version];
        case _ =>
      }
    }
    if Matches(version) {
      AcceptedStartsWithDigit(version);
    }
    if Matches("") {
      AcceptedStartsWithDigit("");
    }
  }

  lemma LaterLink(plan: Plan, input: InstallInput, dirs: seq<Path>, fs: FS, ready: FS, env: Env, k: nat)
    requires IsInstallation(plan, input, dirs) && Admissible(plan, fs, env) && SameAt(fs, ready, plan.layout.current)
    requires k < |Proceed(plan, ready, SavedFor(plan, ready), env).states|
    ensures OldOrNew(plan.layout, plan.version, fs, Proceed(plan, ready, SavedFor(plan, ready), env).states[k])
  {
    SavedAreLaunchers(plan, ready);
    if plan.kind == Upgrade {
      UpgradeLink(plan, input, dirs, fs, env);
    }
    InstallationShape(plan, input, dirs);
    ProceedLink(plan, fs, ready, SavedFor(plan, ready), env, k);
  }

  /** A state of an application belongs to the preparation, which keeps the link, or to what follows. */
  lemma LinkPoint(plan: Plan, input: InstallInput, dirs: seq<Path>, fs: FS, env: Env, i: nat)
    returns (early: bool, ready: FS, k: nat)
    requires IsInstallation(plan, input, dirs) && i < |Apply(plan, fs, env).states|
    ensures Admissible(plan, fs, env)
    ensures early ==> SameAt(fs, Apply(plan, fs, env).states[i], plan.layout.current)
    ensures !early ==>
              && SameAt(fs, ready, plan.layout.current)
              && k < |Proceed(plan, ready, SavedFor(plan, ready), env).states|
              && Apply(plan, fs, env).states[i] == Proceed(plan, ready, SavedFor(plan, ready), env).states[k]
  {
    var prepared := RunSteps(plan.layout, fs, plan.prepare, env.prepare, |plan.prepare|);
    PrepareKeeps(plan, input, dirs, fs, env.prepare, plan.layout.current);
    KeepsFinal(fs, prepared, plan.layout.current);
    ApplyStates(plan, fs, env, prepared, i);
    early, ready := i < |prepared.states|, Final(fs, prepared);
    k := if early then 0 else i - |prepared.states|;
  }

  /** Any state of an application has the old link or the planned one. */
  lemma LinkOldOrNew(plan: Plan, input: InstallInput, dirs: seq<Path>, fs: FS, env: Env, i: nat)
    requires IsInstallation(plan, input, dirs) && i < |Apply(plan, fs, env).states|
    ensures Admissible(plan, fs, env) && OldOrNew(plan.layout, plan.version, fs, Apply(plan, fs, env).states[i])
  {
    var early, ready, k := LinkPoint(plan, input, dirs, fs, env, i);
    if !early {
      LaterLink(plan, input, dirs, fs, ready, env, k);
    }
  }

  /** One attempt to install or upgrade, stopped by a crash after the given state or run to its end. */
  datatype Attempt = Attempt(plan: Plan, input: InstallInput, dirs: seq<Path>, env: Env, stop: nat)

  function After(fs: FS, a: Attempt): FS {
    var states := Apply(a.plan, fs, a.env).states;
    if a.stop < |states| then states[a.stop] else Final(fs, Ran(states, true))
  }

  function History(fs: FS, attempts: seq<Attempt>): FS {
    if attempts == [] then fs else After(History(fs, attempts[..|attempts| - 1]), attempts[|attempts| - 1])
  }

  lemma NewIsHigher(plan: Plan, input: InstallInput, dirs: seq<Path>, fs: FS, env: Env, v: string)
    requires IsInstallation(plan, input, dirs) && Admissible(plan, fs, env) && Active(plan.layout, fs, v)
    ensures CompareVersions(plan.version, v) > 0 && Matches(plan.version)
  {
    if plan.previous != "" {
      PreviousLink(plan, fs);
    }
    InspectedIsActive(plan.layout, fs, plan.previous);
    ActiveIsUnique(plan.layout, fs, v, plan.previous);
    AcceptedStartsWithDigit(v);
  }

  lemma AfterLink(fs: FS, a: Attempt)
    requires IsInstallation(a.plan, a.input, a.dirs)
    ensures After(fs, a) == fs
            || (Admissible(a.plan, fs, a.env) && OldOrNew(a.plan.layout, a.plan.version, fs, After(fs, a)))
  {
    var states := Apply(a.plan, fs, a.env).states;
    if states != [] {
      LinkOldOrNew(a.plan, a.input, a.dirs, fs, a.env, if a.stop < |states| then a.stop else |states| - 1);
    }
  }

  lemma AttemptRises(fs: FS, a: Attempt, v: string)
    requires IsInstallation(a.plan, a.input, a.dirs) && Active(a.plan.layout, fs, v)
    ensures Active(a.plan.layout, After(fs, a), v)
            || (Active(a.plan.layout, After(fs, a), a.plan.version) && CompareVersions(a.plan.version, v) > 0)
  {
    AfterLink(fs, a);
    StillActive(a.plan.layout, a.plan.version, fs, After(fs, a), v);
    if After(fs, a) != fs {
      NewIsHigher(a.plan, a.input, a.dirs, fs, a.env, v);
    }
  }

  lemma StillActive(l: Layout, version: string, fs: FS, g: FS, v: string)
    requires Active(l, fs, v)
    ensures OldOrNew(l, version, fs, g) ==> Active(l, g, v) || (Matches(version) ==> Active(l, g, version))
  {
  }

  /**
   * Whatever plans are applied and wherever each is interrupted, the active release never ranks below the one at the
   * start.
   */
  lemma {:induction false} VersionNeverFalls(l: Layout, fs: FS, attempts: seq<Attempt>,
                                             start: string) returns (version: string)
    requires Active(l, fs, start)
    requires forall a | a in attempts :: a.plan.layout == l && IsInstallation(a.plan, a.input, a.dirs)
    ensures Active(l, History(fs, attempts), version) && CompareVersions(version, start) >= 0
  {
    if attempts == [] {
      version := start;
      CompareTotal(start, start);
    } else {
      var before, a := attempts[..|attempts| - 1], attempts[|attempts| - 1];
      version := VersionNeverFalls(l, fs, before, start);
      AttemptRises(History(fs, before), a, version);
      if !Active(l, History(fs, attempts), version) {
        var next := a.plan.version;
        CompareTotal(next, version);
        CompareTotal(version, start);
        CompareTransitive(start, version, next);
        CompareTotal(start, next);
        version := next;
      }
    }
  }
}
