/** The planners: what an install, an upgrade or an uninstall will do, in order. */
module InstallPlanner {
  import opened Wrappers
  import opened Versions
  import opened VersionOrder
  import opened InstallPlan

  datatype Artifact = Artifact(path: Path, digest: string, size: int, mode: Mode)

  /** A release manifest with its canonical text. */
  datatype Manifest = Manifest(version: string, artifacts: seq<Artifact>, text: string)

  datatype Unit = Unit(service: string, content: string)

  const MANIFEST_NAME := "manifest.json"
  const SIGNATURE_NAME := "manifest.sig.json"

  /** What manifest validation guarantees about the listed files. */
  predicate ValidManifest(m: Manifest) {
    && Matches(m.version)
    && (forall a | a in m.artifacts ::
          && a.path != [] && Clean(a.path) && a.path != [MANIFEST_NAME] && a.path != [SIGNATURE_NAME]
          && a.mode & !0x1FF == 0 && a.mode & 0x12 == 0)
    && (forall i, j | 0 <= i < j < |m.artifacts| :: m.artifacts[i].path != m.artifacts[j].path)
    && (forall a, b | a in m.artifacts && b in m.artifacts && Within(b.path, a.path) :: a.path == b.path)
  }

  function PartialDir(l: Layout, version: string): Path {
    l.versions + ["." + version + ".partial"]
  }

  function UnitPath(l: Layout, u: Unit): Path {
    l.unitDir + [UnitFileName(l.manager, u.service)]
  }

  // ---- The steps of a release ----

  function DirStep(path: Path): Step {
    Step(EnsureDir, path, [], "", 0, DIR_MODE, NoTarget, "")
  }

  function CopyStep(partial: Path, sourceRoot: Path, a: Artifact): Step {
    Step(CopyFile, partial + a.path, sourceRoot + a.path, a.digest, a.size, a.mode, NoTarget, "")
  }

  function WriteStep(path: Path, content: string): Step {
    Step(WriteFile, path, [], "", 0, FILE_MODE, NoTarget, content)
  }

  function RemoveStep(action: Action, path: Path): Step {
    Step(action, path, [], "", 0, 0, NoTarget, "")
  }

  function LinkStep(l: Layout, version: string): Step {
    Step(SwapLink, l.current, [], "", 0, 0, Relative(["versions", version]), "")
  }

  function Staging(l: Layout, m: Manifest): seq<Step> {
    [DirStep(l.distRoot), DirStep(l.versions), RemoveStep(RemoveTree, l.VersionDir(m.version)),
     Step(ResetDir, PartialDir(l, m.version), [], "", 0, DIR_MODE, NoTarget, "")]
  }

  function DirSteps(dirs: seq<Path>): seq<Step> {
    seq(|dirs|, i requires 0 <= i < |dirs| => DirStep(dirs[i]))
  }

  function CopySteps(partial: Path, sourceRoot: Path, artifacts: seq<Artifact>): seq<Step> {
    seq(|artifacts|, i requires 0 <= i < |artifacts| => CopyStep(partial, sourceRoot, artifacts[i]))
  }

  function Publishing(l: Layout, m: Manifest): seq<Step> {
    [WriteStep(PartialDir(l, m.version) + [MANIFEST_NAME], m.text),
     Step(PublishDir, PartialDir(l, m.version), [], "", 0, 0, Absolute(l.VersionDir(m.version)), "")]
  }

  /** The directories that lie strictly between the release directory and its files. */
  ghost function DirSet(root: Path, artifacts: seq<Artifact>): set<Path> {
    set k, i | 0 <= k < |artifacts| && 0 < i < |artifacts[k].path| :: root + artifacts[k].path[..i]
  }

  function ReleaseSteps(l: Layout, m: Manifest, sourceRoot: Path, dirs: seq<Path>): seq<Step> {
    Staging(l, m) + DirSteps(dirs) + CopySteps(PartialDir(l, m.version), sourceRoot, m.artifacts) + Publishing(l, m)
  }

  ghost predicate Lists(dirs: seq<Path>, s: set<Path>) {
    forall d :: d in dirs <==> d in s
  }

  // ---- Results ----

  datatype Refusal = InvalidInput | CapabilityUnsupported | Conflict | VerificationFailed

  datatype Planning = Planned(plan: Plan) | Refused(why: Refusal)

  /** An upgrade goes up; anything planned over an active release is an upgrade. */
  predicate KindFor(kind: Kind, version: string, current: string) {
    if current == "" then kind == Install else kind == Upgrade && CompareVersions(version, current) > 0
  }

  // ---- The directory set ----

  lemma PrefixOfPrefix(root: Path, rel: Path, n: nat)
    requires 0 < n <= |rel|
    ensures Parent(root + rel[..n]) == root + rel[..n - 1]
  {
    assert (root + rel[..n])[..|root| + n - 1] == root + rel[..n - 1];
  }

  /** All parents below the root of every member are members too. */
  ghost predicate ClosedUpward(root: Path, dirs: set<Path>) {
    forall d | d in dirs :: |d| > |root| && root <= d && (|d| > |root| + 1 ==> Parent(d) in dirs)
  }

  lemma {:induction false} ClosedHoldsPrefixes(root: Path, dirs: set<Path>, rel: Path, n: nat)
    requires ClosedUpward(root, dirs) && 0 < n <= |rel| && root + rel[..n] in dirs
    ensures forall i | 0 < i <= n :: root + rel[..i] in dirs
  {
    if n > 1 {
      PrefixOfPrefix(root, rel, n);
      ClosedHoldsPrefixes(root, dirs, rel, n - 1);
    }
  }

  ghost function Above(root: Path, rel: Path): set<Path> {
    set i | 0 < i < |rel| :: root + rel[..i]
  }

  /** The parents met on the way up from a file to its first n components. */
  ghost function Walked(root: Path, rel: Path, n: nat): set<Path> {
    set i | n < i < |rel| :: root + rel[..i]
  }

  lemma WalkedOne(root: Path, rel: Path, n: nat)
    requires 0 < n < |rel|
    ensures Walked(root, rel, n - 1) == Walked(root, rel, n) + {root + rel[..n]}
  {
    forall d | d in Walked(root, rel, n - 1) ensures d in Walked(root, rel, n) + {root + rel[..n]} {
      var i :| n - 1 < i < |rel| && d == root + rel[..i];
    }
  }

  /** Stopping at the root or at a directory already seen leaves no parent out. */
  lemma WalkedEnough(root: Path, rel: Path, seen: set<Path>, n: nat)
    requires n < |rel| && ClosedUpward(root, seen)
    requires n == 0 || root + rel[..n] in seen + Walked(root, rel, n)
    ensures seen + Walked(root, rel, n) == seen + Above(root, rel)
  {
    if n > 0 {
      NotWalked(root, rel, n);
      ClosedHoldsPrefixes(root, seen, rel, n);
    }
    forall d | d in Above(root, rel) ensures d in seen + Walked(root, rel, n) {
      var i :| 0 < i < |rel| && d == root + rel[..i];
      if i <= n {
        assert d in seen;
      }
    }
  }

  lemma NotWalked(root: Path, rel: Path, n: nat)
    requires n < |rel|
    ensures root + rel[..n] !in Walked(root, rel, n)
  {
    assert forall i | n < i < |rel| :: |root + rel[..i]| > |root + rel[..n]|;
  }

  /** Walks up from one file and stops early at a directory already seen. */
  method AddParents(root: Path, rel: Path, seen: set<Path>) returns (dirs: set<Path>)
    requires rel != [] && ClosedUpward(root, seen)
    ensures dirs == seen + Above(root, rel)
  {
    dirs := seen;
    ghost var n := |rel| - 1;
    PrefixOfPrefix(root, rel, |rel|);
    assert rel[..|rel|] == rel;
    var dir := Parent(root + rel);
    while dir != root && dir !in dirs
      invariant 0 <= n < |rel| && dir == root + rel[..n]
      invariant dirs == seen + Walked(root, rel, n)
      decreases n
    {
      PrefixOfPrefix(root, rel, n);
      WalkedOne(root, rel, n);
      dirs := dirs + {dir};
      dir := Parent(dir);
      n := n - 1;
    }
    WalkedEnough(root, rel, seen, n);
  }

  method CollectDirs(root: Path, artifacts: seq<Artifact>) returns (dirs: set<Path>)
    requires forall a | a in artifacts :: a.path != []
    ensures dirs == DirSet(root, artifacts)
  {
    dirs := {};
    for k := 0 to |artifacts|
      invariant ClosedUpward(root, dirs)
      invariant dirs == DirSet(root, artifacts[..k])
    {
      ghost var before := dirs;
      dirs := AddParents(root, artifacts[k].path, dirs);
      CollectedOne(root, artifacts, k, before);
    }
    assert artifacts[..|artifacts|] == artifacts;
  }

  lemma CollectedOne(root: Path, artifacts: seq<Artifact>, k: nat, before: set<Path>)
    requires k < |artifacts| && artifacts[k].path != []
    requires ClosedUpward(root, before) && before == DirSet(root, artifacts[..k])
    ensures var after := before + Above(root, artifacts[k].path);
            after == DirSet(root, artifacts[..k + 1]) && ClosedUpward(root, after)
  {
    var rel := artifacts[k].path;
    var after := before + Above(root, rel);
    forall d | d in DirSet(root, artifacts[..k + 1]) ensures d in after {
      var j, i :| 0 <= j < k + 1 && 0 < i < |artifacts[..k + 1][j].path| && d == root + artifacts[..k + 1][j].path[..i];
      if j < k {
        assert artifacts[..k][j] == artifacts[..k + 1][j];
        assert d in DirSet(root, artifacts[..k]);
      }
    }
    forall d | d in after ensures d in DirSet(root, artifacts[..k + 1]) {
      if d in before {
        var j, i :| 0 <= j < k && 0 < i < |artifacts[..k][j].path| && d == root + artifacts[..k][j].path[..i];
        assert artifacts[..k][j] == artifacts[..k + 1][j];
      } else {
        assert artifacts[..k + 1][k].path == rel;
      }
    }
    forall d | d in Above(root, rel) ensures |d| > |root| && root <= d && (|d| > |root| + 1 ==> Parent(d) in after) {
      var i :| 0 < i < |rel| && d == root + rel[..i];
      PrefixOfPrefix(root, rel, i);
    }
  }

  method SortedKeys(s: set<Path>) returns (keys: seq<Path>)
    ensures Lists(keys, s)
  {
    keys := [];
    var rest := s;
    while rest != {}
      invariant forall d :: d in s <==> d in keys || d in rest
      decreases rest
    {
      var d :| d in rest;
      keys := keys + [d];
      rest := rest - {d};
    }
  }

  // ---- Planners ----

  /** The staged release, decided as an install or an upgrade of the active version. */
  ghost predicate IsRelease(plan: Plan, l: Layout, m: Manifest, sourceRoot: Path, current: string, dirs: seq<Path>) {
    && plan.layout == l && plan.version == m.version && plan.previous == current && !plan.removesState
    && KindFor(plan.kind, m.version, current)
    && Lists(dirs, DirSet(PartialDir(l, m.version), m.artifacts))
    && plan.prepare == ReleaseSteps(l, m, sourceRoot, dirs)
    && plan.before == [] && plan.steps == [] && plan.after == []
  }

  method PlanRelease(l: Layout, m: Manifest, sourceRoot: Path,
                     current: string) returns (r: Planning, ghost dirs: seq<Path>)
    requires ValidManifest(m)
    ensures r.Planned? <==> current == "" || CompareVersions(m.version, current) > 0
    ensures r.Planned? ==> IsRelease(r.plan, l, m, sourceRoot, current, dirs)
  {
    dirs := [];
    var kind := Install;
    if current != "" {
      var c := Compare(m.version, current);
      if c == 0 {
        return Refused(Conflict), dirs;
      } else if c < 0 {
        return Refused(CapabilityUnsupported), dirs;
      }
      kind := Upgrade;
    }
    var partial := PartialDir(l, m.version);
    var prepare := Staging(l, m);
    var parents := CollectDirs(partial, m.artifacts);
    var keys := SortedKeys(parents);
    for i := 0 to |keys|
      invariant prepare == Staging(l, m) + DirSteps(keys)[..i]
    {
      prepare := prepare + [DirStep(keys[i])];
    }
    assert DirSteps(keys)[..|keys|] == DirSteps(keys);
    for i := 0 to |m.artifacts|
      invariant prepare == Staging(l, m) + DirSteps(keys) + CopySteps(partial, sourceRoot, m.artifacts)[..i]
    {
      prepare := prepare + [CopyStep(partial, sourceRoot, m.artifacts[i])];
    }
    prepare := prepare + Publishing(l, m);
    assert prepare == ReleaseSteps(l, m, sourceRoot, keys);
    dirs := keys;
    r := Planned(Plan(kind, l, m.version, current, prepare, [], [], [], false, ""));
  }

  function UnitSteps(l: Layout, units: seq<Unit>): seq<Step> {
    seq(|units|, i requires 0 <= i < |units| => WriteStep(UnitPath(l, units[i]), units[i].content))
  }

  function ServiceActions(l: Layout, verb: Verb, units: seq<Unit>): seq<ServiceAction> {
    seq(|units|, i requires 0 <= i < |units| => ServiceAction(verb, units[i].service, UnitPath(l, units[i])))
  }

  datatype InstallInput = InstallInput(layout: Layout, manifest: Manifest, sourceRoot: Path, verified: bool,
                                       controller: bool,
                                       hostTarget: bool, units: Option<seq<Unit>>, noopVerified: bool, current: string)

  /**
   * The plan of an install or upgrade: stage and publish while services run, then move the link and rewrite the
   * launchers.
   */
  ghost predicate IsInstallation(plan: Plan, input: InstallInput, dirs: seq<Path>) {
    var l, m := input.layout, input.manifest;
    && ValidLayout(l) && l.manager != NoManager && ValidManifest(m) && input.units.Some?
    && ValidUnits(input.units.value)
    && !Within(input.sourceRoot, l.distRoot) && !Within(input.sourceRoot, l.stateDir)
    && plan.layout == l && plan.version == m.version && plan.previous == input.current && !plan.removesState
    && KindFor(plan.kind, m.version, input.current)
    && Lists(dirs, DirSet(PartialDir(l, m.version), m.artifacts))
    && plan.prepare == ReleaseSteps(l, m, input.sourceRoot, dirs) + [DirStep(l.unitDir)]
    && plan.before == (if plan.kind == Upgrade then ServiceActions(l, Unload, input.units.value) else [])
    && plan.steps == [LinkStep(l, m.version)] + UnitSteps(l, input.units.value)
    && plan.after == ServiceActions(l, Load, input.units.value)
  }

  /** The services the launchers were rendered for have distinct valid names. */
  predicate ValidUnits(units: seq<Unit>) {
    && (forall u | u in units :: ServiceName(u.service))
    && (forall i, j | 0 <= i < j < |units| :: units[i].service != units[j].service)
  }

  /** Adds the link swap, the launcher writes and the service actions to a staged release. */
  method AddUnits(staged: Plan, units: seq<Unit>) returns (plan: Plan)
    requires staged.before == [] && staged.steps == [] && staged.after == []
    ensures var l := staged.layout;
            plan == staged.(prepare := staged.prepare + [DirStep(l.unitDir)],
                            before := if staged.kind == Upgrade then ServiceActions(l, Unload, units) else [],
                            steps := [LinkStep(l, staged.version)] + UnitSteps(l, units),
                            after := ServiceActions(l, Load, units))
  {
    var l := staged.layout;
    var before, steps, after := [], [LinkStep(l, staged.version)], [];
    for i := 0 to |units|
      invariant steps == [LinkStep(l, staged.version)] + UnitSteps(l, units)[..i]
      invariant after == ServiceActions(l, Load, units)[..i]
      invariant before == if staged.kind == Upgrade then ServiceActions(l, Unload, units)[..i] else []
    {
      if staged.kind == Upgrade {
        before := before + [ServiceAction(Unload, units[i].service, UnitPath(l, units[i]))];
      }
      steps := steps + [WriteStep(UnitPath(l, units[i]), units[i].content)];
      after := after + [ServiceAction(Load, units[i].service, UnitPath(l, units[i]))];
    }
    plan := staged.(prepare := staged.prepare + [DirStep(l.unitDir)], before := before, steps := steps, after := after);
  }

  /**
   * The release is verified and fits the host, its services render, and it is new, higher, or the intact active one.
   */
  predicate Acceptable(input: InstallInput) {
    var l, m := input.layout, input.manifest;
    && ValidLayout(l) && l.manager != NoManager && input.verified && input.controller && input.hostTarget
    && input.units.Some?
    && (if input.current == m.version then input.noopVerified
        else input.current == "" || CompareVersions(m.version, input.current) > 0)
  }

  /** And its unpacked tree lies outside the distribution and state directories. */
  predicate Plannable(input: InstallInput) {
    Acceptable(input) && !Within(input.sourceRoot, input.layout.distRoot)
      && !Within(input.sourceRoot, input.layout.stateDir)
  }

  /** A repeat of the active release: nothing to do, and the manifest that must still be in place. */
  predicate IsRepeat(plan: Plan, input: InstallInput) {
    && plan.layout == input.layout && plan.version == input.manifest.version && plan.previous == input.manifest.version
    && plan.prepare == [] && plan.before == [] && plan.steps == [] && plan.after == []
    && !plan.removesState && plan.expectedManifest == input.manifest.text
  }

  method PlanInstallation(input: InstallInput) returns (r: Planning, ghost dirs: seq<Path>)
    requires input.verified ==> ValidManifest(input.manifest)
    requires input.units.Some? ==> ValidUnits(input.units.value)
    ensures r.Planned? <==> Plannable(input)
    ensures r.Planned? ==> (r.plan.kind == Noop <==> input.current == input.manifest.version)
    ensures r.Planned? && r.plan.kind == Noop ==> IsRepeat(r.plan, input)
    ensures r.Planned? && r.plan.kind != Noop ==> IsInstallation(r.plan, input, dirs)
  {
    var l, m := input.layout, input.manifest;
    dirs := [];
    if !ValidLayout(l) || l.manager == NoManager {
      return Refused(InvalidInput), dirs;
    }
    if !input.verified {
      return Refused(VerificationFailed), dirs;
    }
    if !input.controller || !input.hostTarget {
      return Refused(CapabilityUnsupported), dirs;
    }
    if Within(input.sourceRoot, l.distRoot) || Within(input.sourceRoot, l.stateDir) || input.units.None? {
      return Refused(InvalidInput), dirs;
    }
    if input.current == m.version {
      if !input.noopVerified {
        return Refused(Conflict), dirs;
      }
      return Planned(Plan(Noop, l, m.version, m.version, [], [], [], [], false, m.text)), dirs;
    }
    r, dirs := PlanRelease(l, m, input.sourceRoot, input.current);
    if r.Planned? {
      var plan := AddUnits(r.plan, input.units.value);
      r := Planned(plan);
    }
  }

  // ---- Uninstall ----

  /** The steps and unloads of an uninstall; the state directory is removed last, and only when asked for. */
  ghost predicate IsUninstallation(plan: Plan, l: Layout, services: seq<string>, removeState: bool) {
    && ValidLayout(l) && l.manager != NoManager
    && plan.kind == Uninstall && plan.layout == l && plan.removesState == removeState && plan.prepare == []
    && plan.after == []
    && ValidServices(services)
    && plan.before == seq(|services|, i requires 0 <= i < |services| => UnloadOf(l, services[i]))
    && plan.steps
       == seq(|services|, i requires 0 <= i < |services| => RemoveStep(RemoveFile, UnloadOf(l, services[i]).unitPath))
                     + [RemoveStep(RemoveFile, l.current), RemoveStep(RemoveTree, l.distRoot)]
                     + (if removeState then [RemoveStep(RemoveTree, l.stateDir)] else [])
  }

  function UnloadOf(l: Layout, service: string): ServiceAction {
    ServiceAction(Unload, service, l.unitDir + [UnitFileName(l.manager, service)])
  }

  lemma RefusedService(services: seq<string>, i: nat, seen: set<string>)
    requires i < |services| && seen == set k | 0 <= k < i :: services[k]
    requires !ServiceName(services[i]) || |services[i]| > 100 || services[i] in seen
    ensures !ValidServices(services)
  {
  }

  predicate ValidServices(services: seq<string>) {
    && (forall i, j | 0 <= i < j < |services| :: services[i] != services[j])
    && (forall i | 0 <= i < |services| :: ServiceName(services[i]) && |services[i]| <= 100)
  }

  /** Removing state takes a confirmation that names exactly the state directory; keeping it takes none. */
  method PlanUninstallation(l: Layout, services: seq<string>, removeState: bool, confirmed: Path, confirmation: bool)
    returns (r: Planning)
    ensures r.Planned? <==>
              && ValidLayout(l) && l.manager != NoManager && ValidServices(services)
              && confirmation == removeState && (removeState ==> confirmed == l.stateDir)
    ensures r.Planned? ==> IsUninstallation(r.plan, l, services, removeState)
  {
    if !ValidLayout(l) || l.manager == NoManager {
      return Refused(InvalidInput);
    }
    if (removeState && !(confirmation && confirmed == l.stateDir)) || (!removeState && confirmation) {
      return Refused(InvalidInput);
    }
    var before, steps := [], [];
    var seen := {};
    for i := 0 to |services|
      invariant before == seq(i, k requires 0 <= k < i => UnloadOf(l, services[k]))
      invariant steps == seq(i, k requires 0 <= k < i => RemoveStep(RemoveFile, UnloadOf(l, services[k]).unitPath))
      invariant seen == set k | 0 <= k < i :: services[k]
      invariant ValidServices(services[..i])
    {
      var name := services[i];
      if !ServiceName(name) || |name| > 100 || name in seen {
        RefusedService(services, i, seen);
        return Refused(InvalidInput);
      }
      assert ValidServices(services[..i + 1]);
      seen := seen + {name};
      before := before + [UnloadOf(l, name)];
      steps := steps + [RemoveStep(RemoveFile, UnloadOf(l, name).unitPath)];
    }
    assert services[..|services|] == services;
    steps := steps + [RemoveStep(RemoveFile, l.current), RemoveStep(RemoveTree, l.distRoot)];
    if removeState {
      steps := steps + [RemoveStep(RemoveTree, l.stateDir)];
    }
    r := Planned(Plan(Uninstall, l, "", "", [], before, steps, [], removeState, ""));
  }
}
