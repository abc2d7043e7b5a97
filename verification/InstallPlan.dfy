/** Installation layouts and plans, and the check every plan passes before it runs. */
module InstallPlan {
  import opened Wrappers
  import opened Versions

  // ---- Paths ----

  /** A path from the root, one entry per component; only clean ones are absolute paths in normal form. */
  type Path = seq<string>

  predicate CleanName(name: string) {
    && name != "" && name != "." && name != ".."
    && forall i | 0 <= i < |name| :: name[i] != '/' && name[i] >= ' ' && name[i] != '\U{7F}'
  }

  predicate Clean(p: Path) {
    forall i | 0 <= i < |p| :: CleanName(p[i])
  }

  function Parent(p: Path): Path {
    if p == [] then [] else p[..|p| - 1]
  }

  function Base(p: Path): string
    requires p != []
  {
    p[|p| - 1]
  }

  /** The child equals the parent or lies beneath it. */
  predicate Within(child: Path, parent: Path) {
    parent <= child
  }

  predicate Disjoint(p: Path, q: Path) {
    !Within(p, q) && !Within(q, p)
  }

  // ---- Layouts ----

  datatype Manager = Launchd | SystemdUser | NoManager | UnsupportedManager

  datatype Layout = Layout(manager: Manager, home: Path, distRoot: Path, versions: Path, current: Path,
                           unitDir: Path, stateDir: Path, bundles: Option<Path>, currentBundle: Option<Path>)
  {
    function VersionDir(version: string): Path {
      versions + [version]
    }
  }

  /** Fewer than two components below the root. */
  predicate Shallow(p: Path) {
    |p| < 2
  }

  predicate ValidLayout(l: Layout) {
    && Clean(l.home) && Clean(l.distRoot) && Clean(l.versions) && Clean(l.current) && Clean(l.unitDir)
    && Clean(l.stateDir)
    && (match l.manager
        case Launchd | SystemdUser => l.bundles == None && l.currentBundle == None
        case NoManager => l.bundles == Some(l.distRoot + ["bundles"])
          && l.currentBundle == Some(l.distRoot + ["current-bundle"])
        case UnsupportedManager => false)
    && l.versions == l.distRoot + ["versions"] && l.current == l.distRoot + ["current"]
    && !Shallow(l.distRoot) && !Within(l.home, l.distRoot)
    && !Shallow(l.stateDir) && !Within(l.home, l.stateDir)
    && Disjoint(l.stateDir, l.distRoot) && Disjoint(l.stateDir, l.unitDir)
    && Disjoint(l.unitDir, l.distRoot)
  }

  // ---- Plans ----

  datatype Kind = Install | Upgrade | Uninstall | Noop | UnknownKind

  datatype Action =
    | EnsureDir | ResetDir | CopyFile | WriteFile | PublishDir | SwapLink | RemoveFile | RemoveTree | ExtractBundle
    | UnknownAction

  /** Permission bits, as in a file mode. */
  type Mode = bv32

  const DIR_MODE: Mode := 0x1ED
  const FILE_MODE: Mode := 0x1A4

  datatype Target = NoTarget | Absolute(path: Path) | Relative(path: Path)

  datatype Step = Step(action: Action, path: Path, source: Path, digest: string, size: int, mode: Mode, target: Target,
                       content: string)

  datatype Verb = Load | Unload | UnknownVerb

  datatype ServiceAction = ServiceAction(verb: Verb, service: string, unitPath: Path)

  datatype Plan = Plan(kind: Kind, layout: Layout, version: string, previous: string, prepare: seq<Step>,
                       before: seq<ServiceAction>, steps: seq<Step>, after: seq<ServiceAction>,
                       removesState: bool, expectedManifest: string)

  /** A reverse-DNS name: letters and digits, then at least one dotted part of letters, digits and hyphens. */
  predicate ServiceName(s: string) {
    var parts := Split(s, '.');
    && |parts| > 1 && Identifier(parts[0])
    && forall i | 0 < i < |parts| ::
         |parts[i]| > 0 && forall j | 0 <= j < |parts[i]| :: IsAlnum(parts[i][j]) || parts[i][j] == '-'
  }

  function UnitFileName(manager: Manager, service: string): string {
    if manager == SystemdUser then service + ".service" else service + ".plist"
  }

  predicate ActionOk(l: Layout, a: ServiceAction) {
    && l.manager != NoManager
    && a.verb != UnknownVerb
    && ServiceName(a.service) && a.unitPath == l.unitDir + [UnitFileName(l.manager, a.service)]
  }

  predicate InDist(l: Layout, p: Path) {
    Within(p, l.distRoot)
  }

  predicate IsUnit(l: Layout, p: Path) {
    Parent(p) == l.unitDir
  }

  /** A relative link target naming one accepted version in the given directory. */
  predicate NamesVersion(t: Target, dir: string) {
    t.Relative? && |t.path| == 2 && t.path[0] == dir && Matches(t.path[1])
  }

  predicate LinkOk(l: Layout, step: Step) {
    if step.path == l.current then NamesVersion(step.target, "versions")
    else if l.currentBundle == Some(step.path) then NamesVersion(step.target, "bundles")
    else
      && l.manager == NoManager && IsUnit(l, step.path)
      && step.target.Absolute? && Clean(step.target.path)
      && l.currentBundle.Some? && Within(step.target.path, l.currentBundle.value)
      && step.target.path != l.currentBundle.value
  }

  predicate ChildOf(t: Target, dir: Path) {
    t.Absolute? && Clean(t.path) && Parent(t.path) == dir
  }

  /** A clean slash-separated path relative to a tree, without backslashes. */
  predicate RelativePath(s: string) {
    0 < |s| <= 512 && (forall i | 0 <= i < |s| :: s[i] != '\\') && Clean(Split(s, '/'))
  }

  predicate Reaches(plan: Plan, step: Step) {
    var l := plan.layout;
    match step.action
    case EnsureDir => InDist(l, step.path) || step.path == l.unitDir
    case ResetDir | CopyFile => InDist(l, step.path) && step.path != l.distRoot
    case WriteFile | RemoveFile => (InDist(l, step.path) && step.path != l.distRoot) || IsUnit(l, step.path)
    case PublishDir => Parent(step.path) == l.versions && ChildOf(step.target, l.versions)
    case SwapLink => LinkOk(l, step)
    case ExtractBundle =>
      && l.bundles.Some? && Parent(step.path) == l.bundles.value && ChildOf(step.target, l.bundles.value)
      && Clean(step.source) && Within(step.source, l.versions) && RelativePath(step.content)
    case RemoveTree => InDist(l, step.path) || (plan.removesState && step.path == l.stateDir)
    case UnknownAction => false
  }

  predicate StepOk(plan: Plan, step: Step) {
    && Clean(step.path)
    && Reaches(plan, step)
    && (step.action == CopyFile ==> Clean(step.source) && !Within(step.source, plan.layout.stateDir))
    && step.mode & !DIR_MODE == 0
  }

  predicate CheckPlan(plan: Plan) {
    && ValidLayout(plan.layout)
    && plan.kind != UnknownKind
    && (plan.kind == Noop ==>
          && plan.version != "" && plan.version == plan.previous && plan.expectedManifest != ""
          && plan.prepare == [] && plan.before == [] && plan.steps == [] && plan.after == [])
    && (plan.removesState ==> plan.kind == Uninstall)
    && (forall a | a in plan.before :: ActionOk(plan.layout, a))
    && (forall a | a in plan.after :: ActionOk(plan.layout, a))
    && (forall s | s in plan.prepare :: StepOk(plan, s))
    && (forall s | s in plan.steps :: StepOk(plan, s))
  }

  // ---- What a step can touch ----

  /** The sibling a link is built under before it is renamed into place. */
  function NextLink(p: Path): Path
    requires p != []
  {
    Parent(p) + [Base(p) + ".next"]
  }

  /** The hidden sibling a file is written under before it is renamed into place. */
  function TempFile(p: Path, suffix: string): Path
    requires p != []
  {
    Parent(p) + ["." + Base(p) + "." + suffix]
  }

  /** Paths a step may create, change or remove, siblings and created ancestors included. */
  ghost predicate Touches(step: Step, p: Path) {
    match step.action
    case EnsureDir => Within(step.path, p)
    case ResetDir => Within(step.path, p) || Within(p, step.path)
    case CopyFile | RemoveFile => p == step.path
    case WriteFile => p == step.path || (step.path != [] && exists suffix :: p == TempFile(step.path, suffix))
    case SwapLink => p == step.path || (step.path != [] && p == NextLink(step.path))
    case PublishDir | ExtractBundle => Within(p, step.path) || (step.target.Absolute? && Within(p, step.target.path))
    case RemoveTree => Within(p, step.path)
    case UnknownAction => false
  }

  lemma PrefixesMeet(a: Path, b: Path, c: Path)
    requires a <= c && b <= c
    ensures a <= b || b <= a
  {
  }

  lemma SiblingWithin(l: Layout, p: Path, q: Path)
    requires p != [] && q != [] && Parent(p) == Parent(q)
    ensures InDist(l, p) && p != l.distRoot ==> InDist(l, q)
    ensures IsUnit(l, p) ==> Within(q, l.unitDir)
  {
    if InDist(l, p) && p != l.distRoot {
      assert l.distRoot <= Parent(p);
    }
  }

  /** Every step of a checked plan stays beside or inside the distribution and launcher directories. */
  lemma TouchedRegion(plan: Plan, step: Step, p: Path)
    requires CheckPlan(plan) && (step in plan.prepare || step in plan.steps) && Touches(step, p)
    requires !(step.action == RemoveTree && plan.removesState && step.path == plan.layout.stateDir)
    ensures var l := plan.layout;
            Within(p, l.distRoot) || Within(p, l.unitDir) || Within(l.distRoot, p) || Within(l.unitDir, p)
  {
    var l := plan.layout;
    assert StepOk(plan, step);
    assert l.versions == l.distRoot + ["versions"];
    match step.action
    case WriteFile =>
      if p != step.path {
        var suffix :| p == TempFile(step.path, suffix);
        assert Parent(p) == Parent(step.path);
        SiblingWithin(l, step.path, p);
      }
    case SwapLink =>
      assert step.path != [];
      if p != step.path {
        assert Parent(p) == Parent(step.path);
        SiblingWithin(l, step.path, p);
      }
    case EnsureDir =>
      if InDist(l, step.path) {
        PrefixesMeet(p, l.distRoot, step.path);
      }
    case ResetDir =>
      if Within(step.path, p) {
        PrefixesMeet(p, l.distRoot, step.path);
      }
    case _ =>
  }

  /**
   * No step of a checked plan, hand-built ones included, touches a path in the state directory, except the removal of
   * exactly that directory by an uninstall flagged to remove state.
   */
  lemma StateContained(plan: Plan, step: Step, p: Path)
    requires CheckPlan(plan) && (step in plan.prepare || step in plan.steps)
    requires Touches(step, p) && Within(p, plan.layout.stateDir)
    ensures plan.kind == Uninstall && plan.removesState && step.action == RemoveTree
            && step.path == plan.layout.stateDir
  {
    var l := plan.layout;
    if !(step.action == RemoveTree && plan.removesState && step.path == l.stateDir) {
      TouchedRegion(plan, step, p);
      if Within(p, l.distRoot) {
        PrefixesMeet(l.stateDir, l.distRoot, p);
      } else if Within(p, l.unitDir) {
        PrefixesMeet(l.stateDir, l.unitDir, p);
      }
    }
  }
}
