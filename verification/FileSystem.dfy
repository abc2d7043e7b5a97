/**
 * A filesystem as a map from paths to nodes, and the system calls each plan step makes.
 * A step yields every state it leaves on disk between calls, so that a crash anywhere inside it is one of them.
 */
module FileSystem {
  import opened Wrappers
  import opened InstallPlan

  datatype Node = Dir(mode: Mode) | File(content: string, mode: Mode) | Link(target: Target)

  type FS = map<Path, Node>

  predicate IsDir(fs: FS, p: Path) {
    p in fs && fs[p].Dir?
  }

  predicate HasChildren(fs: FS, p: Path) {
    exists q | q in fs :: q != p && Within(q, p)
  }

  /** Every node hangs off a directory. */
  ghost predicate WellFormed(fs: FS) {
    IsDir(fs, []) && forall p | p in fs && p != [] :: IsDir(fs, Parent(p))
  }

  /** An injective tag standing for the digest of a file's content. */
  function Sha256(content: string): string {
    content
  }

  /**
   * What the operating system does to one step: cancellation, failing calls, temporary names, an interrupted removal,
   * an unpacked archive.
   */
  datatype OS = OS(cancelled: bool, failing: set<nat>, suffix: string, pruned: set<Path>, bundle: map<Path, Node>)

  datatype Ran = Ran(states: seq<FS>, ok: bool)

  function Final(fs: FS, ran: Ran): FS {
    if ran.states == [] then fs else ran.states[|ran.states| - 1]
  }

  // ---- System calls ----

  function MkdirAll(fs: FS, p: Path, mode: Mode): Option<FS>
    decreases |p|
  {
    if p in fs then (if fs[p].Dir? then Some(fs) else None)
    else if p == [] then None
    else
      var above := MkdirAll(fs, Parent(p), mode);
      if above.None? then None else Some(above.value[p := Dir(mode)])
  }

  function Remove(fs: FS, p: Path): FS {
    map q | q in fs && q != p :: fs[q]
  }

  function RemoveAll(fs: FS, p: Path): FS {
    map q | q in fs && !Within(q, p) :: fs[q]
  }

  /** A removal that was interrupted: only some subtrees of the tree are gone. */
  function Prune(fs: FS, p: Path, gone: set<Path>): FS {
    map q | q in fs && !(Within(q, p) && exists r | r in gone :: Within(q, r)) :: fs[q]
  }

  predicate CanRename(fs: FS, source: Path, to: Path) {
    && source in fs && to != [] && IsDir(fs, Parent(to)) && !Within(to, source)
    && (to in fs ==> !fs[source].Dir? && !fs[to].Dir?)
  }

  /** Moves a node and everything beneath it. */
  function Rename(fs: FS, source: Path, to: Path): FS {
    var kept := map q | q in fs && !Within(q, source) && q != to :: fs[q];
    var names := set q | q in fs && Within(q, source) :: to + q[|source|..];
    kept + map k | k in names && |to| <= |k| && source + k[|to|..] in fs :: fs[source + k[|to|..]]
  }

  /** An archive unpacked beneath a directory. */
  function Unpack(fs: FS, p: Path, bundle: map<Path, Node>): FS {
    fs[p := Dir(DIR_MODE)]
      + (map k | k in (set r | r in bundle && r != [] :: p + r) && |p| <= |k| && k[|p|..] in bundle :: bundle[k[|p|..]])
  }

  // ---- Steps ----

  function RunEnsureDir(fs: FS, p: Path, mode: Mode, owned: bool, os: OS, call: nat): Ran {
    var made := MkdirAll(fs, p, mode);
    if call in os.failing || made.None? then Ran([], false)
    else if !owned then Ran([made.value], true)
    else if call + 1 in os.failing then Ran([made.value], false)
    else Ran([made.value, made.value[p := Dir(mode)]], true)
  }

  function RunRemoveTree(fs: FS, p: Path, os: OS): Ran {
    if p !in fs then Ran([], true)
    else if !fs[p].Dir? then Ran([], false)
    else if 0 in os.failing then Ran([Prune(fs, p, os.pruned)], false)
    else Ran([RemoveAll(fs, p)], true)
  }

  function RunResetDir(fs: FS, p: Path, mode: Mode, os: OS): Ran {
    var removed := RunRemoveTree(fs, p, os);
    if !removed.ok then removed
    else
      var made := RunEnsureDir(Final(fs, removed), p, mode, true, os, 1);
      Ran(removed.states + made.states, made.ok)
  }

  /** The copy is hashed while it is written and removed again when it is not the planned file. */
  function RunCopyFile(fs: FS, step: Step, os: OS): Ran {
    if !(step.source in fs && fs[step.source].File?) || 0 in os.failing then Ran([], false)
    else if step.path == [] || step.path in fs || !IsDir(fs, Parent(step.path)) then Ran([], false)
    else
      var content := fs[step.source].content;
      var created := fs[step.path := File("", step.mode)];
      if 1 in os.failing || |content| != step.size || Sha256(content) != step.digest then Ran([created, fs], false)
      else Ran([created, fs[step.path := File(content, step.mode)]], true)
  }

  /** Write beside, rename into place, sync the directory: a failed sync reports an error after the file has changed. */
  function RunWriteAtomic(fs: FS, p: Path, content: string, mode: Mode, os: OS): Ran {
    if p == [] || 0 in os.failing || !IsDir(fs, Parent(p)) || TempFile(p, os.suffix) in fs then Ran([], false)
    else
      var beside := fs[TempFile(p, os.suffix) := File(content, mode)];
      if 1 in os.failing || IsDir(fs, p) then Ran(if 2 in os.failing then [beside] else [beside, fs], false)
      else Ran([beside, fs[p := File(content, mode)]], 3 !in os.failing)
  }

  /** The call whose failure leaves the link moved although an error is reported. */
  const LINK_SYNC := 4

  function RunSwapLink(fs: FS, link: Path, target: Target, os: OS): Ran {
    if link == [] || (link in fs && !fs[link].Link?) then Ran([], false)
    else
      var next := NextLink(link);
      if next in fs && (0 in os.failing || HasChildren(fs, next)) then Ran([], false)
      else
        var cleared := Remove(fs, next);
        if 1 in os.failing || !IsDir(fs, Parent(link)) then Ran([cleared], false)
        else
          var built := cleared[next := Link(target)];
          if 2 in os.failing then Ran(if 3 in os.failing then [cleared, built] else [cleared, built, cleared], false)
          else Ran([cleared, built, cleared[link := Link(target)]], LINK_SYNC !in os.failing)
  }

  function RunPublishDir(fs: FS, source: Path, target: Target, os: OS): Ran {
    if !target.Absolute? || 0 in os.failing || !CanRename(fs, source, target.path) then Ran([], false)
    else Ran([Rename(fs, source, target.path)], 1 !in os.failing)
  }

  function RunExtractBundle(fs: FS, step: Step, os: OS): Ran {
    if step.path == [] || step.path in fs || !IsDir(fs, Parent(step.path)) || 2 in os.failing then Ran([], false)
    else
      var unpacked := Unpack(fs, step.path, os.bundle);
      if 3 in os.failing then Ran([unpacked, fs], false)
      else
        var published := RunPublishDir(unpacked, step.path, step.target, os);
        Ran([unpacked] + published.states, published.ok)
  }

  function RunRemoveFile(fs: FS, p: Path, os: OS): Ran {
    if p !in fs then Ran([], true)
    else if fs[p].Dir? || 0 in os.failing then Ran([], false)
    else Ran([Remove(fs, p)], true)
  }

  /** A link on the way from a layout directory down to the step's own directory, or a path outside all of them. */
  predicate Redirected(l: Layout, fs: FS, p: Path) {
    var root := if Within(p, l.stateDir) then Some(l.stateDir)
                else if Within(p, l.unitDir) then Some(l.unitDir)
                else if Within(p, l.distRoot) then Some(l.distRoot)
                else None;
    root.None? ||
    exists i | |root.value| <= i <= |p| :: (i < |p| || i == |root.value|) && p[..i] in fs && fs[p[..i]].Link?
  }

  function RunStep(l: Layout, fs: FS, step: Step, os: OS): Ran {
    if os.cancelled || Redirected(l, fs, step.path) then Ran([], false)
    else match step.action
      case EnsureDir => RunEnsureDir(fs, step.path, step.mode, Within(step.path, l.distRoot), os, 0)
      case ResetDir => RunResetDir(fs, step.path, step.mode, os)
      case CopyFile => RunCopyFile(fs, step, os)
      case WriteFile => RunWriteAtomic(fs, step.path, step.content, step.mode, os)
      case PublishDir => RunPublishDir(fs, step.path, step.target, os)
      case SwapLink => RunSwapLink(fs, step.path, step.target, os)
      case ExtractBundle => RunExtractBundle(fs, step, os)
      case RemoveFile => RunRemoveFile(fs, step.path, os)
      case RemoveTree => RunRemoveTree(fs, step.path, os)
      case UnknownAction => Ran([], true)
  }

  // ---- Steps change what they touch and nothing else ----

  predicate SameAt(fs: FS, fs': FS, p: Path) {
    (p in fs <==> p in fs') && (p in fs ==> fs[p] == fs'[p])
  }

  lemma {:induction false} MkdirAllFrame(fs: FS, p: Path, mode: Mode, q: Path)
    requires MkdirAll(fs, p, mode).Some? && !Within(p, q)
    ensures SameAt(fs, MkdirAll(fs, p, mode).value, q)
    decreases |p|
  {
    if p !in fs && p != [] {
      assert !Within(Parent(p), q);
      MkdirAllFrame(fs, Parent(p), mode, q);
    }
  }

  lemma EnsureDirFrame(fs: FS, p: Path, mode: Mode, owned: bool, os: OS, call: nat, q: Path, i: nat)
    requires i < |RunEnsureDir(fs, p, mode, owned, os, call).states| && !Within(p, q)
    ensures SameAt(fs, RunEnsureDir(fs, p, mode, owned, os, call).states[i], q)
  {
    MkdirAllFrame(fs, p, mode, q);
  }

  lemma ResetDirFrame(fs: FS, p: Path, mode: Mode, os: OS, q: Path, i: nat)
    requires i < |RunResetDir(fs, p, mode, os).states| && !Within(p, q) && !Within(q, p)
    ensures SameAt(fs, RunResetDir(fs, p, mode, os).states[i], q)
  {
    var removed := RunRemoveTree(fs, p, os);
    if removed.ok && i >= |removed.states| {
      EnsureDirFrame(Final(fs, removed), p, mode, true, os, 1, q, i - |removed.states|);
    }
  }

  lemma RenameFrame(fs: FS, source: Path, to: Path, q: Path)
    requires !Within(q, source) && !Within(q, to)
    ensures SameAt(fs, Rename(fs, source, to), q)
  {
    assert q !in (set r | r in fs && Within(r, source) :: to + r[|source|..]);
  }

  lemma UnpackFrame(fs: FS, p: Path, bundle: map<Path, Node>, q: Path)
    requires !Within(q, p)
    ensures SameAt(fs, Unpack(fs, p, bundle), q)
  {
    assert q !in (set r | r in bundle && r != [] :: p + r);
  }

  lemma PublishFrame(fs: FS, source: Path, target: Target, os: OS, q: Path, i: nat)
    requires i < |RunPublishDir(fs, source, target, os).states|
    requires !Within(q, source) && !(target.Absolute? && Within(q, target.path))
    ensures SameAt(fs, RunPublishDir(fs, source, target, os).states[i], q)
  {
    RenameFrame(fs, source, target.path, q);
  }

  lemma ExtractFrame(fs: FS, step: Step, os: OS, q: Path, i: nat)
    requires i < |RunExtractBundle(fs, step, os).states|
    requires !Within(q, step.path) && !(step.target.Absolute? && Within(q, step.target.path))
    ensures SameAt(fs, RunExtractBundle(fs, step, os).states[i], q)
  {
    var unpacked := Unpack(fs, step.path, os.bundle);
    UnpackFrame(fs, step.path, os.bundle, q);
    var states := RunExtractBundle(fs, step, os).states;
    assert states[0] == unpacked;
    if i > 0 && 3 !in os.failing {
      PublishFrame(unpacked, step.path, step.target, os, q, i - 1);
    }
  }

  /** Every state a step goes through differs from the one before the step only where the step is allowed to touch. */
  lemma RunStepFrame(l: Layout, fs: FS, step: Step, os: OS, q: Path, i: nat)
    requires i < |RunStep(l, fs, step, os).states| && !Touches(step, q)
    ensures SameAt(fs, RunStep(l, fs, step, os).states[i], q)
  {
    match step.action
    case EnsureDir =>
      EnsureDirFrame(fs, step.path, step.mode, Within(step.path, l.distRoot), os, 0, q, i);
    case ResetDir =>
      ResetDirFrame(fs, step.path, step.mode, os, q, i);
    case PublishDir =>
      PublishFrame(fs, step.path, step.target, os, q, i);
    case ExtractBundle =>
      ExtractFrame(fs, step, os, q, i);
    case _ =>
  }

  // ---- What a step never does ----

  /** A step whose last directory sync fails is never reported as done, although it may have taken effect. */
  lemma UnsyncedFails(l: Layout, fs: FS, step: Step, os: OS)
    requires || (step.action == SwapLink && 4 in os.failing) || (step.action == WriteFile && 3 in os.failing)
             || (step.action == PublishDir && 1 in os.failing)
    ensures !RunStep(l, fs, step, os).ok
  {
  }

  /**
   * A link planted on the way from a layout directory down to a step's path, that directory included, stops the step
   * untouched.
   */
  lemma PlantedLinkStops(l: Layout, fs: FS, step: Step, os: OS, root: Path, q: Path)
    requires ValidLayout(l) && (root == l.distRoot || root == l.unitDir || root == l.stateDir)
    requires root <= q && q <= step.path && (q != step.path || q == root) && q in fs && fs[q].Link?
    ensures RunStep(l, fs, step, os) == Ran([], false)
  {
    var p := step.path;
    assert p[..|q|] == q && root <= p;
    if Within(p, l.stateDir) && root != l.stateDir {
      PrefixesMeet(l.stateDir, root, p);
    } else if Within(p, l.unitDir) && root != l.unitDir {
      PrefixesMeet(l.unitDir, root, p);
    }
  }

  /** A cancelled step, or one outside the layout directories, does nothing. */
  lemma StrayStepStops(l: Layout, fs: FS, step: Step, os: OS)
    requires os.cancelled
             || !(Within(step.path, l.distRoot) || Within(step.path, l.unitDir) || Within(step.path, l.stateDir))
    ensures RunStep(l, fs, step, os) == Ran([], false)
  {
  }
}
