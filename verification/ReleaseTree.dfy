/** Preparing a release: if every step succeeds, the published directory holds exactly the manifest's tree. */
module ReleaseTree {
  import opened Wrappers
  import opened InstallPlan
  import opened InstallPlanner
  import opened FileSystem
  import opened Installer

  /** The nodes at and below a directory are exactly the given tree of relative paths. */
  ghost predicate HasTree(fs: FS, root: Path, tree: map<Path, Node>) {
    forall r: Path :: (root + r in fs <==> r in tree) && (r in tree ==> fs[root + r] == tree[r])
  }

  ghost predicate Bare(fs: FS, root: Path) {
    forall q | q in fs :: !Within(q, root)
  }

  // ---- The tree of a manifest ----

  /** The release directory and every directory on the way to a listed file. */
  ghost function RelDirs(artifacts: seq<Artifact>): set<Path> {
    {[]} + set k, i | 0 <= k < |artifacts| && 0 <= i < |artifacts[k].path| :: artifacts[k].path[..i]
  }

  ghost function DirTree(dirs: set<Path>): map<Path, Node> {
    map d | d in dirs :: Dir(DIR_MODE)
  }

  ghost function FileTree(dirs: set<Path>, artifacts: seq<Artifact>, n: nat): map<Path, Node>
    requires n <= |artifacts|
  {
    if n == 0 then DirTree(dirs)
    else FileTree(dirs, artifacts, n - 1)[artifacts[n - 1].path := File(artifacts[n - 1].digest, artifacts[n - 1].mode)]
  }

  ghost function ManifestTree(m: Manifest): map<Path, Node> {
    FileTree(RelDirs(m.artifacts), m.artifacts, |m.artifacts|)[[MANIFEST_NAME] := File(m.text, FILE_MODE)]
  }

  lemma {:induction false} FileTreeHolds(dirs: set<Path>, artifacts: seq<Artifact>, n: nat)
    requires n <= |artifacts|
    requires forall i, j | 0 <= i < j < |artifacts| :: artifacts[i].path != artifacts[j].path
    ensures var t := FileTree(dirs, artifacts, n);
            && (forall i | 0 <= i < n ::
                  artifacts[i].path in t && t[artifacts[i].path] == File(artifacts[i].digest, artifacts[i].mode))
            && (forall r | r in t :: r in dirs || exists i :: 0 <= i < n && artifacts[i].path == r)
            && (forall d | d in dirs && (forall i | 0 <= i < n :: artifacts[i].path != d) ::
                  d in t && t[d] == Dir(DIR_MODE))
  {
    if n > 0 {
      FileTreeHolds(dirs, artifacts, n - 1);
      var t, u := FileTree(dirs, artifacts, n - 1), FileTree(dirs, artifacts, n);
      forall r | r in u ensures r in dirs || exists i :: 0 <= i < n && artifacts[i].path == r {
        if r == artifacts[n - 1].path {
          assert 0 <= n - 1 < n;
        } else if r !in dirs {
          var i :| 0 <= i < n - 1 && artifacts[i].path == r;
        }
      }
    }
  }

  /**
   * The tree of a valid manifest: its files with their digests and modes, its own text, their directories, and nothing
   * else.
   */
  lemma ManifestTreeContents(m: Manifest)
    requires ValidManifest(m)
    ensures forall a | a in m.artifacts ::
              a.path in ManifestTree(m) && ManifestTree(m)[a.path] == File(a.digest, a.mode)
    ensures [MANIFEST_NAME] in ManifestTree(m) && ManifestTree(m)[[MANIFEST_NAME]] == File(m.text, FILE_MODE)
    ensures forall r | r in ManifestTree(m) ::
              || r == [MANIFEST_NAME] || r in RelDirs(m.artifacts)
              || exists i :: 0 <= i < |m.artifacts| && m.artifacts[i].path == r
    ensures forall d | d in RelDirs(m.artifacts) && d != [MANIFEST_NAME] ::
              d in ManifestTree(m) && ManifestTree(m)[d] == Dir(DIR_MODE)
  {
    FileTreeHolds(RelDirs(m.artifacts), m.artifacts, |m.artifacts|);
    forall d | d in RelDirs(m.artifacts) ensures forall i | 0 <= i < |m.artifacts| :: m.artifacts[i].path != d {
      DirIsNoFile(m, d);
    }
  }

  /** No listed file stands where another needs a directory. */
  lemma DirIsNoFile(m: Manifest, d: Path)
    requires ValidManifest(m) && d in RelDirs(m.artifacts)
    ensures forall i | 0 <= i < |m.artifacts| :: m.artifacts[i].path != d
  {
    forall i | 0 <= i < |m.artifacts| ensures m.artifacts[i].path != d {
      if d != [] {
        var k, j :| 0 <= k < |m.artifacts| && 0 <= j < |m.artifacts[k].path| && d == m.artifacts[k].path[..j];
        assert m.artifacts[k] in m.artifacts && Within(m.artifacts[k].path, d);
      }
      assert m.artifacts[i] in m.artifacts;
    }
  }

  // ---- Well-formedness ----

  lemma {:induction false} NoOrphans(fs: FS, p: Path, q: Path)
    requires WellFormed(fs) && p !in fs && Within(q, p)
    ensures q !in fs
    decreases |q|
  {
    if q in fs {
      assert |p| == |q| ==> p == q;
      assert p <= Parent(q);
      NoOrphans(fs, p, Parent(q));
    }
  }

  lemma {:induction false} MkdirAllWellFormed(fs: FS, p: Path, mode: Mode)
    requires WellFormed(fs) && MkdirAll(fs, p, mode).Some?
    ensures WellFormed(MkdirAll(fs, p, mode).value) && IsDir(MkdirAll(fs, p, mode).value, p)
    ensures forall q | q in fs :: q in MkdirAll(fs, p, mode).value && MkdirAll(fs, p, mode).value[q] == fs[q]
    decreases |p|
  {
    if p !in fs {
      MkdirAllWellFormed(fs, Parent(p), mode);
      NotYet(fs, p, mode);
    }
  }

  lemma NotYet(fs: FS, p: Path, mode: Mode)
    requires p !in fs && p != [] && MkdirAll(fs, Parent(p), mode).Some?
    ensures p !in MkdirAll(fs, Parent(p), mode).value
  {
    assert !Within(Parent(p), p);
    MkdirAllFrame(fs, Parent(p), mode, p);
  }

  lemma EnsureDirOk(fs: FS, p: Path, mode: Mode, owned: bool, os: OS, call: nat)
    requires WellFormed(fs) && RunEnsureDir(fs, p, mode, owned, os, call).ok
    ensures var fs' := Final(fs, RunEnsureDir(fs, p, mode, owned, os, call)); WellFormed(fs') && IsDir(fs', p)
  {
    MkdirAllWellFormed(fs, p, mode);
  }

  lemma RemoveTreeOk(fs: FS, p: Path, os: OS)
    requires WellFormed(fs) && p != [] && RunRemoveTree(fs, p, os).ok
    ensures var fs' := Final(fs, RunRemoveTree(fs, p, os)); WellFormed(fs') && Bare(fs', p)
  {
    var fs' := Final(fs, RunRemoveTree(fs, p, os));
    if p !in fs {
      forall q | q in fs ensures !Within(q, p) {
        if Within(q, p) {
          NoOrphans(fs, p, q);
        }
      }
    } else {
      forall q | q in fs' && q != [] ensures IsDir(fs', Parent(q)) {
        assert IsDir(fs, Parent(q));
        assert !Within(Parent(q), p);
      }
      assert !Within([], p);
    }
  }

  // ---- Staging ----

  lemma BareTree(fs: FS, p: Path, mode: Mode)
    requires WellFormed(fs) && Bare(fs, p) && p != [] && MkdirAll(fs, p, mode).Some?
    ensures HasTree(MkdirAll(fs, p, mode).value[p := Dir(DIR_MODE)], p, DirTree({[]}))
  {
    var made := MkdirAll(fs, p, mode).value[p := Dir(DIR_MODE)];
    assert p + [] == p;
    forall r: Path ensures (p + r in made <==> r in DirTree({[]})) && (r == [] ==> made[p + r] == Dir(DIR_MODE)) {
      if r != [] {
        assert Within(p + r, p) && !Within(p, p + r);
        MkdirAllFrame(fs, p, mode, p + r);
      }
    }
  }

  lemma ResetDirOk(fs: FS, p: Path, os: OS)
    requires WellFormed(fs) && p != [] && RunResetDir(fs, p, DIR_MODE, os).ok
    ensures var fs' := Final(fs, RunResetDir(fs, p, DIR_MODE, os)); WellFormed(fs') && HasTree(fs', p, DirTree({[]}))
  {
    var removed := RunRemoveTree(fs, p, os);
    RemoveTreeOk(fs, p, os);
    var mid := Final(fs, removed);
    EnsureDirOk(mid, p, DIR_MODE, true, os, 1);
    BareTree(mid, p, DIR_MODE);
  }

  ghost predicate PrefixClosed(dirs: set<Path>) {
    [] in dirs && forall d | d in dirs && d != [] :: Parent(d) in dirs
  }

  ghost function Prefixes(d: Path): set<Path> {
    set i | 0 <= i <= |d| :: d[..i]
  }

  lemma {:induction false} ClosedPrefixes(dirs: set<Path>, d: Path)
    requires PrefixClosed(dirs) && d in dirs
    ensures Prefixes(d) <= dirs
    decreases |d|
  {
    if d != [] {
      ClosedPrefixes(dirs, Parent(d));
      forall i | 0 <= i <= |d| ensures d[..i] in dirs {
        if i < |d| {
          assert Parent(d)[..i] == d[..i];
          assert d[..i] in Prefixes(Parent(d));
        } else {
          assert d[..i] == d;
        }
      }
    }
  }

  lemma PrefixesStep(d: Path)
    requires d != []
    ensures Prefixes(d) == Prefixes(Parent(d)) + {d}
  {
    assert d[..|d|] == d;
    forall q | q in Prefixes(d) ensures q in Prefixes(Parent(d)) + {d} {
      var i :| 0 <= i <= |d| && q == d[..i];
      if i < |d| {
        assert Parent(d)[..i] == q;
        assert q in Prefixes(Parent(d));
      } else {
        assert q == d;
      }
    }
    forall q | q in Prefixes(Parent(d)) ensures q in Prefixes(d) {
      var i :| 0 <= i <= |Parent(d)| && q == Parent(d)[..i];
      assert d[..i] == q;
    }
  }

  lemma ClosedExtends(dirs: set<Path>, d: Path)
    requires PrefixClosed(dirs)
    ensures PrefixClosed(dirs + Prefixes(d))
  {
    forall q | q in Prefixes(d) && q != [] ensures Parent(q) in Prefixes(d) {
      var i :| 0 <= i <= |d| && q == d[..i];
      assert Parent(q) == d[..i - 1];
    }
  }

  lemma {:induction false} MkdirAllTree(fs: FS, root: Path, dirs: set<Path>, d: Path)
    requires HasTree(fs, root, DirTree(dirs)) && PrefixClosed(dirs) && MkdirAll(fs, root + d, DIR_MODE).Some?
    ensures HasTree(MkdirAll(fs, root + d, DIR_MODE).value, root, DirTree(dirs + Prefixes(d)))
    decreases |d|
  {
    if d in dirs {
      assert root + d in fs;
      ClosedPrefixes(dirs, d);
      assert dirs + Prefixes(d) == dirs;
    } else {
      assert d != [] && root + d !in fs;
      assert Parent(root + d) == root + Parent(d);
      MkdirAllTree(fs, root, dirs, Parent(d));
      PrefixesStep(d);
      var above := MkdirAll(fs, root + Parent(d), DIR_MODE).value;
      var made := above[root + d := Dir(DIR_MODE)];
      assert MkdirAll(fs, root + d, DIR_MODE) == Some(made);
      AddNode(above, root, DirTree(dirs + Prefixes(Parent(d))), d, Dir(DIR_MODE));
      assert DirTree(dirs + Prefixes(d)) == DirTree(dirs + Prefixes(Parent(d)))[d := Dir(DIR_MODE)];
    }
  }

  lemma AddNode(fs: FS, root: Path, tree: map<Path, Node>, r: Path, node: Node)
    requires HasTree(fs, root, tree)
    ensures HasTree(fs[root + r := node], root, tree[r := node])
  {
    forall q: Path ensures (root + q in fs[root + r := node] <==> q in tree[r := node])
                        && (q in tree[r := node] ==> fs[root + r := node][root + q] == tree[r := node][q]) {
      if root + q == root + r {
        assert q == (root + q)[|root|..] == r;
      }
    }
  }

  lemma EnsureDirTree(fs: FS, root: Path, dirs: set<Path>, d: Path, owned: bool, os: OS)
    requires HasTree(fs, root, DirTree(dirs)) && PrefixClosed(dirs)
    requires RunEnsureDir(fs, root + d, DIR_MODE, owned, os, 0).ok
    ensures var fs' := Final(fs, RunEnsureDir(fs, root + d, DIR_MODE, owned, os, 0));
            HasTree(fs', root, DirTree(dirs + Prefixes(d)))
  {
    MkdirAllTree(fs, root, dirs, d);
    var made := MkdirAll(fs, root + d, DIR_MODE).value;
    var all := dirs + Prefixes(d);
    AddNode(made, root, DirTree(all), d, Dir(DIR_MODE));
    assert d in Prefixes(d) by {
      assert d[..|d|] == d;
    }
    assert DirTree(all)[d := Dir(DIR_MODE)] == DirTree(all);
  }

  // ---- The phases of the preparation ----

  /** The steps of a planned preparation by position. */
  lemma PrepareAt(l: Layout, m: Manifest, sourceRoot: Path, dirs: seq<Path>, i: nat)
    requires i < |ReleaseSteps(l, m, sourceRoot, dirs)|
    ensures |ReleaseSteps(l, m, sourceRoot, dirs)| == 6 + |dirs| + |m.artifacts|
    ensures ReleaseSteps(l, m, sourceRoot, dirs)[i] ==
            if i < 4 then Staging(l, m)[i]
            else if i < 4 + |dirs| then DirStep(dirs[i - 4])
            else if i < 4 + |dirs| + |m.artifacts|
                    then CopyStep(PartialDir(l, m.version), sourceRoot, m.artifacts[i - 4 - |dirs|])
            else Publishing(l, m)[i - 4 - |dirs| - |m.artifacts|]
  {
  }

  /** Induction over a run in which every step succeeds: what each successful step keeps holds at the end. */
  lemma {:induction false} Along(l: Layout, fs: FS, steps: seq<Step>, os: nat -> OS, n: nat, inv: (nat, FS) -> bool)
    requires n <= |steps| && inv(0, fs) && RunSteps(l, fs, steps, os, n).ok
    requires forall k, g | 0 <= k < n && inv(k, g) && RunStep(l, g, steps[k], os(k)).ok ::
               inv(k + 1, Final(g, RunStep(l, g, steps[k], os(k))))
    ensures inv(n, Final(fs, RunSteps(l, fs, steps, os, n)))
  {
    if n > 0 {
      Along(l, fs, steps, os, n - 1, inv);
      var r := RunSteps(l, fs, steps, os, n - 1);
      var g := Final(fs, r);
      var x := RunStep(l, g, steps[n - 1], os(n - 1));
      assert inv(n - 1, g) && x.ok;
      assert inv((n - 1) + 1, Final(g, x));
      assert Final(fs, Ran(r.states + x.states, x.ok)) == Final(g, x);
    }
  }

  lemma BareKept(l: Layout, fs: FS, step: Step, os: OS, root: Path)
    requires Bare(fs, root) && forall q | Within(q, root) :: !Touches(step, q)
    ensures Bare(Final(fs, RunStep(l, fs, step, os)), root)
  {
    var ran := RunStep(l, fs, step, os);
    forall q | q in Final(fs, ran) ensures !Within(q, root) {
      if Within(q, root) {
        StepKeeps(l, fs, step, os, q);
        KeepsFinal(fs, ran, q);
      }
    }
  }

  ghost predicate Staged(fs: FS, l: Layout, version: string, tree: map<Path, Node>) {
    Bare(fs, l.VersionDir(version)) && HasTree(fs, PartialDir(l, version), tree)
  }

  lemma NamesDiffer(version: string)
    ensures version != "." + version + ".partial"
  {
    assert |version| != |"." + version + ".partial"|;
  }

  lemma FinalApart(l: Layout, version: string, rel: Path, q: Path)
    requires Within(q, l.VersionDir(version))
    ensures !Within(PartialDir(l, version) + rel, q) && !Within(q, PartialDir(l, version))
  {
    NamesDiffer(version);
    var final, partial := l.VersionDir(version), PartialDir(l, version);
    assert final[|l.versions|] == version && partial[|l.versions|] == "." + version + ".partial";
    assert q[|l.versions|] == version;
    assert (partial + rel)[|l.versions|] == "." + version + ".partial";
  }

  lemma DirStepOk(l: Layout, fs: FS, path: Path, os: OS)
    requires WellFormed(fs) && RunStep(l, fs, DirStep(path), os).ok
    ensures WellFormed(Final(fs, RunStep(l, fs, DirStep(path), os)))
  {
    EnsureDirOk(fs, path, DIR_MODE, Within(path, l.distRoot), os, 0);
  }

  lemma RemoveStepOk(l: Layout, fs: FS, path: Path, os: OS)
    requires WellFormed(fs) && path != [] && RunStep(l, fs, RemoveStep(RemoveTree, path), os).ok
    ensures var fs' := Final(fs, RunStep(l, fs, RemoveStep(RemoveTree, path), os)); WellFormed(fs') && Bare(fs', path)
  {
    RemoveTreeOk(fs, path, os);
  }

  lemma ResetStepOk(l: Layout, m: Manifest, fs: FS, os: OS)
    requires WellFormed(fs) && Bare(fs, l.VersionDir(m.version)) && RunStep(l, fs, Staging(l, m)[3], os).ok
    ensures Staged(Final(fs, RunStep(l, fs, Staging(l, m)[3], os)), l, m.version, DirTree({[]}))
  {
    var partial := PartialDir(l, m.version);
    ResetDirOk(fs, partial, os);
    forall q | Within(q, l.VersionDir(m.version)) ensures !Touches(Staging(l, m)[3], q) {
      FinalApart(l, m.version, [], q);
      assert partial + [] == partial;
    }
    BareKept(l, fs, Staging(l, m)[3], os, l.VersionDir(m.version));
  }

  lemma DirStepStaged(l: Layout, version: string, fs: FS, dirs: set<Path>, rel: Path, os: OS)
    requires Staged(fs, l, version, DirTree(dirs)) && PrefixClosed(dirs)
    requires RunStep(l, fs, DirStep(PartialDir(l, version) + rel), os).ok
    ensures Staged(Final(fs, RunStep(l, fs, DirStep(PartialDir(l, version) + rel), os)), l, version,
                   DirTree(dirs + Prefixes(rel)))
  {
    var path := PartialDir(l, version) + rel;
    EnsureDirTree(fs, PartialDir(l, version), dirs, rel, Within(path, l.distRoot), os);
    forall q | Within(q, l.VersionDir(version)) ensures !Touches(DirStep(path), q) {
      FinalApart(l, version, rel, q);
    }
    BareKept(l, fs, DirStep(path), os, l.VersionDir(version));
  }

  ghost predicate AllBelow(root: Path, dirs: seq<Path>) {
    forall i | 0 <= i < |dirs| :: |root| <= |dirs[i]| && root <= dirs[i]
  }

  ghost function DirsUpTo(root: Path, dirs: seq<Path>, k: nat): set<Path>
    requires k <= |dirs| && AllBelow(root, dirs)
  {
    if k == 0 then {[]} else DirsUpTo(root, dirs, k - 1) + Prefixes(dirs[k - 1][|root|..])
  }

  lemma {:induction false} DirsUpToClosed(root: Path, dirs: seq<Path>, k: nat)
    requires k <= |dirs| && AllBelow(root, dirs)
    ensures PrefixClosed(DirsUpTo(root, dirs, k))
  {
    if k > 0 {
      DirsUpToClosed(root, dirs, k - 1);
      ClosedExtends(DirsUpTo(root, dirs, k - 1), dirs[k - 1][|root|..]);
    }
  }

  lemma {:induction false} DirsUpToHolds(root: Path, dirs: seq<Path>, k: nat, i: nat)
    requires i < k <= |dirs| && AllBelow(root, dirs)
    ensures dirs[i][|root|..] in DirsUpTo(root, dirs, k)
  {
    if i == k - 1 {
      var rel := dirs[i][|root|..];
      assert rel[..|rel|] == rel;
    } else {
      DirsUpToHolds(root, dirs, k - 1, i);
    }
  }

  lemma {:induction false} DirsUpToWithin(root: Path, artifacts: seq<Artifact>, dirs: seq<Path>, k: nat)
    requires k <= |dirs| && Lists(dirs, DirSet(root, artifacts)) && AllBelow(root, dirs)
    ensures DirsUpTo(root, dirs, k) <= RelDirs(artifacts)
  {
    if k > 0 {
      DirsUpToWithin(root, artifacts, dirs, k - 1);
      var d := dirs[k - 1];
      assert d in DirSet(root, artifacts);
      var a, i :| 0 <= a < |artifacts| && 0 < i < |artifacts[a].path| && d == root + artifacts[a].path[..i];
      forall q | q in Prefixes(d[|root|..]) ensures q in RelDirs(artifacts) {
        var j :| 0 <= j <= |d[|root|..]| && q == d[|root|..][..j];
        assert q == artifacts[a].path[..j];
      }
    }
  }

  /** The directories the planner lists are exactly those on the way to a file, whatever order they come in. */
  lemma AllDirs(root: Path, artifacts: seq<Artifact>, dirs: seq<Path>)
    requires Lists(dirs, DirSet(root, artifacts)) && AllBelow(root, dirs)
    ensures DirsUpTo(root, dirs, |dirs|) == RelDirs(artifacts)
  {
    DirsUpToWithin(root, artifacts, dirs, |dirs|);
    DirsUpToClosed(root, dirs, |dirs|);
    forall q | q in RelDirs(artifacts) ensures q in DirsUpTo(root, dirs, |dirs|) {
      if q != [] {
        var a, i :| 0 <= a < |artifacts| && 0 <= i < |artifacts[a].path| && q == artifacts[a].path[..i];
        assert root + artifacts[a].path[..i] in DirSet(root, artifacts);
        assert root + q in dirs;
        var j :| 0 <= j < |dirs| && dirs[j] == root + q;
        DirsUpToHolds(root, dirs, |dirs|, j);
      }
    }
  }

  lemma CopyStaged(l: Layout, version: string, fs: FS, tree: map<Path, Node>, sourceRoot: Path, a: Artifact, os: OS)
    requires Staged(fs, l, version, tree) && RunStep(l, fs, CopyStep(PartialDir(l, version), sourceRoot, a), os).ok
    ensures Staged(Final(fs, RunStep(l, fs, CopyStep(PartialDir(l, version), sourceRoot, a), os)), l, version,
                   tree[a.path := File(a.digest, a.mode)])
  {
    var partial := PartialDir(l, version);
    AddNode(fs, partial, tree, a.path, File(a.digest, a.mode));
    forall q | Within(q, l.VersionDir(version)) ensures !Touches(CopyStep(partial, sourceRoot, a), q) {
      FinalApart(l, version, a.path, q);
    }
    BareKept(l, fs, CopyStep(partial, sourceRoot, a), os, l.VersionDir(version));
  }

  lemma WritesInside(root: Path, name: string, content: string, q: Path)
    ensures Touches(WriteStep(root + [name], content), q) ==> Within(q, root)
  {
    assert Parent(root + [name]) == root;
  }

  lemma ManifestStaged(l: Layout, m: Manifest, fs: FS, tree: map<Path, Node>, os: OS)
    requires Staged(fs, l, m.version, tree) && RunStep(l, fs, Publishing(l, m)[0], os).ok
    ensures Staged(Final(fs, RunStep(l, fs, Publishing(l, m)[0], os)), l, m.version,
                   tree[[MANIFEST_NAME] := File(m.text, FILE_MODE)])
  {
    var partial := PartialDir(l, m.version);
    AddNode(fs, partial, tree, [MANIFEST_NAME], File(m.text, FILE_MODE));
    forall q | Within(q, l.VersionDir(m.version)) ensures !Touches(Publishing(l, m)[0], q) {
      FinalApart(l, m.version, [MANIFEST_NAME], q);
      WritesInside(partial, MANIFEST_NAME, m.text, q);
    }
    BareKept(l, fs, Publishing(l, m)[0], os, l.VersionDir(m.version));
  }

  /** Renaming a directory onto a free name moves exactly its tree. */
  lemma RenameMovesTree(fs: FS, source: Path, to: Path, tree: map<Path, Node>)
    requires HasTree(fs, source, tree) && Bare(fs, to) && CanRename(fs, source, to) && |source| == |to|
    ensures HasTree(Rename(fs, source, to), to, tree)
  {
    var moved := Rename(fs, source, to);
    var names := set q | q in fs && Within(q, source) :: to + q[|source|..];
    forall r: Path ensures (to + r in moved <==> r in tree) && (r in tree ==> moved[to + r] == tree[r]) {
      assert (to + r)[|to|..] == r;
      if r in tree {
        assert source + r in fs && Within(source + r, source) && (source + r)[|source|..] == r;
        assert to + r in names;
      }
      if to + r in moved {
        assert Within(to + r, to);
        assert to + r !in fs;
      }
    }
  }

  lemma PublishedOk(l: Layout, m: Manifest, fs: FS, tree: map<Path, Node>, os: OS)
    requires Staged(fs, l, m.version, tree) && RunStep(l, fs, Publishing(l, m)[1], os).ok
    ensures HasTree(Final(fs, RunStep(l, fs, Publishing(l, m)[1], os)), l.VersionDir(m.version), tree)
  {
    var source, to := PartialDir(l, m.version), l.VersionDir(m.version);
    PublishStepOk(l, fs, source, to, os);
    RenameMovesTree(fs, source, to, tree);
  }

  lemma PublishStepOk(l: Layout, fs: FS, source: Path, to: Path, os: OS)
    requires RunStep(l, fs, Step(PublishDir, source, [], "", 0, 0, Absolute(to), ""), os).ok
    ensures CanRename(fs, source, to)
    ensures Final(fs, RunStep(l, fs, Step(PublishDir, source, [], "", 0, 0, Absolute(to), ""), os))
            == Rename(fs, source, to)
  {
  }

  // ---- The whole preparation ----

  /** What holds after the first n steps of a preparation that has succeeded so far. */
  ghost predicate PhaseOk(l: Layout, m: Manifest, dirs: seq<Path>, n: nat, fs: FS)
    requires AllBelow(PartialDir(l, m.version), dirs)
  {
    if n < 3 then WellFormed(fs)
    else if n == 3 then WellFormed(fs) && Bare(fs, l.VersionDir(m.version))
    else if n <= 4 + |dirs| then Staged(fs, l, m.version, DirTree(DirsUpTo(PartialDir(l, m.version), dirs, n - 4)))
    else if n <= 4 + |dirs| + |m.artifacts|
            then Staged(fs, l, m.version, FileTree(RelDirs(m.artifacts), m.artifacts, n - 4 - |dirs|))
    else if n == 5 + |dirs| + |m.artifacts| then Staged(fs, l, m.version, ManifestTree(m))
    else HasTree(fs, l.VersionDir(m.version), ManifestTree(m))
  }

  lemma EarlyPhases(l: Layout, m: Manifest, dirs: seq<Path>, n: nat, fs: FS, os: OS)
    requires AllBelow(PartialDir(l, m.version), dirs) && n < 4 && PhaseOk(l, m, dirs, n, fs)
             && RunStep(l, fs, Staging(l, m)[n], os).ok
    ensures PhaseOk(l, m, dirs, n + 1, Final(fs, RunStep(l, fs, Staging(l, m)[n], os)))
  {
    if n < 2 {
      DirStepOk(l, fs, Staging(l, m)[n].path, os);
    } else if n == 2 {
      RemoveStepOk(l, fs, l.VersionDir(m.version), os);
    } else {
      ResetStepOk(l, m, fs, os);
    }
  }

  lemma DirPhase(l: Layout, version: string, dirs: seq<Path>, k: nat, fs: FS, os: OS)
    requires AllBelow(PartialDir(l, version), dirs) && k < |dirs|
    requires Staged(fs, l, version, DirTree(DirsUpTo(PartialDir(l, version), dirs, k)))
             && RunStep(l, fs, DirStep(dirs[k]), os).ok
    ensures Staged(Final(fs, RunStep(l, fs, DirStep(dirs[k]), os)), l, version,
                   DirTree(DirsUpTo(PartialDir(l, version), dirs, k + 1)))
  {
    var partial := PartialDir(l, version);
    var rel := dirs[k][|partial|..];
    assert dirs[k] == partial + rel;
    DirsUpToClosed(partial, dirs, k);
    DirStepStaged(l, version, fs, DirsUpTo(partial, dirs, k), rel, os);
  }

  /** With no file copied yet the staged tree is the directories alone. */
  lemma DirsDone(l: Layout, m: Manifest, dirs: seq<Path>)
    requires Lists(dirs, DirSet(PartialDir(l, m.version), m.artifacts)) && AllBelow(PartialDir(l, m.version), dirs)
    ensures DirTree(DirsUpTo(PartialDir(l, m.version), dirs, |dirs|)) == FileTree(RelDirs(m.artifacts), m.artifacts, 0)
  {
    AllDirs(PartialDir(l, m.version), m.artifacts, dirs);
  }

  lemma CopyPhase(l: Layout, m: Manifest, sourceRoot: Path, k: nat, fs: FS, os: OS)
    requires k < |m.artifacts| && Staged(fs, l, m.version, FileTree(RelDirs(m.artifacts), m.artifacts, k))
    requires RunStep(l, fs, CopyStep(PartialDir(l, m.version), sourceRoot, m.artifacts[k]), os).ok
    ensures Staged(Final(fs, RunStep(l, fs, CopyStep(PartialDir(l, m.version), sourceRoot, m.artifacts[k]), os)), l,
                   m.version,
                   FileTree(RelDirs(m.artifacts), m.artifacts, k + 1))
  {
    CopyStaged(l, m.version, fs, FileTree(RelDirs(m.artifacts), m.artifacts, k), sourceRoot, m.artifacts[k], os);
  }

  lemma ManifestPhase(l: Layout, m: Manifest, fs: FS, os: OS)
    requires Staged(fs, l, m.version, FileTree(RelDirs(m.artifacts), m.artifacts, |m.artifacts|))
    requires RunStep(l, fs, Publishing(l, m)[0], os).ok
    ensures Staged(Final(fs, RunStep(l, fs, Publishing(l, m)[0], os)), l, m.version, ManifestTree(m))
  {
    ManifestStaged(l, m, fs, FileTree(RelDirs(m.artifacts), m.artifacts, |m.artifacts|), os);
  }

  lemma UnitDirPhase(l: Layout, m: Manifest, fs: FS, os: OS)
    requires ValidLayout(l) && HasTree(fs, l.VersionDir(m.version), ManifestTree(m))
             && RunStep(l, fs, DirStep(l.unitDir), os).ok
    ensures HasTree(Final(fs, RunStep(l, fs, DirStep(l.unitDir), os)), l.VersionDir(m.version), ManifestTree(m))
  {
    forall r: Path ensures SameAt(fs, Final(fs, RunStep(l, fs, DirStep(l.unitDir), os)), l.VersionDir(m.version) + r) {
      var p := l.VersionDir(m.version) + r;
      assert l.distRoot <= p;
      StepKeeps(l, fs, DirStep(l.unitDir), os, p);
      KeepsFinal(fs, RunStep(l, fs, DirStep(l.unitDir), os), p);
    }
  }

  lemma ListedBelow(root: Path, artifacts: seq<Artifact>, dirs: seq<Path>)
    requires Lists(dirs, DirSet(root, artifacts))
    ensures AllBelow(root, dirs)
  {
    forall i | 0 <= i < |dirs| ensures |root| <= |dirs[i]| && root <= dirs[i] {
      assert dirs[i] in DirSet(root, artifacts);
    }
  }

  /**
   * If a planned preparation succeeds, the release directory holds exactly the manifest's tree, whatever was left there
   * or in the staging directory by an interrupted run.
   */
  lemma PreparedRelease(plan: Plan, input: InstallInput, dirs: seq<Path>, fs: FS, os: nat -> OS)
    requires IsInstallation(plan, input, dirs) && WellFormed(fs)
    requires RunSteps(plan.layout, fs, plan.prepare, os, |plan.prepare|).ok
    ensures HasTree(Final(fs, RunSteps(plan.layout, fs, plan.prepare, os, |plan.prepare|)),
                    plan.layout.VersionDir(plan.version), ManifestTree(input.manifest))
  {
    var l, m := input.layout, input.manifest;
    ListedBelow(PartialDir(l, m.version), m.artifacts, dirs);
    var inv := (n: nat, g: FS) => PhaseOk(l, m, dirs, n, g);
    forall k, g | 0 <= k < |plan.prepare| && inv(k, g) && RunStep(l, g, plan.prepare[k], os(k)).ok
      ensures inv(k + 1, Final(g, RunStep(l, g, plan.prepare[k], os(k))))
    {
      PhaseStep(plan, input, dirs, k, g, os(k));
    }
    Along(l, fs, plan.prepare, os, |plan.prepare|, inv);
  }

  lemma MiddlePhases(l: Layout, m: Manifest, sourceRoot: Path, dirs: seq<Path>, k: nat, g: FS, os: OS, step: Step)
    requires AllBelow(PartialDir(l, m.version), dirs) && Lists(dirs, DirSet(PartialDir(l, m.version), m.artifacts))
    requires 4 <= k < 4 + |dirs| + |m.artifacts| && PhaseOk(l, m, dirs, k, g) && RunStep(l, g, step, os).ok
    requires step == if k < 4 + |dirs| then DirStep(dirs[k - 4])
             else CopyStep(PartialDir(l, m.version), sourceRoot, m.artifacts[k - 4 - |dirs|])
    ensures PhaseOk(l, m, dirs, k + 1, Final(g, RunStep(l, g, step, os)))
  {
    if k < 4 + |dirs| {
      DirPhase(l, m.version, dirs, k - 4, g, os);
    } else {
      DirsDone(l, m, dirs);
      CopyPhase(l, m, sourceRoot, k - 4 - |dirs|, g, os);
    }
  }

  lemma LatePhases(l: Layout, m: Manifest, dirs: seq<Path>, k: nat, g: FS, os: OS)
    requires AllBelow(PartialDir(l, m.version), dirs) && Lists(dirs, DirSet(PartialDir(l, m.version), m.artifacts))
    requires 4 + |dirs| + |m.artifacts| <= k < 6 + |dirs| + |m.artifacts|
    requires PhaseOk(l, m, dirs, k, g) && RunStep(l, g, Publishing(l, m)[k - 4 - |dirs| - |m.artifacts|], os).ok
    ensures PhaseOk(l, m, dirs, k + 1, Final(g, RunStep(l, g, Publishing(l, m)[k - 4 - |dirs| - |m.artifacts|], os)))
  {
    if k == 4 + |dirs| + |m.artifacts| {
      DirsDone(l, m, dirs);
      ManifestPhase(l, m, g, os);
    } else {
      PublishedOk(l, m, g, ManifestTree(m), os);
    }
  }

  lemma PhaseStep(plan: Plan, input: InstallInput, dirs: seq<Path>, k: nat, g: FS, os: OS)
    requires IsInstallation(plan, input, dirs) && k < |plan.prepare|
             && AllBelow(PartialDir(input.layout, input.manifest.version), dirs)
    requires PhaseOk(input.layout, input.manifest, dirs, k, g) && RunStep(input.layout, g, plan.prepare[k], os).ok
    ensures PhaseOk(input.layout, input.manifest, dirs, k + 1, Final(g, RunStep(input.layout, g, plan.prepare[k], os)))
  {
    var l, m := input.layout, input.manifest;
    if k < |plan.prepare| - 1 {
      PrepareAt(l, m, input.sourceRoot, dirs, k);
      if k < 4 {
        EarlyPhases(l, m, dirs, k, g, os);
      } else if k < 4 + |dirs| + |m.artifacts| {
        MiddlePhases(l, m, input.sourceRoot, dirs, k, g, os, plan.prepare[k]);
      } else {
        LatePhases(l, m, dirs, k, g, os);
      }
    } else {
      UnitDirPhase(l, m, g, os);
    }
  }
}
