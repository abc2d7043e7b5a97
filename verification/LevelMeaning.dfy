/** Which documents cap each level of a charged chain, and that every one of them binds what is admitted there. */
module LevelMeaning {
  import opened Wrappers
  import opened Results
  import opened AccountingModel
  import opened Limits
  import opened PositionRows
  import opened Ledger
  import opened LedgerInvariant
  import opened LedgerRuns

  // ---- What one limits document declares ----

  /**
   * The value a document declares for a field: any spend, count or depth but a negative one, and any other but an unset
   * one.
   */
  function Wants(d: WireLimits, f: Field): Option<int> {
    match f
    case FSpend => if d.spend >= 0 then Some(d.spend) else None
    case FConcurrency => if d.concurrency > 0 then Some(d.concurrency) else None
    case FModelSteps => if d.modelSteps > 0 then Some(d.modelSteps) else None
    case FChildCount => if d.childCount >= 0 then Some(d.childCount) else None
    case FDelegationDepth => if d.delegationDepth >= 0 then Some(d.delegationDepth) else None
    case FAttemptSeconds => if d.attemptSeconds > 0 then Some(d.attemptSeconds) else None
    case FRootDeadline => if d.rootDeadline != 0 then Some(d.rootDeadline) else None
  }

  function AllWant(docs: seq<WireLimits>, f: Field): (r: seq<Option<int>>)
    ensures |r| == |docs|
  {
    seq(|docs|, i requires 0 <= i < |docs| => Wants(docs[i], f))
  }

  predicate Real(currency: string) {
    currency != UNCONFIGURED && currency != ""
  }

  /** A document names a currency that differs from a real one named before it. */
  ghost predicate Disagree(docs: seq<WireLimits>) {
    exists i, j | 0 <= i < j < |docs| ::
      Real(docs[i].currency) && docs[j].currency != UNCONFIGURED && docs[j].currency != docs[i].currency
  }

  /** The one real currency the documents name, empty when they name none. */
  ghost predicate Names(docs: seq<WireLimits>, currency: string) {
    && (forall i | 0 <= i < |docs| && Real(docs[i].currency) :: docs[i].currency == currency)
    && (currency != "" ==> exists i :: 0 <= i < |docs| && docs[i].currency == currency && Real(currency))
  }

  // ---- The documents of a level ----

  /** The active budget stored under an identity of the installation. */
  function Active(budgets: Budgets, install: ID, id: ID): seq<WireLimits> {
    if id in budgets && budgets[id].active && budgets[id].install == install then [budgets[id].limits] else []
  }

  function Own(limits: Option<WireLimits>): seq<WireLimits> {
    if limits.Some? then [limits.value] else []
  }

  /** A charged reference and the documents that cap it. */
  datatype Source = Source(ref: LevelRef, docs: seq<WireLimits>)

  function Member(budgets: Budgets, install: ID, kind: PositionKind, id: ID, limits: Option<WireLimits>): Source {
    Source(LevelRef(kind, id), Own(limits) + Active(budgets, install, id))
  }

  /** The snapshot lists the nearest organization first; the chain runs from the root down. */
  function Organizations(budgets: Budgets, install: ID, ancestors: seq<SnapOrg>): (r: seq<Source>)
    ensures |r| == |ancestors|
  {
    seq(|ancestors|, i requires 0 <= i < |ancestors| =>
      var org := ancestors[|ancestors| - 1 - i]; Member(budgets, install, KOrganization, org.id, org.limits))
  }

  function Optional(budgets: Budgets, install: ID, kind: PositionKind, id: ID,
                    member: Option<SnapMember>): seq<Source> {
    if id == "" || member.None? then [] else [Member(budgets, install, kind, id, member.value.limits)]
  }

  /** Installation, organizations, project, worker. */
  function Scoped(budgets: Budgets, scope: Scope, snap: Snapshot): seq<Source> {
    [Source(LevelRef(KInstallation, scope.install), Active(budgets, scope.install, scope.install))]
    + Organizations(budgets, scope.install, snap.ancestors)
    + Optional(budgets, scope.install, KProject, scope.project, snap.project)
    + Optional(budgets, scope.install, KWorker, scope.worker, snap.worker)
  }

  /** The root dimension is the root task, or the operation itself, capped by what the caller declares. */
  function RootSource(input: ReserveInput): Source {
    Source(LevelRef(KRootTask, if input.rootTask.Some? then input.rootTask.value else input.operation), [input.limits])
  }

  function SnapshotFor(scope: Scope, peer: Result<Snapshot>): Snapshot {
    if scope == Scope(scope.install, "", "", "", "") || peer.Err? then EMPTY_SNAPSHOT else peer.value
  }

  /** Everything a request charges, in order. */
  function Sources(budgets: Budgets, input: ReserveInput, env: Env): seq<Source> {
    Scoped(budgets, input.scope, SnapshotFor(input.scope, env.peer)) + [RootSource(input)]
  }

  /** A named project or worker is the snapshot's, in the named organization if there is one. */
  predicate Present(member: Option<SnapMember>, id: ID, organization: ID) {
    id != "" ==>
      member.Some? && member.value.id == id && (organization != "" ==> member.value.organization == organization)
  }

  /** Everything the scope names exists. */
  predicate Resolves(scope: Scope, snap: Snapshot) {
    && (scope.organization != "" ==> snap.ancestors != [])
    && Present(snap.project, scope.project, scope.organization)
    && Present(snap.worker, scope.worker, scope.organization)
  }

  // ---- What a level carries ----

  /** The shipped default for a field that no document of a level declares. */
  function Shipped(s: Source, f: Field, now: int): Option<int> {
    match s.ref.kind
    case KInstallation =>
      if s.docs != [] then None else if f == FSpend then Some(0) else if f == FConcurrency then Some(4) else None
    case KWorker =>
      if f == FConcurrency then Some(1) else if f == FModelSteps then Some(100)
      else if f == FAttemptSeconds then Some(1800) else None
    case KRootTask =>
      if f == FChildCount then Some(8) else if f == FDelegationDepth then Some(3)
      else if f == FRootDeadline then Some(now + 86_400_000_000_000) else None
    case _ => None
  }

  /** The least declared value, or the shipped default where no document declares one. */
  ghost predicate CarriesField(s: Source, f: Field, now: int, v: Option<int>) {
    if forall i | 0 <= i < |s.docs| :: Wants(s.docs[i], f).None? then v == Shipped(s, f, now)
    else IsMinimum(AllWant(s.docs, f), v)
  }

  ghost predicate Carries(l: Level, s: Source, now: int) {
    && l.ref == s.ref
    && Names(s.docs, l.caps.currency)
    && forall f :: CarriesField(s, f, now, Get(l.caps, f))
  }

  // ---- One document at a time ----

  ghost predicate Summarizes(c: Caps, docs: seq<WireLimits>) {
    Names(docs, c.currency) && forall f :: IsMinimum(AllWant(docs, f), Get(c, f))
  }

  lemma MergedWant(c: Caps, d: WireLimits, f: Field)
    requires MergeLimits(c, Some(d)).Ok?
    ensures Get(MergeLimits(c, Some(d)).value, f) == Earlier(Get(c, f), Wants(d, f))
  {
  }

  lemma WantsAppend(docs: seq<WireLimits>, d: WireLimits, f: Field)
    ensures AllWant(docs + [d], f) == AllWant(docs, f) + [Wants(d, f)]
  {
  }

  lemma DisagreeStep(docs: seq<WireLimits>, d: WireLimits, c: string)
    requires Names(docs, c) && !Disagree(docs)
    ensures Disagree(docs + [d]) <==> d.currency != UNCONFIGURED && c != "" && d.currency != c
  {
    var all := docs + [d];
    assert all[|docs|] == d && forall i | 0 <= i < |docs| :: all[i] == docs[i];
    if d.currency != UNCONFIGURED && c != "" && d.currency != c {
      var i :| 0 <= i < |docs| && docs[i].currency == c && Real(c);
      assert Real(all[i].currency) && all[|docs|].currency != all[i].currency;
    }
    if Disagree(all) {
      var i, j :| 0 <= i < j < |all| && Real(all[i].currency) && all[j].currency != UNCONFIGURED
        && all[j].currency != all[i].currency;
      assert j == |docs|;
    }
  }

  lemma NamesStep(docs: seq<WireLimits>, d: WireLimits, c: string, next: string)
    requires Names(docs, c) && (d.currency == UNCONFIGURED ==> next == c)
    requires d.currency != UNCONFIGURED ==> JoinCurrency(c, d.currency) == Ok(next)
    ensures Names(docs + [d], next)
  {
    var all := docs + [d];
    assert all[|docs|] == d && forall i | 0 <= i < |docs| :: all[i] == docs[i];
    if c != "" {
      var i :| 0 <= i < |docs| && docs[i].currency == c && Real(c);
      assert all[i].currency == c;
    }
  }

  /**
   * Merging one more document fails exactly on a currency that disagrees, and otherwise summarizes one document more.
   */
  lemma SummaryStep(c: Caps, docs: seq<WireLimits>, d: WireLimits)
    requires Summarizes(c, docs) && !Disagree(docs)
    ensures MergeLimits(c, Some(d)).Ok? <==> !Disagree(docs + [d])
    ensures MergeLimits(c, Some(d)).Ok? ==> Summarizes(MergeLimits(c, Some(d)).value, docs + [d])
    ensures MergeLimits(c, Some(d)).Err? ==> MergeLimits(c, Some(d)).fault == InvalidInput
  {
    DisagreeStep(docs, d, c.currency);
    if MergeLimits(c, Some(d)).Ok? {
      var merged := MergeLimits(c, Some(d)).value;
      NamesStep(docs, d, c.currency, merged.currency);
      forall f ensures IsMinimum(AllWant(docs + [d], f), Get(merged, f)) {
        MergedWant(c, d, f);
        WantsAppend(docs, d, f);
        MinimumStep(AllWant(docs, f), Get(c, f), Wants(d, f));
      }
    }
  }

  lemma SummaryOption(c: Caps, docs: seq<WireLimits>, d: Option<WireLimits>)
    requires Summarizes(c, docs) && !Disagree(docs)
    ensures MergeLimits(c, d).Ok? <==> !Disagree(docs + Own(d))
    ensures MergeLimits(c, d).Ok? ==> Summarizes(MergeLimits(c, d).value, docs + Own(d))
    ensures MergeLimits(c, d).Err? ==> MergeLimits(c, d).fault == InvalidInput
  {
    if d.Some? {
      SummaryStep(c, docs, d.value);
    } else {
      assert docs + [] == docs;
    }
  }

  lemma NothingSummarized()
    ensures Summarizes(NO_CAPS, []) && !Disagree([])
  {
    forall f ensures IsMinimum(AllWant([], f), Get(NO_CAPS, f)) {
    }
  }

  // ---- One level at a time ----

  lemma OwnSummary(limits: Option<WireLimits>)
    ensures MergeLimits(NO_CAPS, limits).Ok? && !Disagree(Own(limits))
    ensures Summarizes(MergeLimits(NO_CAPS, limits).value, Own(limits))
  {
    NothingSummarized();
    SummaryOption(NO_CAPS, [], limits);
    assert [] + Own(limits) == Own(limits);
  }

  lemma MemberMeaning(budgets: Budgets, install: ID, kind: PositionKind, id: ID, limits: Option<WireLimits>)
    ensures var s := Member(budgets, install, kind, id, limits); var caps := MemberCaps(budgets, install, id, limits);
            && (caps.Ok? <==> !Disagree(s.docs))
            && (caps.Ok? ==> Summarizes(caps.value, s.docs))
            && (caps.Err? ==> caps.fault == InvalidInput)
  {
    OwnSummary(limits);
    var stored := BudgetLimits(LoadBudget(budgets, install, id));
    assert Own(stored) == Active(budgets, install, id);
    SummaryOption(MergeLimits(NO_CAPS, limits).value, Own(limits), stored);
  }

  /** A summary with the shipped defaults filled in is what a level carries. */
  lemma FilledCarries(l: Level, c: Caps, s: Source, now: int)
    requires Summarizes(c, s.docs) && l.ref == s.ref && l.caps.currency == c.currency
    requires forall f :: Get(l.caps, f) == if Get(c, f).None? then Shipped(s, f, now) else Get(c, f)
    ensures Carries(l, s, now)
  {
    forall f ensures CarriesField(s, f, now, Get(l.caps, f)) {
      assert IsMinimum(AllWant(s.docs, f), Get(c, f));
      assert forall i | 0 <= i < |s.docs| :: AllWant(s.docs, f)[i] == Wants(s.docs[i], f);
    }
  }

  lemma InstallationMeaning(budgets: Budgets, install: ID, now: int)
    ensures var s := Source(LevelRef(KInstallation, install), Active(budgets, install, install));
            && !Disagree(s.docs)
            && InstallationLevel(budgets, install).Ok? && Carries(InstallationLevel(budgets, install).value, s, now)
  {
    var s := Source(LevelRef(KInstallation, install), Active(budgets, install, install));
    var stored := BudgetLimits(LoadBudget(budgets, install, install));
    assert Own(stored) == s.docs && [] + s.docs == s.docs;
    NothingSummarized();
    SummaryOption(NO_CAPS, [], stored);
    FilledCarries(InstallationLevel(budgets, install).value, MergeLimits(NO_CAPS, stored).value, s, now);
  }

  lemma MemberCarries(budgets: Budgets, install: ID, kind: PositionKind, id: ID, limits: Option<WireLimits>, now: int)
    requires kind == KOrganization || kind == KProject
    requires MemberCaps(budgets, install, id, limits).Ok?
    ensures Carries(Level(LevelRef(kind, id), MemberCaps(budgets, install, id, limits).value),
                    Member(budgets, install, kind, id, limits), now)
  {
    var c := MemberCaps(budgets, install, id, limits).value;
    MemberMeaning(budgets, install, kind, id, limits);
    FilledCarries(Level(LevelRef(kind, id), c), c, Member(budgets, install, kind, id, limits), now);
  }

  lemma WorkerCarries(budgets: Budgets, install: ID, id: ID, limits: Option<WireLimits>, now: int)
    requires MemberCaps(budgets, install, id, limits).Ok?
    ensures Carries(Level(LevelRef(KWorker, id), FillWorkerDefaults(MemberCaps(budgets, install, id, limits).value)),
                    Member(budgets, install, KWorker, id, limits), now)
  {
    var c := MemberCaps(budgets, install, id, limits).value;
    MemberMeaning(budgets, install, KWorker, id, limits);
    FilledCarries(Level(LevelRef(KWorker, id), FillWorkerDefaults(c)), c, Member(budgets, install, KWorker, id, limits),
                  now);
  }

  lemma RootMeaning(input: ReserveInput, now: int)
    ensures var level := RootLevel(RootSource(input).ref.ref, input.limits, now);
            !Disagree(RootSource(input).docs) && level.Ok? && Carries(level.value, RootSource(input), now)
  {
    NothingSummarized();
    SummaryStep(NO_CAPS, [], input.limits);
    assert [] + [input.limits] == [input.limits];
    var c := MergeLimits(NO_CAPS, Some(input.limits)).value;
    FilledCarries(RootLevel(RootSource(input).ref.ref, input.limits, now).value, c, RootSource(input), now);
  }

  // ---- The chain ----

  /** The levels are those of the sources, one by one. */
  ghost predicate CarryAll(levels: seq<Level>, sources: seq<Source>, now: int) {
    |levels| == |sources| && forall i | 0 <= i < |levels| :: Carries(levels[i], sources[i], now)
  }

  ghost predicate Agreed(sources: seq<Source>) {
    forall i | 0 <= i < |sources| :: !Disagree(sources[i].docs)
  }

  /** Levels that are built exactly when the documents of their sources agree, and then carry them. */
  ghost predicate Built(r: Result<seq<Level>>, sources: seq<Source>, now: int) {
    && (r.Ok? <==> Agreed(sources))
    && (r.Ok? ==> CarryAll(r.value, sources, now))
    && (r.Err? ==> r.fault == InvalidInput)
  }

  lemma OrganizationsHead(budgets: Budgets, install: ID, ancestors: seq<SnapOrg>)
    requires ancestors != []
    ensures var n := |ancestors| - 1; var org := ancestors[n];
            Organizations(budgets, install, ancestors)
            == [Member(budgets, install, KOrganization, org.id, org.limits)]
              + Organizations(budgets, install, ancestors[..n])
  {
  }

  /** A single level, made from the caps of its source or refused with them. */
  lemma OneBuilt(caps: Result<Caps>, r: Result<seq<Level>>, s: Source, now: int)
    requires (caps.Ok? <==> !Disagree(s.docs)) && (caps.Err? ==> caps.fault == InvalidInput && r == Err(InvalidInput))
    requires caps.Ok? ==> r.Ok? && |r.value| == 1 && Carries(r.value[0], s, now)
    ensures Built(r, [s], now)
  {
    assert [s][0] == s;
  }

  lemma Joined(a: seq<Level>, b: seq<Level>, s: seq<Source>, t: seq<Source>, now: int)
    requires CarryAll(a, s, now) && CarryAll(b, t, now)
    ensures CarryAll(a + b, s + t, now)
  {
  }

  lemma AgreedBoth(s: seq<Source>, t: seq<Source>)
    ensures Agreed(s + t) <==> Agreed(s) && Agreed(t)
  {
    if Agreed(s + t) {
      assert forall i | 0 <= i < |s| :: (s + t)[i] == s[i];
      assert forall i | 0 <= i < |t| :: (s + t)[|s| + i] == t[i];
    }
  }

  /** Built levels in a row are built as a whole. */
  function Append(a: Result<seq<Level>>, b: Result<seq<Level>>): Result<seq<Level>> {
    var x :- a;
    var y :- b;
    Ok(x + y)
  }

  lemma AppendBuilt(a: Result<seq<Level>>, b: Result<seq<Level>>, s: seq<Source>, t: seq<Source>, now: int)
    requires Built(a, s, now) && Built(b, t, now)
    ensures Built(Append(a, b), s + t, now)
  {
    AgreedBoth(s, t);
    if a.Ok? && b.Ok? {
      Joined(a.value, b.value, s, t, now);
    }
  }

  lemma {:induction false} OrganizationsBuilt(budgets: Budgets, install: ID, ancestors: seq<SnapOrg>, now: int)
    ensures Built(OrganizationLevels(budgets, install, ancestors), Organizations(budgets, install, ancestors), now)
  {
    if ancestors != [] {
      var n := |ancestors| - 1;
      OrganizationsBuilt(budgets, install, ancestors[..n], now);
      OrganizationsHead(budgets, install, ancestors);
      var org := ancestors[n];
      var one, below := OneOrganization(budgets, install, org), OrganizationLevels(budgets, install, ancestors[..n]);
      OrganizationBuilt(budgets, install, org, now);
      AppendBuilt(one, below, [Member(budgets, install, KOrganization, org.id, org.limits)],
                  Organizations(budgets, install, ancestors[..n]), now);
      assert OrganizationLevels(budgets, install, ancestors) == Append(one, below);
    }
  }

  function OneOrganization(budgets: Budgets, install: ID, org: SnapOrg): Result<seq<Level>> {
    var caps :- MemberCaps(budgets, install, org.id, org.limits);
    Ok([Level(LevelRef(KOrganization, org.id), caps)])
  }

  lemma OrganizationBuilt(budgets: Budgets, install: ID, org: SnapOrg, now: int)
    ensures Built(OneOrganization(budgets, install, org), [Member(budgets, install, KOrganization, org.id, org.limits)],
                  now)
  {
    var caps := MemberCaps(budgets, install, org.id, org.limits);
    MemberMeaning(budgets, install, KOrganization, org.id, org.limits);
    if caps.Ok? {
      MemberCarries(budgets, install, KOrganization, org.id, org.limits, now);
    }
    OneBuilt(caps, OneOrganization(budgets, install, org), Member(budgets, install, KOrganization, org.id, org.limits),
             now);
  }

  lemma ProjectBuilt(budgets: Budgets, scope: Scope, snap: Snapshot, now: int)
    requires Present(snap.project, scope.project, scope.organization)
    ensures Built(ProjectLevels(budgets, scope, snap),
                  Optional(budgets, scope.install, KProject, scope.project, snap.project), now)
  {
    if scope.project != "" {
      var limits := snap.project.value.limits;
      var caps := MemberCaps(budgets, scope.install, scope.project, limits);
      MemberMeaning(budgets, scope.install, KProject, scope.project, limits);
      if caps.Ok? {
        MemberCarries(budgets, scope.install, KProject, scope.project, limits, now);
      }
      OneBuilt(caps, ProjectLevels(budgets, scope, snap),
               Member(budgets, scope.install, KProject, scope.project, limits), now);
    }
  }

  lemma WorkerBuilt(budgets: Budgets, scope: Scope, snap: Snapshot, now: int)
    requires Present(snap.worker, scope.worker, scope.organization)
    ensures Built(WorkerLevels(budgets, scope, snap),
                  Optional(budgets, scope.install, KWorker, scope.worker, snap.worker), now)
  {
    if scope.worker != "" {
      var limits := snap.worker.value.limits;
      var caps := MemberCaps(budgets, scope.install, scope.worker, limits);
      MemberMeaning(budgets, scope.install, KWorker, scope.worker, limits);
      if caps.Ok? {
        WorkerCarries(budgets, scope.install, scope.worker, limits, now);
      }
      OneBuilt(caps, WorkerLevels(budgets, scope, snap),
               Member(budgets, scope.install, KWorker, scope.worker, limits), now);
    }
  }

  lemma InstallationBuilt(budgets: Budgets, install: ID, now: int)
    ensures InstallationLevel(budgets, install).Ok?
    ensures Built(Ok([InstallationLevel(budgets, install).value]),
                  [Source(LevelRef(KInstallation, install), Active(budgets, install, install))], now)
  {
    InstallationMeaning(budgets, install, now);
  }

  lemma ScopedBuilt(budgets: Budgets, scope: Scope, snap: Snapshot, now: int)
    requires Resolves(scope, snap)
    ensures Built(BuildLevels(budgets, scope, snap), Scoped(budgets, scope, snap), now)
  {
    InstallationBuilt(budgets, scope.install, now);
    OrganizationsBuilt(budgets, scope.install, snap.ancestors, now);
    ProjectBuilt(budgets, scope, snap, now);
    WorkerBuilt(budgets, scope, snap, now);
    var i: Result<seq<Level>> := Ok([InstallationLevel(budgets, scope.install).value]);
    var o := OrganizationLevels(budgets, scope.install, snap.ancestors);
    var p, w := ProjectLevels(budgets, scope, snap), WorkerLevels(budgets, scope, snap);
    var si := [Source(LevelRef(KInstallation, scope.install), Active(budgets, scope.install, scope.install))];
    var so := Organizations(budgets, scope.install, snap.ancestors);
    var sp := Optional(budgets, scope.install, KProject, scope.project, snap.project);
    var sw := Optional(budgets, scope.install, KWorker, scope.worker, snap.worker);
    AppendBuilt(i, o, si, so, now);
    AppendBuilt(Append(i, o), p, si + so, sp, now);
    AppendBuilt(Append(Append(i, o), p), w, si + so + sp, sw, now);
    assert BuildLevels(budgets, scope, snap) == Append(Append(Append(i, o), p), w);
  }

  lemma UnresolvedFails(budgets: Budgets, scope: Scope, snap: Snapshot)
    requires !Resolves(scope, snap)
    ensures BuildLevels(budgets, scope, snap) == Err(InvalidInput)
  {
    InstallationMeaning(budgets, scope.install, 0);
    OrganizationsBuilt(budgets, scope.install, snap.ancestors, 0);
    if Present(snap.project, scope.project, scope.organization) {
      ProjectBuilt(budgets, scope, snap, 0);
    }
  }

  /** The peer answers when the scope needs it, and everything the scope names exists. */
  predicate Located(input: ReserveInput, env: Env) {
    && (input.scope != Scope(input.scope.install, "", "", "", "") ==> env.peer.Ok?)
    && Resolves(input.scope, SnapshotFor(input.scope, env.peer))
  }

  /**
   * A request has a chain if and only if what its scope names exists and the documents of no level disagree on the
   * currency. The chain then charges exactly the sources, in order, and every level carries, field by field, the least
   * value its own documents declare, or the shipped default.
   */
  lemma ChainExact(budgets: Budgets, input: ReserveInput, env: Env)
    ensures Chain(budgets, input, env).Ok? <==> Located(input, env) && Agreed(Sources(budgets, input, env))
    ensures Chain(budgets, input, env).Ok? ==>
              CarryAll(Chain(budgets, input, env).value, Sources(budgets, input, env), env.now)
  {
    var scope, snap := input.scope, SnapshotFor(input.scope, env.peer);
    RootMeaning(input, env.now);
    if scope != Scope(scope.install, "", "", "", "") && env.peer.Err? {
      assert scope.Dimensions();
    } else if !Resolves(scope, snap) {
      UnresolvedFails(budgets, scope, snap);
    } else {
      ScopedBuilt(budgets, scope, snap, env.now);
      var root := RootLevel(RootSource(input).ref.ref, input.limits, env.now);
      AppendBuilt(BuildLevels(budgets, scope, snap), Ok([root.value]), Scoped(budgets, scope, snap),
                  [RootSource(input)], env.now);
      assert Chain(budgets, input, env) == Append(BuildLevels(budgets, scope, snap), Ok([root.value]));
    }
  }

  // ---- Every budget binds ----

  lemma MemberBudget(budgets: Budgets, install: ID, kind: PositionKind, id: ID, limits: Option<WireLimits>)
    ensures Active(budgets, install, id) != [] ==>
              budgets[id].limits in Member(budgets, install, kind, id, limits).docs
  {
  }

  lemma {:induction false} BudgetAmong(budgets: Budgets, input: ReserveInput, env: Env, i: nat)
    requires i < |Sources(budgets, input, env)| && Sources(budgets, input, env)[i].ref.kind != KRootTask
    ensures var s := Sources(budgets, input, env)[i];
            Active(budgets, input.scope.install, s.ref.ref) != [] ==> budgets[s.ref.ref].limits in s.docs
  {
    var snap := SnapshotFor(input.scope, env.peer);
    var scoped := Scoped(budgets, input.scope, snap);
    assert i < |scoped| && Sources(budgets, input, env)[i] == scoped[i];
    var orgs := Organizations(budgets, input.scope.install, snap.ancestors);
    if 0 < i <= |orgs| {
      assert scoped[i] == orgs[i - 1];
      var org := snap.ancestors[|snap.ancestors| - i];
      assert orgs[i - 1] == Member(budgets, input.scope.install, KOrganization, org.id, org.limits);
      MemberBudget(budgets, input.scope.install, KOrganization, org.id, org.limits);
    } else if i > 0 {
      var member := if scoped[i].ref.kind == KProject then snap.project.value else snap.worker.value;
      MemberBudget(budgets, input.scope.install, scoped[i].ref.kind, scoped[i].ref.ref, member.limits);
    }
  }

  /** A document that declares a field bounds what every level it caps carries for that field. */
  lemma DocumentBounds(l: Level, s: Source, now: int, d: WireLimits, f: Field)
    requires Carries(l, s, now) && d in s.docs && Wants(d, f).Some?
    ensures Get(l.caps, f).Some? && Get(l.caps, f).value <= Wants(d, f).value
  {
    var i :| 0 <= i < |s.docs| && s.docs[i] == d;
    assert AllWant(s.docs, f)[i] == Wants(d, f);
    assert CarriesField(s, f, now, Get(l.caps, f));
  }

  lemma BudgetBounds(budgets: Budgets, input: ReserveInput, env: Env, ref: LevelRef, f: Field, i: nat)
    requires Chain(budgets, input, env).Ok? && ref.kind != KRootTask
    requires Active(budgets, input.scope.install, ref.ref) != [] && Wants(budgets[ref.ref].limits, f).Some?
    requires i < |Chain(budgets, input, env).value| && Chain(budgets, input, env).value[i].ref == ref
    ensures var v := Get(Chain(budgets, input, env).value[i].caps, f);
            v.Some? && v.value <= Wants(budgets[ref.ref].limits, f).value
  {
    ChainExact(budgets, input, env);
    BudgetAmong(budgets, input, env, i);
    DocumentBounds(Chain(budgets, input, env).value[i], Sources(budgets, input, env)[i], env.now,
                   budgets[ref.ref].limits, f);
  }

  /** The identity has an active budget in the installation whose spend is declared and at most the cap. */
  predicate SpendBudgeted(budgets: Budgets, install: ID, id: ID, cap: int) {
    id in budgets && budgets[id].active && budgets[id].install == install && 0 <= budgets[id].limits.spend <= cap
  }

  predicate SlotsBudgeted(budgets: Budgets, install: ID, id: ID, cap: int) {
    id in budgets && budgets[id].active && budgets[id].install == install && 0 < budgets[id].limits.concurrency <= cap
  }

  lemma BudgetCapsChain(b: Book, input: ReserveInput, env: Env, ref: LevelRef, cap: int)
    requires ref.kind != KRootTask
    ensures SpendBudgeted(b.budgets, input.scope.install, ref.ref, cap) ==>
              CallSpendCapped(b, CallReserve(input, env), ref, cap)
    ensures SlotsBudgeted(b.budgets, input.scope.install, ref.ref, cap) ==>
              CallSlotsCapped(b, CallReserve(input, env), ref, cap)
  {
    if Chain(b.budgets, input, env).Ok? {
      var levels := Chain(b.budgets, input, env).value;
      forall i | 0 <= i < |levels| && levels[i].ref == ref
        ensures SpendBudgeted(b.budgets, input.scope.install, ref.ref, cap) ==>
                  levels[i].caps.spend.Some? && levels[i].caps.spend.value <= cap
        ensures SlotsBudgeted(b.budgets, input.scope.install, ref.ref, cap) ==>
                  levels[i].caps.concurrency.Some? && levels[i].caps.concurrency.value <= cap
      {
        if SpendBudgeted(b.budgets, input.scope.install, ref.ref, cap) {
          BudgetBounds(b.budgets, input, env, ref, FSpend, i);
        }
        if SlotsBudgeted(b.budgets, input.scope.install, ref.ref, cap) {
          BudgetBounds(b.budgets, input, env, ref, FConcurrency, i);
        }
      }
    }
  }

  /** The reference is the installation's, an ancestor's, the project's or the worker's of the request. */
  ghost predicate Charges(budgets: Budgets, input: ReserveInput, env: Env, ref: LevelRef) {
    exists i :: 0 <= i < |Sources(budgets, input, env)| && Sources(budgets, input, env)[i].ref == ref
  }

  lemma ChargesRefs(budgets: Budgets, input: ReserveInput, env: Env, ref: LevelRef)
    requires Chain(budgets, input, env).Ok?
    ensures Charges(budgets, input, env, ref) <==> ref in Refs(Chain(budgets, input, env).value)
  {
    ChainExact(budgets, input, env);
    RefsMember(Chain(budgets, input, env).value, ref);
    var levels, sources := Chain(budgets, input, env).value, Sources(budgets, input, env);
    assert forall i | 0 <= i < |levels| :: levels[i].ref == sources[i].ref;
  }

  /**
   * A newly admitted positive amount leaves no charged installation, organization, project or worker above the spend of
   * the active budget stored under its own identity, whatever was reported before.
   */
  lemma BudgetBindsSpend(b: Book, input: ReserveInput, env: Env, ref: LevelRef)
    requires Inv(b) && 0 < input.amount.micro && ref.kind != KRootTask
    requires FindOperation(b.rows, input.operation).None? && Reserve(b, input, env).outcome.Ok?
    requires Charges(b.budgets, input, env, ref) && ref.ref in b.budgets
    requires SpendBudgeted(b.budgets, input.scope.install, ref.ref, b.budgets[ref.ref].limits.spend)
    ensures At(Reserve(b, input, env).book.positions, ref).Exposure() <= b.budgets[ref.ref].limits.spend
  {
    AdmissionCharges(b, input, env);
    ChargesRefs(b.budgets, input, env, ref);
    BudgetCapsChain(b, input, env, ref, b.budgets[ref.ref].limits.spend);
    AdmissionWithinCap(b, input, env, ref, b.budgets[ref.ref].limits.spend);
  }

  /**
   * Over any run of one installation with in-bound reports, a budget kept active within a bound keeps exposure within
   * it.
   */
  lemma BudgetHoldsSpend(b: Book, calls: seq<Call>, k: nat, install: ID, ref: LevelRef, cap: int)
    requires Initial(b) && Inv(b) && 0 <= cap && k <= |calls| && ref.kind != KRootTask
    requires forall j | 0 <= j < |calls| :: CallInBound(Before(b, calls, j), calls[j])
    requires forall j | 0 <= j < |calls| && calls[j].CallReserve? :: calls[j].reserve.scope.install == install
    requires forall j | 0 <= j < |calls| :: SpendBudgeted(Before(b, calls, j).budgets, install, ref.ref, cap)
    ensures At(Before(b, calls, k).positions, ref).Exposure() <= cap
  {
    forall j | 0 <= j < |calls| ensures CallSpendCapped(Before(b, calls, j), calls[j], ref, cap) {
      if calls[j].CallReserve? {
        BudgetCapsChain(Before(b, calls, j), calls[j].reserve, calls[j].env, ref, cap);
      }
    }
    SpendCapHolds(b, calls, k, ref, cap);
  }

  /** And live slots within the budget's concurrency, whatever is reported. */
  lemma BudgetHoldsSlots(b: Book, calls: seq<Call>, k: nat, install: ID, ref: LevelRef, cap: int)
    requires Initial(b) && Inv(b) && 0 <= cap && k <= |calls| && ref.kind != KRootTask
    requires forall j | 0 <= j < |calls| && calls[j].CallReserve? :: calls[j].reserve.scope.install == install
    requires forall j | 0 <= j < |calls| :: SlotsBudgeted(Before(b, calls, j).budgets, install, ref.ref, cap)
    ensures LiveSlots(Before(b, calls, k).rows, ref) <= cap
  {
    forall j | 0 <= j < |calls| ensures CallSlotsCapped(Before(b, calls, j), calls[j], ref, cap) {
      if calls[j].CallReserve? {
        BudgetCapsChain(Before(b, calls, j), calls[j].reserve, calls[j].env, ref, cap);
      }
    }
    SlotsCapHolds(b, calls, k, ref, cap);
  }

  // ---- What is sealed ----

  function Sealed(w: WireLimits, f: Field): int {
    match f
    case FSpend => w.spend
    case FConcurrency => w.concurrency
    case FModelSteps => w.modelSteps
    case FChildCount => w.childCount
    case FDelegationDepth => w.delegationDepth
    case FAttemptSeconds => w.attemptSeconds
    case FRootDeadline => w.rootDeadline
  }

  /** What is sealed for a field that no level of the chain carries. */
  function Unlimited(f: Field, now: int): int {
    match f
    case FSpend => 0
    case FConcurrency => 4
    case FModelSteps => 100
    case FChildCount => 8
    case FDelegationDepth => 3
    case FAttemptSeconds => 1800
    case FRootDeadline => now + 86_400_000_000_000
  }

  /**
   * An assessed request seals, field by field, the least value any level of its chain carries, or the shipped default
   * where none does.
   */
  lemma SealedExactly(budgets: Budgets, input: ReserveInput, env: Env, levels: seq<Level>, effective: WireLimits,
                      f: Field)
    requires Assess(budgets, input, env) == Ok((levels, effective))
    ensures Chain(budgets, input, env) == Ok(levels)
    ensures if forall i | 0 <= i < |levels| :: Get(levels[i].caps, f).None?
            then Sealed(effective, f) == Unlimited(f, env.now)
            else IsMinimum(Declared(levels, f), Some(Sealed(effective, f)))
  {
    AssessedIs(budgets, input, env, levels, effective);
    NarrowSeals(levels, env.now, f);
  }

  lemma AssessedIs(budgets: Budgets, input: ReserveInput, env: Env, levels: seq<Level>, effective: WireLimits)
    requires Assess(budgets, input, env) == Ok((levels, effective))
    ensures Chain(budgets, input, env) == Ok(levels) && Narrow(levels).Ok?
    ensures effective == WireOf(Narrow(levels).value, env.now + DEFAULT_ROOT_DEADLINE)
  {
  }

  lemma NarrowSeals(levels: seq<Level>, now: int, f: Field)
    requires Narrow(levels).Ok?
    ensures var sealed := Sealed(WireOf(Narrow(levels).value, now + DEFAULT_ROOT_DEADLINE), f);
            if forall i | 0 <= i < |levels| :: Get(levels[i].caps, f).None? then sealed == Unlimited(f, now)
            else IsMinimum(Declared(levels, f), Some(sealed))
  {
    NarrowMeaning(levels);
    assert IsMinimum(Declared(levels, f), Get(Narrow(levels).value, f));
    assert forall i | 0 <= i < |levels| :: Declared(levels, f)[i] == Get(levels[i].caps, f);
    SealsField(Narrow(levels).value, now + DEFAULT_ROOT_DEADLINE, f);
  }

  /** And the currency its levels name. */
  lemma SealedCurrency(budgets: Budgets, input: ReserveInput, env: Env, levels: seq<Level>, effective: WireLimits)
    requires Assess(budgets, input, env) == Ok((levels, effective))
    ensures forall i | 0 <= i < |levels|
            && levels[i].caps.currency != "" :: levels[i].caps.currency == effective.currency
    ensures (forall i | 0 <= i < |levels| :: levels[i].caps.currency == "") ==> effective.currency == UNCONFIGURED
  {
    NarrowMeaning(levels);
    assert SharesCurrency(levels, Narrow(levels).value.currency);
  }

  lemma SealsField(c: Caps, deadline: int, f: Field)
    ensures Sealed(WireOf(c, deadline), f)
            == if Get(c, f).Some? then Get(c, f).value else Unlimited(f, deadline - DEFAULT_ROOT_DEADLINE)
  {
  }
}
