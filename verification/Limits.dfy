/** Level caps, their intersection, and the chain of levels a reservation charges. */
module Limits {
  import opened Wrappers
  import opened Results
  import opened Int64
  import opened AccountingModel

  const DEFAULT_INSTALLATION_CONCURRENCY: int64 := 4
  const DEFAULT_WORKER_CONCURRENCY: int64 := 1
  const DEFAULT_WORKER_MODEL_STEPS: int64 := 100
  const DEFAULT_WORKER_ATTEMPT_SECONDS: int64 := 1800
  const DEFAULT_ROOT_CHILD_COUNT: int64 := 8
  const DEFAULT_ROOT_DELEGATION_DEPTH: int64 := 3
  /** Twenty-four hours in nanoseconds. */
  const DEFAULT_ROOT_DEADLINE: int := 86_400_000_000_000

  /** Caps configured at one level; None declares no cap and an empty currency declares no currency. */
  datatype Caps = Caps(
    currency: string, spend: Option<int64>, concurrency: Option<int64>, modelSteps: Option<int64>,
    childCount: Option<int64>, delegationDepth: Option<int64>, attemptSeconds: Option<int64>,
    rootDeadline: Option<int>)

  const NO_CAPS := Caps("", None, None, None, None, None, None, None)

  datatype Level = Level(ref: LevelRef, caps: Caps)

  function MinPtr(cur: Option<int64>, v: int64): Option<int64> {
    if cur.None? || v < cur.value then Some(v) else cur
  }

  function MinPtr2(cur: Option<int64>, other: Option<int64>): Option<int64> {
    if other.None? then cur else MinPtr(cur, other.value)
  }

  function Earlier(cur: Option<int>, other: Option<int>): Option<int> {
    if other.Some? && (cur.None? || other.value < cur.value) then other else cur
  }

  function JoinCurrency(cur: string, declared: string): Result<string> {
    if cur == "" then Ok(declared) else if cur != declared then Err(InvalidInput) else Ok(cur)
  }

  function MergeLimits(c: Caps, limits: Option<WireLimits>): Result<Caps> {
    if limits.None? then Ok(c) else
    var l := limits.value;
    var currency :- if l.currency != UNCONFIGURED then JoinCurrency(c.currency, l.currency) else Ok(c.currency);
    Ok(Caps(
      currency,
      if l.spend >= 0 then MinPtr(c.spend, l.spend) else c.spend,
      if l.concurrency > 0 then MinPtr(c.concurrency, l.concurrency) else c.concurrency,
      if l.modelSteps > 0 then MinPtr(c.modelSteps, l.modelSteps) else c.modelSteps,
      if l.childCount >= 0 then MinPtr(c.childCount, l.childCount) else c.childCount,
      if l.delegationDepth >= 0 then MinPtr(c.delegationDepth, l.delegationDepth) else c.delegationDepth,
      if l.attemptSeconds > 0 then MinPtr(c.attemptSeconds, l.attemptSeconds) else c.attemptSeconds,
      if l.rootDeadline != 0 then Earlier(c.rootDeadline, Some(l.rootDeadline)) else c.rootDeadline))
  }

  function MergeCaps(c: Caps, o: Caps): Result<Caps> {
    var currency :- if o.currency != "" then JoinCurrency(c.currency, o.currency) else Ok(c.currency);
    Ok(Caps(
      currency,
      MinPtr2(c.spend, o.spend),
      MinPtr2(c.concurrency, o.concurrency),
      MinPtr2(c.modelSteps, o.modelSteps),
      MinPtr2(c.childCount, o.childCount),
      MinPtr2(c.delegationDepth, o.delegationDepth),
      MinPtr2(c.attemptSeconds, o.attemptSeconds),
      Earlier(c.rootDeadline, o.rootDeadline)))
  }

  function LoadBudget(budgets: Budgets, install: ID, id: ID): Option<Budget> {
    if id in budgets && budgets[id].install == install && budgets[id].active then Some(budgets[id]) else None
  }

  function BudgetLimits(b: Option<Budget>): Option<WireLimits> {
    if b.None? then None else Some(b.value.limits)
  }

  function InstallationLevel(budgets: Budgets, install: ID): Result<Level> {
    var b := LoadBudget(budgets, install, install);
    var caps :-
      if b.Some? then MergeLimits(NO_CAPS, BudgetLimits(b))
      else MergeCaps(NO_CAPS, NO_CAPS.(spend := Some(0), concurrency := Some(DEFAULT_INSTALLATION_CONCURRENCY)));
    Ok(Level(LevelRef(KInstallation, install), caps))
  }

  /** The caps of an organization, project or worker: its own limits narrowed by its active budget. */
  function MemberCaps(budgets: Budgets, install: ID, id: ID, limits: Option<WireLimits>): Result<Caps> {
    var own :- MergeLimits(NO_CAPS, limits);
    MergeLimits(own, BudgetLimits(LoadBudget(budgets, install, id)))
  }

  /** Ancestor levels from the root organization down; the snapshot lists the nearest first. */
  function OrganizationLevels(budgets: Budgets, install: ID, ancestors: seq<SnapOrg>): Result<seq<Level>> {
    if |ancestors| == 0 then Ok([]) else
    var org := ancestors[|ancestors| - 1];
    var caps :- MemberCaps(budgets, install, org.id, org.limits);
    var rest :- OrganizationLevels(budgets, install, ancestors[..|ancestors| - 1]);
    Ok([Level(LevelRef(KOrganization, org.id), caps)] + rest)
  }

  function NamedMember(member: Option<SnapMember>, id: ID, organization: ID): Result<SnapMember> {
    if member.None? || member.value.id != id then Err(InvalidInput)
    else if organization != "" && member.value.organization != organization then Err(InvalidInput)
    else Ok(member.value)
  }

  function ProjectLevels(budgets: Budgets, scope: Scope, snap: Snapshot): Result<seq<Level>> {
    if scope.project == "" then Ok([]) else
    var member :- NamedMember(snap.project, scope.project, scope.organization);
    var caps :- MemberCaps(budgets, scope.install, member.id, member.limits);
    Ok([Level(LevelRef(KProject, member.id), caps)])
  }

  function FillWorkerDefaults(c: Caps): Caps {
    c.(concurrency := if c.concurrency.None? then Some(DEFAULT_WORKER_CONCURRENCY) else c.concurrency,
       modelSteps := if c.modelSteps.None? then Some(DEFAULT_WORKER_MODEL_STEPS) else c.modelSteps,
       attemptSeconds := if c.attemptSeconds.None? then Some(DEFAULT_WORKER_ATTEMPT_SECONDS) else c.attemptSeconds)
  }

  function WorkerLevels(budgets: Budgets, scope: Scope, snap: Snapshot): Result<seq<Level>> {
    if scope.worker == "" then Ok([]) else
    var member :- NamedMember(snap.worker, scope.worker, scope.organization);
    var caps :- MemberCaps(budgets, scope.install, member.id, member.limits);
    Ok([Level(LevelRef(KWorker, member.id), FillWorkerDefaults(caps))])
  }

  /** Installation, ancestor organizations root down, project, worker. */
  function BuildLevels(budgets: Budgets, scope: Scope, snap: Snapshot): Result<seq<Level>> {
    var inst :- InstallationLevel(budgets, scope.install);
    if scope.organization != "" && |snap.ancestors| == 0 then Err(InvalidInput) else
    var orgs :- OrganizationLevels(budgets, scope.install, snap.ancestors);
    var project :- ProjectLevels(budgets, scope, snap);
    var worker :- WorkerLevels(budgets, scope, snap);
    Ok([inst] + orgs + project + worker)
  }

  /** A bare installation scope needs no snapshot; any other scope uses the peer's reply. */
  function LevelsForScope(budgets: Budgets, scope: Scope, peer: Result<Snapshot>): Result<seq<Level>> {
    if !scope.Dimensions() then BuildLevels(budgets, scope, EMPTY_SNAPSHOT) else
    var snap :- peer;
    BuildLevels(budgets, scope, snap)
  }

  function FillRootDefaults(c: Caps, now: int): Caps {
    c.(childCount := if c.childCount.None? then Some(DEFAULT_ROOT_CHILD_COUNT) else c.childCount,
       delegationDepth := if c.delegationDepth.None? then Some(DEFAULT_ROOT_DELEGATION_DEPTH) else c.delegationDepth,
       rootDeadline := if c.rootDeadline.None? then Some(now + DEFAULT_ROOT_DEADLINE) else c.rootDeadline)
  }

  function RootLevel(root: ID, declared: WireLimits, now: int): Result<Level> {
    var caps :- MergeLimits(NO_CAPS, Some(declared));
    Ok(Level(LevelRef(KRootTask, root), FillRootDefaults(caps, now)))
  }

  /** The intersection of a chain, narrowed one level at a time. */
  function Narrow(levels: seq<Level>): Result<Caps> {
    if |levels| == 0 then Ok(NO_CAPS) else
    var c :- Narrow(levels[..|levels| - 1]);
    MergeCaps(c, levels[|levels| - 1].caps)
  }

  function Deref(p: Option<int64>, default: int64): int64 {
    if p.None? then default else p.value
  }

  function WireOf(c: Caps, deadlineFallback: int): WireLimits {
    WireLimits(
      if c.currency != "" then c.currency else UNCONFIGURED,
      Deref(c.spend, 0),
      Deref(c.concurrency, DEFAULT_INSTALLATION_CONCURRENCY),
      Deref(c.modelSteps, DEFAULT_WORKER_MODEL_STEPS),
      Deref(c.childCount, DEFAULT_ROOT_CHILD_COUNT),
      Deref(c.delegationDepth, DEFAULT_ROOT_DELEGATION_DEPTH),
      Deref(c.attemptSeconds, DEFAULT_WORKER_ATTEMPT_SECONDS),
      if c.rootDeadline.Some? then c.rootDeadline.value else deadlineFallback)
  }

  /** The loop of effectiveLimits, which narrows one accumulator in place. */
  method EffectiveLimits(levels: seq<Level>, deadlineFallback: int) returns (r: Result<WireLimits>)
    ensures r == var c :- Narrow(levels); Ok(WireOf(c, deadlineFallback))
  {
    var c := NO_CAPS;
    var i := 0;
    while i < |levels|
      invariant 0 <= i <= |levels|
      invariant Narrow(levels[..i]) == Ok(c)
    {
      assert levels[..i + 1][..i] == levels[..i];
      var merged := MergeCaps(c, levels[i].caps);
      if merged.Err? {
        NarrowPrefixFails(levels, i + 1);
        return Err(merged.fault);
      }
      c := merged.value;
      i := i + 1;
    }
    assert levels[..i] == levels;
    r := Ok(WireOf(c, deadlineFallback));
  }

  /** A chain fails with the fault of its first failing prefix. */
  lemma {:induction false} NarrowPrefixFails(levels: seq<Level>, k: nat)
    requires k <= |levels| && Narrow(levels[..k]).Err?
    ensures Narrow(levels) == Narrow(levels[..k])
  {
    if k == |levels| {
      assert levels[..k] == levels;
    } else {
      var shorter := levels[..|levels| - 1];
      assert shorter[..k] == levels[..k];
      NarrowPrefixFails(shorter, k);
    }
  }

  // ---- What the intersection means ----

  /** The value a field of the caps is declared at, by one level. */
  ghost predicate IsMinimum(values: seq<Option<int>>, m: Option<int>) {
    && (m.None? <==> forall i | 0 <= i < |values| :: values[i].None?)
    && (m.Some? ==> m in values)
    && (forall i | 0 <= i < |values| && values[i].Some? :: m.Some? && m.value <= values[i].value)
  }

  datatype Field =
    FSpend | FConcurrency | FModelSteps | FChildCount | FDelegationDepth | FAttemptSeconds | FRootDeadline

  function Get(c: Caps, f: Field): Option<int> {
    match f
    case FSpend => c.spend
    case FConcurrency => c.concurrency
    case FModelSteps => c.modelSteps
    case FChildCount => c.childCount
    case FDelegationDepth => c.delegationDepth
    case FAttemptSeconds => c.attemptSeconds
    case FRootDeadline => c.rootDeadline
  }

  function Declared(levels: seq<Level>, f: Field): (r: seq<Option<int>>)
    ensures |r| == |levels|
  {
    seq(|levels|, i requires 0 <= i < |levels| => Get(levels[i].caps, f))
  }

  /** Two levels of the chain declare different currencies. */
  ghost predicate CurrencyClash(levels: seq<Level>) {
    exists i, j | 0 <= i < |levels| && 0 <= j < |levels| ::
      levels[i].caps.currency != "" && levels[j].caps.currency != "" &&
      levels[i].caps.currency != levels[j].caps.currency
  }

  ghost predicate SharesCurrency(levels: seq<Level>, currency: string) {
    && (forall i | 0 <= i < |levels| && levels[i].caps.currency != "" :: levels[i].caps.currency == currency)
    && (currency != "" ==> exists i | 0 <= i < |levels| :: levels[i].caps.currency == currency)
  }

  lemma MinimumStep(values: seq<Option<int>>, m: Option<int>, v: Option<int>)
    requires IsMinimum(values, m)
    ensures IsMinimum(values + [v], Earlier(m, v))
  {
    var all := values + [v];
    assert all[|values|] == v;
    assert forall i | 0 <= i < |values| :: all[i] == values[i];
    if m.Some? {
      var i :| 0 <= i < |values| && values[i] == m;
      assert all[i] == m;
    }
  }

  /**
   * The chain narrows to the field-wise minimum of the declared caps, and fails exactly when
   * two declared currencies differ.
   */
  lemma {:induction false} NarrowMeaning(levels: seq<Level>)
    ensures Narrow(levels).Err? <==> CurrencyClash(levels)
    ensures Narrow(levels).Err? ==> Narrow(levels).fault == InvalidInput
    ensures Narrow(levels).Ok? ==>
              && SharesCurrency(levels, Narrow(levels).value.currency)
              && forall f :: IsMinimum(Declared(levels, f), Get(Narrow(levels).value, f))
  {
    if |levels| == 0 {
    } else {
      var n := |levels| - 1;
      var init, last := levels[..n], levels[n];
      NarrowMeaning(init);
      if Narrow(init).Err? {
        var i, j :| 0 <= i < n && 0 <= j < n && init[i].caps.currency != "" && init[j].caps.currency != "" &&
                    init[i].caps.currency != init[j].caps.currency;
        assert levels[i].caps.currency != levels[j].caps.currency;
      } else {
        var c := Narrow(init).value;
        if Narrow(levels).Err? {
          var i :| 0 <= i < n && init[i].caps.currency == c.currency;
          assert levels[i].caps.currency != levels[n].caps.currency;
        } else {
          assert levels == init + [last];
          NarrowCurrencyStep(init, last, c.currency);
          forall f ensures IsMinimum(Declared(levels, f), Get(Narrow(levels).value, f)) {
            NarrowFieldsStep(init, last, c, f);
          }
        }
      }
    }
  }

  lemma MergedField(c: Caps, o: Caps, f: Field)
    requires MergeCaps(c, o).Ok?
    ensures Get(MergeCaps(c, o).value, f) == Earlier(Get(c, f), Get(o, f))
  {
  }

  lemma NarrowFieldsStep(init: seq<Level>, last: Level, c: Caps, f: Field)
    requires MergeCaps(c, last.caps).Ok?
    requires IsMinimum(Declared(init, f), Get(c, f))
    ensures IsMinimum(Declared(init + [last], f), Get(MergeCaps(c, last.caps).value, f))
  {
    MinimumStep(Declared(init, f), Get(c, f), Get(last.caps, f));
    assert Declared(init + [last], f) == Declared(init, f) + [Get(last.caps, f)];
    MergedField(c, last.caps, f);
  }

  lemma NarrowCurrencyStep(init: seq<Level>, last: Level, c: string)
    requires SharesCurrency(init, c)
    requires last.caps.currency == "" || JoinCurrency(c, last.caps.currency).Ok?
    ensures SharesCurrency(init + [last], if c == "" then last.caps.currency else c)
    ensures !CurrencyClash(init + [last])
  {
    var all := init + [last];
    assert all[|init|] == last;
    assert forall i | 0 <= i < |init| :: all[i] == init[i];
    if c != "" {
      var i :| 0 <= i < |init| && init[i].caps.currency == c;
      assert all[i].caps.currency == c;
    }
  }

  /** A minimum is determined by the set of declared values. */
  lemma MinimumUnique(a: seq<Option<int>>, b: seq<Option<int>>, m: Option<int>, k: Option<int>)
    requires IsMinimum(a, m) && IsMinimum(b, k)
    requires forall v :: v in a <==> v in b
    ensures m == k
  {
    if m.Some? {
      assert m in b;
    }
    if k.Some? {
      assert k in a;
    }
  }

  /** The intersection does not depend on the order in which the levels are narrowed. */
  lemma NarrowOrderIndependent(levels: seq<Level>, permuted: seq<Level>)
    requires multiset(levels) == multiset(permuted)
    ensures Narrow(levels) == Narrow(permuted)
  {
    assert forall l :: l in levels <==> l in multiset(levels);
    assert forall l :: l in permuted <==> l in multiset(permuted);
    NarrowSameMembers(levels, permuted);
  }

  lemma ClashTransfers(levels: seq<Level>, other: seq<Level>)
    requires forall l :: l in levels ==> l in other
    requires CurrencyClash(levels)
    ensures CurrencyClash(other)
  {
    var i, j :| 0 <= i < |levels| && 0 <= j < |levels| &&
                levels[i].caps.currency != "" && levels[j].caps.currency != "" &&
                levels[i].caps.currency != levels[j].caps.currency;
    assert levels[i] in other && levels[j] in other;
    var x :| 0 <= x < |other| && other[x] == levels[i];
    var y :| 0 <= y < |other| && other[y] == levels[j];
  }

  lemma DeclaredMembers(levels: seq<Level>, other: seq<Level>, f: Field)
    requires forall l :: l in levels ==> l in other
    ensures forall v :: v in Declared(levels, f) ==> v in Declared(other, f)
  {
    forall v | v in Declared(levels, f) ensures v in Declared(other, f) {
      var i :| 0 <= i < |levels| && Declared(levels, f)[i] == v;
      assert levels[i] in other;
      var j :| 0 <= j < |other| && other[j] == levels[i];
      assert Declared(other, f)[j] == v;
    }
  }

  lemma CapsEqual(c: Caps, d: Caps)
    requires c.currency == d.currency
    requires forall f :: Get(c, f) == Get(d, f)
    ensures c == d
  {
    assert Get(c, FSpend) == Get(d, FSpend);
    assert Get(c, FConcurrency) == Get(d, FConcurrency);
    assert Get(c, FModelSteps) == Get(d, FModelSteps);
    assert Get(c, FChildCount) == Get(d, FChildCount);
    assert Get(c, FDelegationDepth) == Get(d, FDelegationDepth);
    assert Get(c, FAttemptSeconds) == Get(d, FAttemptSeconds);
    assert Get(c, FRootDeadline) == Get(d, FRootDeadline);
  }

  lemma NarrowSameMembers(levels: seq<Level>, other: seq<Level>)
    requires forall l :: l in levels <==> l in other
    ensures Narrow(levels) == Narrow(other)
  {
    NarrowMeaning(levels);
    NarrowMeaning(other);
    if CurrencyClash(levels) {
      ClashTransfers(levels, other);
    } else {
      if CurrencyClash(other) {
        ClashTransfers(other, levels);
      }
      var c, d := Narrow(levels).value, Narrow(other).value;
      forall f ensures Get(c, f) == Get(d, f) {
        DeclaredMembers(levels, other, f);
        DeclaredMembers(other, levels, f);
        MinimumUnique(Declared(levels, f), Declared(other, f), Get(c, f), Get(d, f));
      }
      CurrencyUnique(levels, other, c.currency, d.currency);
      CapsEqual(c, d);
    }
  }

  lemma CurrencyUnique(levels: seq<Level>, other: seq<Level>, c: string, d: string)
    requires forall l :: l in levels <==> l in other
    requires SharesCurrency(levels, c) && SharesCurrency(other, d)
    ensures c == d
  {
    if c != "" {
      var i :| 0 <= i < |levels| && levels[i].caps.currency == c;
      assert levels[i] in other;
    }
    if d != "" {
      var i :| 0 <= i < |other| && other[i].caps.currency == d;
      assert other[i] in levels;
    }
  }

  lemma AppendTightens(levels: seq<Level>, extra: Level, f: Field)
    requires Narrow(levels + [extra]).Ok?
    ensures Narrow(levels).Ok?
    ensures Get(Narrow(levels).value, f).Some? ==>
              && Get(Narrow(levels + [extra]).value, f).Some?
              && Get(Narrow(levels + [extra]).value, f).value <= Get(Narrow(levels).value, f).value
  {
    assert (levels + [extra])[..|levels|] == levels;
  }

  /** Adding a level anywhere in the chain never raises a field that was already declared. */
  lemma NarrowOnlyTightens(above: seq<Level>, extra: Level, below: seq<Level>, f: Field)
    requires Narrow(above + [extra] + below).Ok?
    ensures Narrow(above + below).Ok?
    ensures Get(Narrow(above + below).value, f).Some? ==>
              && Get(Narrow(above + [extra] + below).value, f).Some?
              && Get(Narrow(above + [extra] + below).value, f).value <= Get(Narrow(above + below).value, f).value
  {
    NarrowOrderIndependent(above + [extra] + below, above + below + [extra]);
    AppendTightens(above + below, extra, f);
  }
}
