/** Budget definition changes: what validation reports and what activation does at the commitment point. */
module BudgetChanges {
  import opened Wrappers
  import opened Results
  import opened Int64
  import opened AccountingModel
  import opened Limits

  datatype Kind = BudgetKind | OtherKind

  datatype Action = Create | Update | Archive | Delete

  /** A definition is None when it does not match the limits schema or does not decode. */
  datatype Change = Change(kind: Kind, action: Action, id: ID, expectedVersion: int64, definition: Option<WireLimits>)

  datatype Problem =
    | UnsupportedKind | InvalidDefinition | UnconfiguredCurrency | CreateExpectedVersion
    | AlreadyExists | Missing | Stale | UnsupportedAction

  /** A diagnostic names the offending change by its index. */
  datatype Diagnostic = Diagnostic(index: nat, problem: Problem)

  datatype Ref = Ref(id: ID, version: int)

  function ValidateChange(budgets: Budgets, install: ID, c: Change): Option<Problem> {
    if c.kind != BudgetKind then Some(UnsupportedKind)
    else if c.definition.None? then Some(InvalidDefinition)
    else if c.definition.value.currency == UNCONFIGURED && c.definition.value.spend > 0 then Some(UnconfiguredCurrency)
    else
      var b := LoadBudget(budgets, install, c.id);
      match c.action
      case Create =>
        if c.expectedVersion != 0 then Some(CreateExpectedVersion)
        else if b.Some? then Some(AlreadyExists)
        else None
      case Update =>
        if b.None? then Some(Missing) else if c.expectedVersion != b.value.version then Some(Stale) else None
      case Archive =>
        if b.None? then Some(Missing) else if c.expectedVersion != b.value.version then Some(Stale) else None
      case Delete => Some(UnsupportedAction)
  }

  /** The upsert of a create: an archived row of the same identity comes back one version later. */
  function Upsert(budgets: Budgets, install: ID, id: ID, limits: WireLimits): Budget {
    Budget(if id in budgets then budgets[id].version + 1 else 1, install, limits, true)
  }

  function ApplyChange(budgets: Budgets, install: ID, c: Change): Result<(Ref, Budgets)> {
    if c.kind != BudgetKind then Err(InvalidInput)
    else if c.definition.None? then Err(InvalidInput)
    else if c.definition.value.currency == UNCONFIGURED && c.definition.value.spend > 0 then Err(InvalidInput)
    else
      var b := LoadBudget(budgets, install, c.id);
      var limits := c.definition.value;
      match c.action
      case Create =>
        if c.expectedVersion != 0 then Err(InvalidInput)
        else if b.Some? then Err(Conflict)
        else
          var row := Upsert(budgets, install, c.id, limits);
          Ok((Ref(c.id, row.version), budgets[c.id := row]))
      case Delete => Err(InvalidInput)
      case _ =>
        if b.None? then Err(NotFound)
        else if c.expectedVersion != b.value.version then Err(StaleVersion)
        else
          var row := b.value.(version := b.value.version + 1, limits := limits, active := c.action != Archive);
          Ok((Ref(c.id, b.value.version + 1), budgets[c.id := row]))
  }

  /** The diagnostics of a candidate, every change judged against the same current state. */
  function Diagnostics(budgets: Budgets, install: ID, changes: seq<Change>): seq<Diagnostic> {
    if |changes| == 0 then []
    else
      var n := |changes| - 1;
      var p := ValidateChange(budgets, install, changes[n]);
      Diagnostics(budgets, install, changes[..n]) + if p.Some? then [Diagnostic(n, p.value)] else []
  }

  /** Sequential activation, each change on the state the previous ones left. */
  function ActivateAll(budgets: Budgets, install: ID, changes: seq<Change>): Result<(seq<Ref>, Budgets)> {
    if |changes| == 0 then Ok(([], budgets)) else
    var n := |changes| - 1;
    var init :- ActivateAll(budgets, install, changes[..n]);
    var last :- ApplyChange(init.1, install, changes[n]);
    Ok((init.0 + [last.0], last.1))
  }

  class BudgetStore {
    var budgets: Budgets

    constructor (budgets: Budgets)
      ensures this.budgets == budgets
    {
      this.budgets := budgets;
    }

    /** Reports diagnostics and changes nothing. */
    method HandleValidate(install: ID, changes: seq<Change>) returns (diagnostics: seq<Diagnostic>)
      ensures diagnostics == Diagnostics(budgets, install, changes)
    {
      diagnostics := [];
      var i := 0;
      while i < |changes|
        invariant 0 <= i <= |changes|
        invariant diagnostics == Diagnostics(budgets, install, changes[..i])
      {
        assert changes[..i + 1][..i] == changes[..i];
        var p := ValidateChange(budgets, install, changes[i]);
        if p.Some? {
          diagnostics := diagnostics + [Diagnostic(i, p.value)];
        }
        i := i + 1;
      }
      assert changes[..i] == changes;
    }

    /** The commitment point: all changes or, after a rollback, none. */
    method HandleActivate(install: ID, changes: seq<Change>) returns (r: Result<seq<Ref>>)
      modifies this
      ensures r.Ok? ==> ActivateAll(old(budgets), install, changes) == Ok((r.value, budgets))
      ensures r.Err? ==> ActivateAll(old(budgets), install, changes) == Err(r.fault) && budgets == old(budgets)
    {
      var saved := budgets;
      var versions := [];
      var i := 0;
      while i < |changes|
        invariant 0 <= i <= |changes|
        invariant ActivateAll(saved, install, changes[..i]) == Ok((versions, budgets))
      {
        assert changes[..i + 1][..i] == changes[..i];
        var applied := ApplyChange(budgets, install, changes[i]);
        if applied.Err? {
          ActivatePrefixFails(saved, install, changes, i + 1);
          budgets := saved;
          return Err(applied.fault);
        }
        versions, budgets := versions + [applied.value.0], applied.value.1;
        i := i + 1;
      }
      assert changes[..i] == changes;
      r := Ok(versions);
    }
  }

  lemma {:induction false} ActivatePrefixFails(budgets: Budgets, install: ID, changes: seq<Change>, k: nat)
    requires k <= |changes| && ActivateAll(budgets, install, changes[..k]).Err?
    ensures ActivateAll(budgets, install, changes) == ActivateAll(budgets, install, changes[..k])
  {
    if k == |changes| {
      assert changes[..k] == changes;
    } else {
      var shorter := changes[..|changes| - 1];
      assert shorter[..k] == changes[..k];
      ActivatePrefixFails(budgets, install, shorter, k);
    }
  }

  // ---- Validation against activation ----

  /** The stored version of a budget identity, zero before its first creation. */
  function VersionOf(budgets: Budgets, id: ID): int {
    if id in budgets then budgets[id].version else 0
  }

  /**
   * One applied change: it is accepted exactly when validation finds nothing, it touches only its own
   * row, raises that row's stored version by one, and returns a reference to what is stored.
   */
  lemma ApplyChangeMeaning(budgets: Budgets, install: ID, c: Change)
    ensures ApplyChange(budgets, install, c).Ok? <==> ValidateChange(budgets, install, c).None?
    ensures ApplyChange(budgets, install, c).Ok? ==>
              var (ref, after) := ApplyChange(budgets, install, c).value;
              && c.id in after
              && after == budgets[c.id := after[c.id]]
              && after[c.id].version == VersionOf(budgets, c.id) + 1
              && ref == Ref(c.id, after[c.id].version)
              && after[c.id].install == install
              && c.definition == Some(after[c.id].limits)
              && (after[c.id].active <==> c.action != Archive)
  {
  }

  /** The active budget of the installation stored under an identity. */
  predicate ActiveAt(budgets: Budgets, install: ID, id: ID) {
    id in budgets && budgets[id].active && budgets[id].install == install
  }

  /**
   * A change that can be applied: a budget definition whose spend, if positive, has a currency; created at version zero
   * where nothing is active, or replacing the active version it expects.
   */
  predicate Applicable(budgets: Budgets, install: ID, c: Change) {
    && c.kind == BudgetKind && c.definition.Some?
    && (c.definition.value.spend > 0 ==> c.definition.value.currency != UNCONFIGURED)
    && (c.action == Create ==> c.expectedVersion == 0 && !ActiveAt(budgets, install, c.id))
    && (c.action != Create ==>
          && (c.action == Update || c.action == Archive)
          && ActiveAt(budgets, install, c.id) && c.expectedVersion == budgets[c.id].version)
  }

  /**
   * Validation and activation accept exactly the applicable changes, and tell a stale one from a missing or existing
   * one.
   */
  lemma AppliesExactly(budgets: Budgets, install: ID, c: Change)
    ensures ValidateChange(budgets, install, c).None? <==> Applicable(budgets, install, c)
    ensures ApplyChange(budgets, install, c).Ok? <==> Applicable(budgets, install, c)
    ensures ApplyChange(budgets, install, c) == Err(StaleVersion) <==>
            && c.kind == BudgetKind && c.definition.Some?
            && (c.definition.value.spend > 0 ==> c.definition.value.currency != UNCONFIGURED)
            && (c.action == Update || c.action == Archive)
            && ActiveAt(budgets, install, c.id) && c.expectedVersion != budgets[c.id].version
  {
  }

  ghost predicate Diagnosed(ds: seq<Diagnostic>, i: nat) {
    exists d :: d in ds && d.index == i
  }

  lemma DiagnosedAppend(ds: seq<Diagnostic>, d: Diagnostic, i: nat)
    ensures Diagnosed(ds + [d], i) <==> Diagnosed(ds, i) || d.index == i
  {
    assert d in ds + [d];
    if Diagnosed(ds, i) {
      var x :| x in ds && x.index == i;
      assert x in ds + [d];
    }
  }

  /** A diagnostic names a change if and only if that change cannot be applied to the current state. */
  lemma {:induction false} DiagnosesExactly(budgets: Budgets, install: ID, changes: seq<Change>, i: nat)
    requires i < |changes|
    ensures Diagnosed(Diagnostics(budgets, install, changes), i) <==> !Applicable(budgets, install, changes[i])
  {
    var n := |changes| - 1;
    var before, p := Diagnostics(budgets, install, changes[..n]), ValidateChange(budgets, install, changes[n]);
    AppliesExactly(budgets, install, changes[n]);
    DiagnosticsInside(budgets, install, changes[..n]);
    if i < n {
      DiagnosesExactly(budgets, install, changes[..n], i);
    }
    if p.Some? {
      DiagnosedAppend(before, Diagnostic(n, p.value), i);
    } else {
      assert before + [] == before;
    }
  }

  lemma {:induction false} DiagnosticsInside(budgets: Budgets, install: ID, changes: seq<Change>)
    ensures forall d | d in Diagnostics(budgets, install, changes) :: d.index < |changes|
  {
    if changes != [] {
      DiagnosticsInside(budgets, install, changes[..|changes| - 1]);
    }
  }

  /** Every budget with something to spend has a currency. */
  ghost predicate PaidConfigured(budgets: Budgets) {
    forall id | id in budgets && budgets[id].limits.spend > 0 :: budgets[id].limits.currency != UNCONFIGURED
  }

  /** No activation, however long, ever stores a budget with something to spend and no currency. */
  lemma {:induction false} ActivationKeepsPaid(budgets: Budgets, install: ID, changes: seq<Change>)
    requires PaidConfigured(budgets) && ActivateAll(budgets, install, changes).Ok?
    ensures PaidConfigured(ActivateAll(budgets, install, changes).value.1)
  {
    if changes != [] {
      var n := |changes| - 1;
      ActivationKeepsPaid(budgets, install, changes[..n]);
      var mid := ActivateAll(budgets, install, changes[..n]).value.1;
      AppliesExactly(mid, install, changes[n]);
      ApplyChangeMeaning(mid, install, changes[n]);
    }
  }

  /** Validation of a change reads only the row it names. */
  lemma ValidateReadsOwnRow(a: Budgets, b: Budgets, install: ID, c: Change)
    requires LoadBudget(a, install, c.id) == LoadBudget(b, install, c.id)
    ensures ValidateChange(a, install, c) == ValidateChange(b, install, c)
  {
  }

  ghost predicate DistinctIds(changes: seq<Change>) {
    forall i, j | 0 <= i < j < |changes| :: changes[i].id != changes[j].id
  }

  ghost predicate Names(changes: seq<Change>, id: ID) {
    exists i :: 0 <= i < |changes| && changes[i].id == id
  }

  /** Activation touches only the rows its changes name. */
  lemma {:induction false} ActivateFrame(budgets: Budgets, install: ID, changes: seq<Change>, id: ID)
    requires ActivateAll(budgets, install, changes).Ok? && !Names(changes, id)
    ensures var after := ActivateAll(budgets, install, changes).value.1;
            && (id in after <==> id in budgets)
            && (id in budgets ==> after[id] == budgets[id])
  {
    if |changes| > 0 {
      var n := |changes| - 1;
      assert changes[n].id != id;
      assert !Names(changes[..n], id);
      ActivateFrame(budgets, install, changes[..n], id);
      ApplyChangeMeaning(ActivateAll(budgets, install, changes[..n]).value.1, install, changes[n]);
    }
  }

  lemma DiagnosticsEmptyStep(budgets: Budgets, install: ID, changes: seq<Change>)
    requires |changes| > 0
    ensures Diagnostics(budgets, install, changes) == [] <==>
            && Diagnostics(budgets, install, changes[..|changes| - 1]) == []
            && ValidateChange(budgets, install, changes[|changes| - 1]).None?
  {
  }

  /** For distinct identities the diagnostics are empty exactly when sequential activation succeeds. */
  lemma {:induction false} ValidationAgrees(budgets: Budgets, install: ID, changes: seq<Change>)
    requires DistinctIds(changes)
    ensures Diagnostics(budgets, install, changes) == [] <==> ActivateAll(budgets, install, changes).Ok?
  {
    if |changes| > 0 {
      var n := |changes| - 1;
      var init, c := changes[..n], changes[n];
      ValidationAgrees(budgets, install, init);
      DiagnosticsEmptyStep(budgets, install, changes);
      if ActivateAll(budgets, install, init).Ok? {
        var mid := ActivateAll(budgets, install, init).value.1;
        assert !Names(init, c.id);
        ActivateFrame(budgets, install, init, c.id);
        ValidateReadsOwnRow(budgets, mid, install, c);
        ApplyChangeMeaning(mid, install, c);
      }
    }
  }

  /** A change that validates now no longer validates once a change to the same budget has been applied. */
  lemma ValidOnce(budgets: Budgets, mid: Budgets, install: ID, first: Change, c: Change)
    requires first.id == c.id
    requires ValidateChange(budgets, install, first).None? && ValidateChange(budgets, install, c).None?
    requires first.id in mid && mid[first.id].install == install
    requires mid[first.id].version > VersionOf(budgets, first.id)
    requires first.action == Create ==> mid[first.id].active
    ensures ValidateChange(mid, install, c).Some?
  {
  }

  /** Versions only grow during an activation, and a named row ends in the activating installation. */
  lemma {:induction false} ActivateRaises(budgets: Budgets, install: ID, changes: seq<Change>, i: nat)
    requires ActivateAll(budgets, install, changes).Ok? && i < |changes|
    ensures var after := ActivateAll(budgets, install, changes).value.1;
            && changes[i].id in after && after[changes[i].id].install == install
            && after[changes[i].id].version > VersionOf(budgets, changes[i].id)
  {
    var n := |changes| - 1;
    var id := changes[i].id;
    var init := changes[..n];
    var mid := ActivateAll(budgets, install, init).value.1;
    ApplyChangeMeaning(mid, install, changes[n]);
    if Names(init, id) {
      var j :| 0 <= j < |init| && init[j].id == id;
      ActivateRaises(budgets, install, init, j);
    } else {
      assert i == n;
      ActivateFrame(budgets, install, init, id);
    }
  }

  /**
   * Of a candidate without diagnostics, activation succeeds exactly when no identity is named twice:
   * two changes that both fit the current state never both fit in sequence.
   */
  lemma {:induction false} CleanCandidateActivatesIffDistinct(budgets: Budgets, install: ID, changes: seq<Change>)
    requires Diagnostics(budgets, install, changes) == []
    ensures ActivateAll(budgets, install, changes).Ok? <==> DistinctIds(changes)
  {
    if DistinctIds(changes) {
      ValidationAgrees(budgets, install, changes);
    } else {
      var n := |changes| - 1;
      var init, c := changes[..n], changes[n];
      DiagnosticsEmptyStep(budgets, install, changes);
      CleanCandidateActivatesIffDistinct(budgets, install, init);
      if DistinctIds(init) {
        var i, j :| 0 <= i < j < |changes| && changes[i].id == changes[j].id;
        assert j == n;
        SecondChangeFails(budgets, install, init, i, c);
      }
    }
  }

  lemma {:induction false} DiagnosticsEmptyAt(budgets: Budgets, install: ID, changes: seq<Change>, i: nat)
    requires Diagnostics(budgets, install, changes) == [] && i < |changes|
    ensures ValidateChange(budgets, install, changes[i]).None?
  {
    DiagnosticsEmptyStep(budgets, install, changes);
    if i < |changes| - 1 {
      DiagnosticsEmptyAt(budgets, install, changes[..|changes| - 1], i);
    }
  }

  /** With distinct identities the row of a change is the one that change wrote. */
  lemma {:induction false} ActivatedRow(budgets: Budgets, install: ID, changes: seq<Change>, i: nat)
    requires DistinctIds(changes) && ActivateAll(budgets, install, changes).Ok? && i < |changes|
    ensures var (refs, after) := ActivateAll(budgets, install, changes).value;
            && |refs| == |changes|
            && changes[i].id in after
            && after[changes[i].id].version == VersionOf(budgets, changes[i].id) + 1
            && refs[i] == Ref(changes[i].id, after[changes[i].id].version)
            && (after[changes[i].id].active <==> changes[i].action != Archive)
            && changes[i].definition == Some(after[changes[i].id].limits)
  {
    var n := |changes| - 1;
    var init := changes[..n];
    var (midRefs, mid) := ActivateAll(budgets, install, init).value;
    ApplyChangeMeaning(mid, install, changes[n]);
    if i == n {
      assert !Names(init, changes[n].id);
      ActivateFrame(budgets, install, init, changes[n].id);
      RefsLength(budgets, install, init);
    } else {
      ActivatedRow(budgets, install, init, i);
    }
  }

  lemma {:induction false} RefsLength(budgets: Budgets, install: ID, changes: seq<Change>)
    requires ActivateAll(budgets, install, changes).Ok?
    ensures |ActivateAll(budgets, install, changes).value.0| == |changes|
  {
    if |changes| > 0 {
      RefsLength(budgets, install, changes[..|changes| - 1]);
    }
  }

  lemma SecondChangeFails(budgets: Budgets, install: ID, init: seq<Change>, i: nat, c: Change)
    requires Diagnostics(budgets, install, init) == [] && DistinctIds(init) && i < |init| && init[i].id == c.id
    requires ValidateChange(budgets, install, c).None?
    ensures ActivateAll(budgets, install, init + [c]).Err?
  {
    assert (init + [c])[..|init|] == init;
    ValidationAgrees(budgets, install, init);
    var mid := ActivateAll(budgets, install, init).value.1;
    ActivatedRow(budgets, install, init, i);
    ActivateRaises(budgets, install, init, i);
    DiagnosticsEmptyAt(budgets, install, init, i);
    ValidOnce(budgets, mid, install, init[i], c);
    ApplyChangeMeaning(mid, install, c);
  }
}
