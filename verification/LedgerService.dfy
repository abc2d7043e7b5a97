/**
 * The accounting handlers as the program runs them: loops over the chain, rows updated in place, Go's own arithmetic.
 */
module LedgerService {
  import opened Wrappers
  import opened Results
  import opened Int64
  import opened AccountingModel
  import Limits
  import PositionRows
  import opened Ledger
  import opened LedgerInvariant

  /** A transition's deltas are int64 words. */
  lemma TransitionWords(r: Reservation, input: SettleInput)
    requires !r.state.Terminal() && Stored(r) && input.usage.Schema()
    requires Transition(r, input).Ok?
    ensures Transition(r, input).value.delta.Words()
  {
  }

  class Service {
    var budgets: Budgets
    var positions: Positions
    var rows: seq<Reservation>
    var entries: seq<Entry>

    function Contents(): Book
      reads this
    {
      Book(budgets, positions, rows, entries)
    }

    ghost predicate Valid()
      reads this
    {
      Inv(Contents())
    }

    constructor ()
      ensures Valid() && Initial(Contents()) && budgets == map[]
    {
      budgets, positions, rows, entries := map[], map[], [], [];
    }

    // ---- Position rows ----

    /** Inserts the row when absent and re-pins an unconfigured row that holds no amounts. */
    method EnsurePosition(ref: LevelRef, install: ID, currency: string) returns (p: Position)
      modifies this`positions
      ensures p == PositionRows.PinnedRow(old(positions), ref, install, currency)
      ensures positions == old(positions)[ref := p]
    {
      if ref !in positions {
        positions := positions[ref := Position(install, currency, ZERO, 1)];
      }
      p := positions[ref];
      if p.currency == UNCONFIGURED && currency != UNCONFIGURED && p.counters.ZeroAmounts() {
        p := p.(currency := currency, version := p.version + 1);
        positions := positions[ref := p];
      }
    }

    /** The wrapped sums are tested for a negative value; the update itself is one statement on the stored row. */
    method ApplyPositionDeltas(ref: LevelRef, d: Counters) returns (r: Result<()>)
      requires ref in positions && positions[ref].counters.Fits() && d.Words()
      modifies this`positions
      ensures r.Ok? ==> PositionRows.ApplyDeltas(old(positions)[ref], d).Ok?
                        && positions == old(positions)[ref := PositionRows.ApplyDeltas(old(positions)[ref], d).value]
      ensures r.Err? ==> PositionRows.ApplyDeltas(old(positions)[ref], d) == Err(r.fault) && positions == old(positions)
    {
      var c := positions[ref].counters;
      NegativeTestExact(c.spent, d.spent);
      NegativeTestExact(c.reserved, d.reserved);
      NegativeTestExact(c.unknown, d.unknown);
      NegativeTestExact(c.estimated, d.estimated);
      NegativeTestExact(c.concurrency, d.concurrency);
      if Wrap(c.spent + d.spent) < 0 || Wrap(c.reserved + d.reserved) < 0 || Wrap(c.unknown + d.unknown) < 0
         || Wrap(c.estimated + d.estimated) < 0 || Wrap(c.concurrency + d.concurrency) < 0 {
        return Err(InvalidInput);
      }
      var p := positions[ref];
      positions := positions[ref := p.(counters := c.Plus(d), version := p.version + 1)];
      r := Ok(());
    }

    /** The exposure is summed with checked additions before it is compared with the cap. */
    method CheckSpend(c: Counters, l: Limits.Level, amount: int64) returns (r: Result<()>)
      requires c.Fits()
      ensures r == PositionRows.SpendCheck(c, l, amount)
    {
      if amount > 0 && l.caps.spend.Some? {
        AddCheckedExact(c.spent, c.reserved);
        var exposure := AddChecked(c.spent, c.reserved);
        if exposure.Err? {
          return Err(exposure.fault);
        }
        AddCheckedExact(exposure.value, c.unknown);
        exposure := AddChecked(exposure.value, c.unknown);
        if exposure.Err? {
          return Err(exposure.fault);
        }
        AddCheckedExact(exposure.value, amount);
        exposure := AddChecked(exposure.value, amount);
        if exposure.Err? {
          return Err(exposure.fault);
        }
        if amount > l.caps.spend.value && l.ref.kind == KRootTask {
          return Err(InvalidInput);
        }
        if amount > l.caps.spend.value || exposure.value > l.caps.spend.value {
          return Err(BudgetUnavailable);
        }
      }
      r := Ok(());
    }

    method ChargeLevel(l: Limits.Level, install: ID, amount: Money) returns (r: Result<()>)
      requires PositionRows.AllFit(positions) && 0 <= amount.micro
      modifies this`positions
      ensures r.Ok? ==> PositionRows.ChargeLevel(old(positions), l, install, amount) == Ok(positions)
      ensures r.Err? ==> PositionRows.ChargeLevel(old(positions), l, install, amount) == Err(r.fault)
    {
      var p := EnsurePosition(l.ref, install, amount.currency);
      assert p.counters.Fits();
      if p.currency != UNCONFIGURED && p.currency != amount.currency {
        return Err(InvalidInput);
      }
      r := CheckSpend(p.counters, l, amount.micro);
      if r.Err? {
        return;
      }
      if l.caps.concurrency.Some? && Wrap(p.counters.concurrency + 1) > l.caps.concurrency.value {
        return Err(BudgetUnavailable);
      }
      r := ApplyPositionDeltas(l.ref, PositionRows.Admission(amount.micro));
      if r.Ok? {
        var q := PositionRows.ApplyDeltas(p, PositionRows.Admission(amount.micro)).value;
        assert old(positions)[l.ref := p][l.ref := q] == old(positions)[l.ref := q];
      }
    }

    // ---- Levels ----

    /** Walks the ancestors from the root organization down. */
    method OrganizationLevels(install: ID, ancestors: seq<SnapOrg>) returns (r: Result<seq<Limits.Level>>)
      ensures r == Limits.OrganizationLevels(budgets, install, ancestors)
    {
      var levels := [];
      var i := |ancestors|;
      assert ancestors[..i] == ancestors;
      ghost var all := Limits.OrganizationLevels(budgets, install, ancestors);
      assert all.Ok? ==> levels + all.value == all.value;
      while i > 0
        invariant 0 <= i <= |ancestors|
        invariant Limits.OrganizationLevels(budgets, install, ancestors) ==
                  var rest :- Limits.OrganizationLevels(budgets, install, ancestors[..i]); Ok(levels + rest)
      {
        i := i - 1;
        var org := ancestors[i];
        assert ancestors[..i + 1][..i] == ancestors[..i];
        var caps := Limits.MemberCaps(budgets, install, org.id, org.limits);
        if caps.Err? {
          return Err(caps.fault);
        }
        var level := Limits.Level(LevelRef(KOrganization, org.id), caps.value);
        ghost var rest := Limits.OrganizationLevels(budgets, install, ancestors[..i]);
        assert rest.Ok? ==> levels + ([level] + rest.value) == levels + [level] + rest.value;
        levels := levels + [level];
      }
      assert levels + [] == levels;
      r := Ok(levels);
    }

    method LevelsForScope(scope: Scope, peer: Result<Snapshot>) returns (r: Result<seq<Limits.Level>>)
      ensures r == Limits.LevelsForScope(budgets, scope, peer)
    {
      if scope.Dimensions() && peer.Err? {
        return Err(peer.fault);
      }
      var snap := if scope.Dimensions() then peer.value else EMPTY_SNAPSHOT;
      var inst := Limits.InstallationLevel(budgets, scope.install);
      if inst.Err? {
        return Err(inst.fault);
      }
      if scope.organization != "" && |snap.ancestors| == 0 {
        return Err(InvalidInput);
      }
      var orgs := OrganizationLevels(scope.install, snap.ancestors);
      if orgs.Err? {
        return orgs;
      }
      var project := Limits.ProjectLevels(budgets, scope, snap);
      if project.Err? {
        return project;
      }
      var worker := Limits.WorkerLevels(budgets, scope, snap);
      if worker.Err? {
        return worker;
      }
      r := Ok([inst.value] + orgs.value + project.value + worker.value);
    }

    // ---- Reserve ----

    method ChargeChain(levels: seq<Limits.Level>, install: ID, amount: Money) returns (r: Result<()>)
      requires PositionRows.AllFit(positions) && 0 <= amount.micro
      modifies this`positions
      ensures r.Ok? ==> PositionRows.ChargeAll(old(positions), levels, install, amount) == Ok(positions)
      ensures r.Err? ==> PositionRows.ChargeAll(old(positions), levels, install, amount) == Err(r.fault)
    {
      var i := 0;
      while i < |levels|
        invariant 0 <= i <= |levels|
        invariant PositionRows.AllFit(positions)
        invariant PositionRows.ChargeAll(old(positions), levels, install, amount)
                  == PositionRows.ChargeAll(positions, levels[i..], install, amount)
      {
        ghost var before := positions;
        assert levels[i..][1..] == levels[i + 1..];
        r := ChargeLevel(levels[i], install, amount);
        if r.Err? {
          return;
        }
        PositionRows.ChargeLevelFits(before, levels[i], install, amount);
        i := i + 1;
      }
      assert levels[i..] == [];
      r := Ok(());
    }

    method AssessRequest(input: ReserveInput, env: Env) returns (r: Result<(seq<Limits.Level>, WireLimits)>)
      ensures r == Assess(budgets, input, env)
    {
      var gate := PaidGate(budgets, input);
      if gate.Err? {
        return Err(gate.fault);
      }
      var scoped := LevelsForScope(input.scope, env.peer);
      if scoped.Err? {
        return Err(scoped.fault);
      }
      var root :=
        Limits.RootLevel(if input.rootTask.Some? then input.rootTask.value else input.operation, input.limits, env.now);
      if root.Err? {
        return Err(root.fault);
      }
      var levels := scoped.value + [root.value];
      var effective := Limits.EffectiveLimits(levels, env.now + Limits.DEFAULT_ROOT_DEADLINE);
      if effective.Err? {
        return Err(effective.fault);
      }
      var limits := effective.value;
      if limits.currency != UNCONFIGURED && input.amount.micro > 0 && input.amount.currency != limits.currency {
        return Err(InvalidInput);
      }
      r := Ok((levels, limits));
    }

    /** The body of a reserve transaction for an operation id not seen before; it may stop half way. */
    method AdmitInTransaction(input: ReserveInput, env: Env) returns (r: Result<Reservation>)
      requires PositionRows.AllFit(positions) && 0 <= input.amount.micro
      modifies this
      ensures r.Ok? ==> Admit(old(Contents()), input, env) == Ok(Contents())
      ensures r.Ok? ==> |rows| > old(|rows|) && rows[old(|rows|)] == r.value
      ensures r.Err? ==> Admit(old(Contents()), input, env) == Err(r.fault)
    {
      var assessed := AssessRequest(input, env);
      if assessed.Err? {
        return Err(assessed.fault);
      }
      var (levels, effective) := assessed.value;
      var charged := ChargeChain(levels, input.scope.install, input.amount);
      if charged.Err? {
        return Err(charged.fault);
      }
      if FindId(rows, env.newId).Some? {
        return Err(InternalError);
      }
      var row := NewRow(input, env, levels, effective);
      rows := rows + [row];
      entries := entries + [Entry(row.id, row.install, EReserved, row.currency, row.amount, false)];
      r := Ok(row);
    }

    /** The reserve boundary: one transaction, rolled back on any fault. */
    method HandleReserve(input: ReserveInput, env: Env) returns (r: Result<Reservation>)
      requires Valid()
      modifies this
      ensures Valid()
      ensures Reply(r, Contents()) == Reserve(old(Contents()), input, env)
      ensures r.Err? ==> Contents() == old(Contents())
    {
      ReserveInv(Contents(), input, env);
      if input.scope.install == "" {
        return Err(InvalidInput);
      }
      if input.scope.install != env.install {
        return Err(PermissionDenied);
      }
      if input.amount.micro < 0 {
        return Err(InvalidInput);
      }
      var prior := FindOperation(rows, input.operation);
      if prior.Some? {
        if rows[prior.value].request != input.Fingerprint() {
          return Err(Conflict);
        }
        return Ok(rows[prior.value]);
      }
      var saved := Contents();
      r := AdmitInTransaction(input, env);
      if r.Err? {
        budgets, positions, rows, entries := saved.budgets, saved.positions, saved.rows, saved.entries;
      }
    }

    // ---- Settle ----

    /** Applies one set of deltas at every charged reference in turn. */
    method SettleDeltas(charged: seq<LevelRef>, d: Counters) returns (r: Result<()>)
      requires PositionRows.AllFit(positions) && d.Words()
      modifies this`positions
      ensures r.Ok? ==> |charged| > 0 && PositionRows.ApplyAll(old(positions), charged, d) == Ok(positions)
      ensures r.Err? ==> if |charged| == 0 then r.fault == InternalError
                         else PositionRows.ApplyAll(old(positions), charged, d) == Err(r.fault)
    {
      if |charged| == 0 {
        return Err(InternalError);
      }
      var i := 0;
      while i < |charged|
        invariant 0 <= i <= |charged|
        invariant PositionRows.AllFit(positions)
        invariant PositionRows.ApplyAll(old(positions), charged, d) == PositionRows.ApplyAll(positions, charged[i..], d)
      {
        assert charged[i..][1..] == charged[i + 1..];
        if charged[i] !in positions {
          return Err(InternalError);
        }
        r := ApplyPositionDeltas(charged[i], d);
        if r.Err? {
          return;
        }
        i := i + 1;
      }
      assert charged[i..] == [];
      r := Ok(());
    }

    /** Appends a transition's entries, skipping non-positive amounts. */
    method AppendEntries(r: Reservation, items: seq<Item>)
      modifies this`entries
      ensures entries == old(entries) + EntriesOf(r, items)
    {
      var k := 0;
      while k < |items|
        invariant 0 <= k <= |items|
        invariant entries + EntriesOf(r, items[k..]) == old(entries) + EntriesOf(r, items)
      {
        assert items[k..][1..] == items[k + 1..];
        if items[k].amount > 0 {
          var e := Entry(r.id, r.install, items[k].kind, r.currency, items[k].amount, items[k].advisory);
          assert entries + ([e] + EntriesOf(r, items[k + 1..])) == entries + [e] + EntriesOf(r, items[k + 1..]);
          entries := entries + [e];
        }
        k := k + 1;
      }
      assert EntriesOf(r, items[k..]) == [];
    }

    /** The body of a settle transaction for a live reservation; it may stop half way. */
    method SettleInTransaction(i: nat, input: SettleInput) returns (r: Result<Reservation>)
      requires i < |rows| && PositionRows.AllFit(positions) && input.usage.Schema()
      requires !rows[i].state.Terminal() && Stored(rows[i])
      modifies this
      ensures r.Ok? ==> SettleRow(old(Contents()), i, input) == Ok(Contents()) && i < |rows| && rows[i] == r.value
      ensures r.Err? ==> SettleRow(old(Contents()), i, input) == Err(r.fault)
    {
      var row := rows[i];
      var check := CheckReport(row, input);
      if check.Err? {
        return Err(check.fault);
      }
      var movement := Transition(row, input);
      if movement.Err? {
        return Err(movement.fault);
      }
      TransitionWords(row, input);
      var m := movement.value;
      var moved := SettleDeltas(row.charged, m.delta);
      if moved.Err? {
        return Err(moved.fault);
      }
      AppendEntries(row, m.items);
      rows := rows[i := Moved(row, m.next, input.usage)];
      r := Ok(rows[i]);
    }

    /** The settle boundary: one transaction, rolled back on any fault. */
    method HandleSettle(input: SettleInput) returns (r: Result<Reservation>)
      requires Valid()
      modifies this
      ensures Valid()
      ensures StoredRows(old(Contents())) && Reply(r, Contents()) == Settle(old(Contents()), input)
      ensures r.Err? ==> Contents() == old(Contents())
    {
      SettleInv(Contents(), input);
      if !input.usage.Schema() {
        return Err(InvalidInput);
      }
      var found := FindId(rows, input.reservation);
      if found.None? {
        return Err(NotFound);
      }
      if rows[found.value].state.Terminal() {
        if rows[found.value].report == Some(input.usage) {
          return Ok(rows[found.value]);
        }
        return Err(Conflict);
      }
      var saved := Contents();
      r := SettleInTransaction(found.value, input);
      if r.Err? {
        budgets, positions, rows, entries := saved.budgets, saved.positions, saved.rows, saved.entries;
      }
    }
  }
}
