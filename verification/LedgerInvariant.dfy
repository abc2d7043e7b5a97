/**
 * The inductive invariant of the ledger: every position row is the recount of the reservation table,
 * and every call keeps it so.
 */
module LedgerInvariant {
  import opened Wrappers
  import opened Int64
  import opened AccountingModel
  import opened Limits
  import opened PositionRows
  import opened Ledger

  /** What one reservation, in its current state, contributes to each row it charged. */
  function Booked(r: Reservation): Counters {
    if r.state.Reserved? then Counters(0, r.amount, 0, 0, 1)
    else if r.report.None? then ZERO
    else
      var u := r.report.value;
      match r.state
      case Unknown => Counters(0, 0, u.unknown, 0, 1)
      case Settled =>
        if u.advisory then Counters(0, 0, 0, u.spent + u.estimated, 0) else Counters(u.spent, 0, 0, u.estimated, 0)
      case _ => ZERO
  }

  /** The counters of a row recomputed from the reservation table, with multiplicity. */
  function Recount(rows: seq<Reservation>, ref: LevelRef): Counters {
    if |rows| == 0 then ZERO
    else
      var last := rows[|rows| - 1];
      Recount(rows[..|rows| - 1], ref).Plus(Charge(last.charged, ref, Booked(last)))
  }

  /** A row's state and report agree, and its amount lies within its sealed effective spend. */
  predicate RowOk(r: Reservation) {
    && Stored(r)
    && |r.charged| > 0 && r.charged[0] == LevelRef(KInstallation, r.install)
    && (r.state.Reserved? <==> r.report.None?)
    && (r.report.Some? ==> r.report.value.reserved == 0)
    && (r.state.Unknown? ==> r.report.value.unknown > 0)
    && (r.state.Settled? && r.report.value.advisory ==> r.report.value.spent + r.report.value.estimated <= MAX)
    && (r.state.Released? ==> !r.report.value.Nonzero())
    && r.request.amount == Money(r.currency, r.amount)
    && r.amount <= r.limits.spend
  }

  ghost predicate RowsOk(rows: seq<Reservation>) {
    forall i | 0 <= i < |rows| :: RowOk(rows[i])
  }

  /** Primary key and the unique operation id. */
  ghost predicate Distinct(rows: seq<Reservation>) {
    forall i, j | 0 <= i < j < |rows| :: rows[i].id != rows[j].id && rows[i].operation != rows[j].operation
  }

  ghost predicate ChargedExist(ps: Positions, rows: seq<Reservation>) {
    forall i, ref | 0 <= i < |rows| && ref in rows[i].charged :: ref in ps
  }

  ghost predicate Tallies(ps: Positions, rows: seq<Reservation>) {
    forall ref | ref in ps :: ps[ref].counters == Recount(rows, ref)
  }

  ghost predicate Inv(b: Book) {
    && AllFit(b.positions)
    && RowsOk(b.rows)
    && Distinct(b.rows)
    && ChargedExist(b.positions, b.rows)
    && Tallies(b.positions, b.rows)
  }

  ghost predicate Initial(b: Book) {
    b.positions == map[] && b.rows == [] && b.entries == []
  }

  lemma InvStored(b: Book)
    requires Inv(b)
    ensures StoredRows(b)
  {
  }

  // ---- Recounting ----

  lemma {:induction false} RecountAbsent(ps: Positions, rows: seq<Reservation>, ref: LevelRef)
    requires ChargedExist(ps, rows) && ref !in ps
    ensures Recount(rows, ref) == ZERO
  {
    if |rows| > 0 {
      var init := rows[..|rows| - 1];
      assert ChargedExist(ps, init) by {
        assert forall i | 0 <= i < |init| :: init[i] == rows[i];
      }
      RecountAbsent(ps, init, ref);
      ChargeAbsent(rows[|rows| - 1].charged, ref, Booked(rows[|rows| - 1]));
    }
  }

  lemma RecountAppend(rows: seq<Reservation>, r: Reservation, ref: LevelRef)
    ensures Recount(rows + [r], ref) == Recount(rows, ref).Plus(Charge(r.charged, ref, Booked(r)))
  {
    assert (rows + [r])[..|rows|] == rows;
  }

  lemma Rearrange(a: Counters, b: Counters, c: Counters)
    ensures a.Plus(b).Plus(c) == a.Plus(c).Plus(b)
    ensures a.Plus(b.Plus(c)) == a.Plus(b).Plus(c)
  {
  }

  lemma {:induction false} SumMoves(total: Counters, rest: Counters, refs: seq<LevelRef>, ref: LevelRef,
                                    booked: Counters, d: Counters)
    requires total == rest.Plus(Charge(refs, ref, booked))
    ensures rest.Plus(Charge(refs, ref, booked.Plus(d))) == total.Plus(Charge(refs, ref, d))
  {
    ScalePlus(Count(refs, ref), booked, d);
    Rearrange(rest, Charge(refs, ref, booked), Charge(refs, ref, d));
  }

  lemma {:induction false} RecountLast(rows: seq<Reservation>, ref: LevelRef)
    requires |rows| > 0
    ensures var last := rows[|rows| - 1];
            Recount(rows, ref) == Recount(rows[..|rows| - 1], ref).Plus(Charge(last.charged, ref, Booked(last)))
  {
  }

  lemma {:induction false} SumShifts(rest: Counters, moved: Counters, part: Counters, d: Counters)
    requires moved == rest.Plus(d)
    ensures moved.Plus(part) == rest.Plus(part).Plus(d)
  {
  }

  lemma {:induction false} UpdateLast(rows: seq<Reservation>, r: Reservation, d: Counters, ref: LevelRef)
    requires |rows| > 0 && r.charged == rows[|rows| - 1].charged && Booked(r) == Booked(rows[|rows| - 1]).Plus(d)
    ensures Recount(rows[|rows| - 1 := r], ref) == Recount(rows, ref).Plus(Charge(r.charged, ref, d))
  {
    var n := |rows| - 1;
    RecountLast(rows, ref);
    RecountLast(rows[n := r], ref);
    assert rows[n := r][..n] == rows[..n];
    SumMoves(Recount(rows, ref), Recount(rows[..n], ref), r.charged, ref, Booked(rows[n]), d);
  }

  lemma {:induction false} UpdateEarlier(rows: seq<Reservation>, i: nat, r: Reservation, moved: Counters, ref: LevelRef)
    requires i < |rows| - 1 && Recount(rows[..|rows| - 1][i := r], ref) == Recount(rows[..|rows| - 1], ref).Plus(moved)
    ensures Recount(rows[i := r], ref) == Recount(rows, ref).Plus(moved)
  {
    var n := |rows| - 1;
    RecountLast(rows, ref);
    RecountLast(rows[i := r], ref);
    assert rows[i := r][..n] == rows[..n][i := r];
    SumShifts(Recount(rows[..n], ref), Recount(rows[..n][i := r], ref), Charge(rows[n].charged, ref, Booked(rows[n])),
              moved);
  }

  /** Replacing one row by its successor moves the recount by the successor's deltas. */
  lemma {:induction false} RecountUpdate(rows: seq<Reservation>, i: nat, r: Reservation, d: Counters, ref: LevelRef)
    requires i < |rows| && r.charged == rows[i].charged && Booked(r) == Booked(rows[i]).Plus(d)
    ensures Recount(rows[i := r], ref) == Recount(rows, ref).Plus(Charge(rows[i].charged, ref, d))
  {
    if i == |rows| - 1 {
      UpdateLast(rows, r, d, ref);
    } else {
      RecountUpdate(rows[..|rows| - 1], i, r, d, ref);
      UpdateEarlier(rows, i, r, Charge(r.charged, ref, d), ref);
    }
  }

  lemma BookedNonNegative(r: Reservation)
    requires Stored(r)
    ensures Booked(r).NonNegative()
  {
  }

  lemma ChargeNonNegative(refs: seq<LevelRef>, ref: LevelRef, c: Counters)
    requires c.NonNegative()
    ensures Charge(refs, ref, c).NonNegative()
  {
    ScaleSigns(Count(refs, ref), c);
  }

  predicate Covers(total: Counters, part: Counters) {
    && part.spent <= total.spent && part.reserved <= total.reserved && part.unknown <= total.unknown
    && part.estimated <= total.estimated && part.concurrency <= total.concurrency
  }

  lemma CoversPlus(total: Counters, part: Counters, more: Counters)
    requires Covers(total, part) && more.NonNegative()
    ensures Covers(total.Plus(more), part)
  {
  }

  /** A row of the table is part of the recount: what it booked is still there to be given back. */
  lemma {:induction false} RecountCovers(rows: seq<Reservation>, i: nat, ref: LevelRef)
    requires i < |rows| && forall j | 0 <= j < |rows| :: Stored(rows[j])
    ensures Covers(Recount(rows, ref), Charge(rows[i].charged, ref, Booked(rows[i])))
  {
    var n := |rows| - 1;
    RecountNonNegative(rows[..n], ref);
    BookedNonNegative(rows[n]);
    ChargeNonNegative(rows[n].charged, ref, Booked(rows[n]));
    if i < n {
      RecountCovers(rows[..n], i, ref);
      CoversPlus(Recount(rows[..n], ref), Charge(rows[i].charged, ref, Booked(rows[i])),
                 Charge(rows[n].charged, ref, Booked(rows[n])));
    }
  }

  lemma {:induction false} RecountNonNegative(rows: seq<Reservation>, ref: LevelRef)
    requires forall j | 0 <= j < |rows| :: Stored(rows[j])
    ensures Recount(rows, ref).NonNegative()
  {
    if |rows| > 0 {
      var n := |rows| - 1;
      RecountNonNegative(rows[..n], ref);
      BookedNonNegative(rows[n]);
      ChargeNonNegative(rows[n].charged, ref, Booked(rows[n]));
    }
  }

  // ---- Reserve keeps the invariant ----

  /** Where the chain starts: every reservation charges its own installation first. */
  lemma ChainStartsAtInstallation(budgets: Budgets, input: ReserveInput, env: Env)
    requires Chain(budgets, input, env).Ok?
    ensures |Chain(budgets, input, env).value| > 0
    ensures Chain(budgets, input, env).value[0].ref == LevelRef(KInstallation, input.scope.install)
    ensures InstallationLevel(budgets, input.scope.install) == Ok(Chain(budgets, input, env).value[0])
  {
  }

  lemma RefsHead(levels: seq<Level>)
    requires |levels| > 0
    ensures |Refs(levels)| > 0 && Refs(levels)[0] == levels[0].ref
  {
  }

  /** A spend cap that comes out of merged limits is never negative. */
  predicate CapsOk(c: Caps) {
    c.spend.Some? ==> 0 <= c.spend.value
  }

  /** A paid installation has a positive spend cap at the head of its chain. */
  lemma PaidInstallationCapped(budgets: Budgets, install: ID)
    requires RequirePaidInstallation(budgets, install).Ok? && InstallationLevel(budgets, install).Ok?
    ensures InstallationLevel(budgets, install).value.caps.spend.Some?
  {
  }

  /** Every admitted amount lies within the effective spend sealed into its row. */
  lemma AdmittedWithinSealedSpend(b: Book, input: ReserveInput, env: Env, levels: seq<Level>, effective: WireLimits)
    requires AllFit(b.positions) && 0 <= input.amount.micro
    requires Assess(b.budgets, input, env) == Ok((levels, effective))
    requires ChargeAll(b.positions, levels, input.scope.install, input.amount).Ok?
    ensures input.amount.micro <= effective.spend
  {
    ChainStartsAtInstallation(b.budgets, input, env);
    NarrowMeaning(levels);
    var caps := Narrow(levels).value;
    assert IsMinimum(Declared(levels, FSpend), Get(caps, FSpend));
    if input.amount.micro > 0 {
      PaidInstallationCapped(b.budgets, input.scope.install);
      assert Declared(levels, FSpend)[0].Some?;
      assert caps.spend.Some?;
      var i :| 0 <= i < |levels| && Declared(levels, FSpend)[i] == caps.spend;
      ChargeAllCovers(b.positions, levels, input.scope.install, input.amount, i);
    } else {
      ChainCapsOk(b.budgets, input, env);
      if caps.spend.Some? {
        var i :| 0 <= i < |levels| && Declared(levels, FSpend)[i] == caps.spend;
        assert CapsOk(levels[i].caps);
      }
    }
  }

  lemma MergeLimitsCapsOk(c: Caps, l: Option<WireLimits>)
    requires CapsOk(c) && MergeLimits(c, l).Ok?
    ensures CapsOk(MergeLimits(c, l).value)
  {
  }

  lemma MemberCapsOk(budgets: Budgets, install: ID, id: ID, limits: Option<WireLimits>)
    requires MemberCaps(budgets, install, id, limits).Ok?
    ensures CapsOk(MemberCaps(budgets, install, id, limits).value)
  {
    var own := MergeLimits(NO_CAPS, limits);
    MergeLimitsCapsOk(NO_CAPS, limits);
    MergeLimitsCapsOk(own.value, BudgetLimits(LoadBudget(budgets, install, id)));
  }

  lemma {:induction false} OrganizationCapsOk(budgets: Budgets, install: ID, ancestors: seq<SnapOrg>)
    requires OrganizationLevels(budgets, install, ancestors).Ok?
    ensures forall i | 0 <= i < |OrganizationLevels(budgets, install, ancestors).value| ::
              CapsOk(OrganizationLevels(budgets, install, ancestors).value[i].caps)
  {
    if |ancestors| > 0 {
      var org := ancestors[|ancestors| - 1];
      MemberCapsOk(budgets, install, org.id, org.limits);
      OrganizationCapsOk(budgets, install, ancestors[..|ancestors| - 1]);
    }
  }

  lemma BuildLevelsCapsOk(budgets: Budgets, scope: Scope, snap: Snapshot)
    requires BuildLevels(budgets, scope, snap).Ok?
    ensures forall i | 0 <= i < |BuildLevels(budgets, scope, snap).value| ::
              CapsOk(BuildLevels(budgets, scope, snap).value[i].caps)
  {
    OrganizationCapsOk(budgets, scope.install, snap.ancestors);
    if scope.project != "" {
      MemberCapsOk(budgets, scope.install, snap.project.value.id, snap.project.value.limits);
    }
    if scope.worker != "" {
      MemberCapsOk(budgets, scope.install, snap.worker.value.id, snap.worker.value.limits);
    }
  }

  lemma ChainCapsOk(budgets: Budgets, input: ReserveInput, env: Env)
    requires Chain(budgets, input, env).Ok?
    ensures forall i | 0 <= i < |Chain(budgets, input, env).value| :: CapsOk(Chain(budgets, input, env).value[i].caps)
  {
    if input.scope.Dimensions() {
      BuildLevelsCapsOk(budgets, input.scope, env.peer.value);
    } else {
      BuildLevelsCapsOk(budgets, input.scope, EMPTY_SNAPSHOT);
    }
    MergeLimitsCapsOk(NO_CAPS, Some(input.limits));
  }

  /** The new row is well formed and books exactly one admission. */
  lemma NewRowOk(b: Book, input: ReserveInput, env: Env, levels: seq<Level>, effective: WireLimits)
    requires AllFit(b.positions) && 0 <= input.amount.micro
    requires Assess(b.budgets, input, env) == Ok((levels, effective))
    requires ChargeAll(b.positions, levels, input.scope.install, input.amount).Ok?
    ensures RowOk(NewRow(input, env, levels, effective))
    ensures Booked(NewRow(input, env, levels, effective)) == Admission(input.amount.micro)
  {
    AdmittedWithinSealedSpend(b, input, env, levels, effective);
    ChainStartsAtInstallation(b.budgets, input, env);
    RefsHead(levels);
  }

  /** The tables after a charged chain and one appended row still tally. */
  lemma AppendTallies(b: Book, levels: seq<Level>, install: ID, amount: Money, row: Reservation, qs: Positions)
    requires Inv(b) && 0 <= amount.micro
    requires ChargeAll(b.positions, levels, install, amount) == Ok(qs)
    requires row.charged == Refs(levels) && Booked(row) == Admission(amount.micro)
    ensures Tallies(qs, b.rows + [row]) && ChargedExist(qs, b.rows + [row])
  {
    var rows := b.rows + [row];
    forall ref | ref in qs ensures qs[ref].counters == Recount(rows, ref) {
      ChargeAllAdds(b.positions, levels, install, amount, ref);
      RecountAppend(b.rows, row, ref);
      if ref !in b.positions {
        RecountAbsent(b.positions, b.rows, ref);
      }
    }
    forall i, ref | 0 <= i < |rows| && ref in rows[i].charged ensures ref in qs {
      ChargeAllRows(b.positions, levels, install, amount, ref);
      if i < |b.rows| {
        assert rows[i] == b.rows[i];
      }
    }
  }

  lemma AppendDistinct(rows: seq<Reservation>, row: Reservation)
    requires Distinct(rows)
    requires FindId(rows, row.id).None? && FindOperation(rows, row.operation).None?
    ensures Distinct(rows + [row])
  {
  }

  lemma PostInv(b: Book, input: ReserveInput, env: Env, levels: seq<Level>, effective: WireLimits)
    requires Inv(b) && 0 <= input.amount.micro
    requires Assess(b.budgets, input, env) == Ok((levels, effective))
    requires FindOperation(b.rows, input.operation).None?
    requires Post(b, input, env, levels, effective).Ok?
    ensures Inv(Post(b, input, env, levels, effective).value)
  {
    var row := NewRow(input, env, levels, effective);
    var qs := ChargeAll(b.positions, levels, input.scope.install, input.amount).value;
    NewRowOk(b, input, env, levels, effective);
    AppendTallies(b, levels, input.scope.install, input.amount, row, qs);
    AppendDistinct(b.rows, row);
    ChargeAllFits(b.positions, levels, input.scope.install, input.amount);
  }

  lemma ReserveInv(b: Book, input: ReserveInput, env: Env)
    requires Inv(b)
    ensures Inv(Reserve(b, input, env).book)
  {
    if 0 <= input.amount.micro && FindOperation(b.rows, input.operation).None? {
      var assessed := Assess(b.budgets, input, env);
      if assessed.Ok? && Post(b, input, env, assessed.value.0, assessed.value.1).Ok? {
        PostInv(b, input, env, assessed.value.0, assessed.value.1);
      }
    }
  }

  // ---- Settle keeps the invariant ----

  /** A transition's deltas are the difference between what the row booked and what it books now. */
  lemma TransitionBooks(r: Reservation, input: SettleInput)
    requires RowOk(r) && !r.state.Terminal() && input.usage.Schema()
    requires CheckReport(r, input).Ok? && Transition(r, input).Ok?
    ensures var m := Transition(r, input).value;
            && Booked(Moved(r, m.next, input.usage)) == Booked(r).Plus(m.delta)
            && RowOk(Moved(r, m.next, input.usage))
  {
  }

  lemma ExecuteInv(b: Book, i: nat, u: Usage, m: Movement)
    requires Inv(b) && i < |b.rows|
    requires Booked(Moved(b.rows[i], m.next, u)) == Booked(b.rows[i]).Plus(m.delta)
    requires RowOk(Moved(b.rows[i], m.next, u))
    requires Execute(b, i, u, m).Ok?
    ensures Inv(Execute(b, i, u, m).value)
  {
    var r := b.rows[i];
    var next := Execute(b, i, u, m).value;
    var row := Moved(r, m.next, u);
    ApplyAllExact(b.positions, r.charged, m.delta);
    forall ref | ref in next.positions ensures next.positions[ref].counters == Recount(next.rows, ref) {
      RecountUpdate(b.rows, i, row, m.delta, ref);
    }
    assert forall j | 0 <= j < |b.rows| :: next.rows[j].charged == b.rows[j].charged
                                           && next.rows[j].id == b.rows[j].id
                                           && next.rows[j].operation == b.rows[j].operation;
  }

  lemma SettleInv(b: Book, input: SettleInput)
    requires Inv(b)
    ensures StoredRows(b)
    ensures Inv(Settle(b, input).book)
  {
    InvStored(b);
    if input.usage.Schema() {
      var found := FindId(b.rows, input.reservation);
      if found.Some? && !b.rows[found.value].state.Terminal() && SettleRow(b, found.value, input).Ok? {
        TransitionBooks(b.rows[found.value], input);
        ExecuteInv(b, found.value, input.usage, Transition(b.rows[found.value], input).value);
      }
    }
  }
}
