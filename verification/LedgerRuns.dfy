/** Whole runs of the ledger: any sequence of reserve calls, settle calls and budget changes. */
module LedgerRuns {
  import opened Wrappers
  import opened Results
  import opened Int64
  import opened AccountingModel
  import opened Limits
  import opened PositionRows
  import opened Ledger
  import opened LedgerInvariant

  /** One committed or refused transaction. Configuration may replace the budget table with any other. */
  datatype Call =
    | CallReserve(reserve: ReserveInput, env: Env)
    | CallSettle(settle: SettleInput)
    | CallBudgets(budgets: Budgets)

  function Step(b: Book, call: Call): (r: Book)
    requires Inv(b)
    ensures Inv(r)
  {
    match call
    case CallReserve(input, env) => ReserveInv(b, input, env); Reserve(b, input, env).book
    case CallSettle(input) => SettleInv(b, input); Settle(b, input).book
    case CallBudgets(budgets) => b.(budgets := budgets)
  }

  function Run(b: Book, calls: seq<Call>): (r: Book)
    requires Inv(b)
    ensures Inv(r)
  {
    if |calls| == 0 then b else Step(Run(b, calls[..|calls| - 1]), calls[|calls| - 1])
  }

  /** The tables just before the k-th call of a run. */
  function Before(b: Book, calls: seq<Call>, k: nat): (r: Book)
    requires Inv(b) && k <= |calls|
    ensures Inv(r)
  {
    Run(b, calls[..k])
  }

  lemma BeforeStep(b: Book, calls: seq<Call>, k: nat)
    requires Inv(b) && 0 < k <= |calls|
    ensures Before(b, calls, k) == Step(Before(b, calls, k - 1), calls[k - 1])
  {
    assert calls[..k][..k - 1] == calls[..k - 1];
  }

  /** In every reachable state every position row is the recount of the reservation table. */
  lemma ReachableTallies(b: Book, calls: seq<Call>, ref: LevelRef)
    requires Initial(b)
    ensures Inv(b) && At(Run(b, calls).positions, ref) == Recount(Run(b, calls).rows, ref)
    ensures At(Run(b, calls).positions, ref).Fits()
  {
    var r := Run(b, calls);
    if ref !in r.positions {
      RecountAbsent(r.positions, r.rows, ref);
    }
  }

  /** How many charges of live reservations a row carries: reserved and unknown ones, and no others. */
  function LiveSlots(rows: seq<Reservation>, ref: LevelRef): nat {
    if |rows| == 0 then 0
    else
      var last := rows[|rows| - 1];
      LiveSlots(rows[..|rows| - 1], ref) + if last.state.Terminal() then 0 else Count(last.charged, ref)
  }

  /** A slot is held from admission until a terminal state, through an unknown outcome. */
  lemma {:induction false} SlotsAreLive(rows: seq<Reservation>, ref: LevelRef)
    requires RowsOk(rows)
    ensures Recount(rows, ref).concurrency == LiveSlots(rows, ref)
  {
    if |rows| > 0 {
      SlotsAreLive(rows[..|rows| - 1], ref);
    }
  }

  // ---- Settlement never gets stuck ----

  lemma FoundIs(rows: seq<Reservation>, i: nat)
    requires Distinct(rows) && i < |rows|
    ensures FindId(rows, rows[i].id) == Some(i)
    ensures FindOperation(rows, rows[i].operation) == Some(i)
  {
  }

  /** The lower bound of the delta test never refuses a settle: what the row booked is still counted. */
  lemma TransitionNeverNegative(b: Book, i: nat, input: SettleInput, ref: LevelRef)
    requires Inv(b) && i < |b.rows| && !b.rows[i].state.Terminal() && input.usage.Schema()
    requires CheckReport(b.rows[i], input).Ok? && Transition(b.rows[i], input).Ok?
    ensures var m := Transition(b.rows[i], input).value;
            Recount(b.rows, ref).Plus(Charge(b.rows[i].charged, ref, m.delta)).NonNegative()
  {
    var r := b.rows[i];
    var m := Transition(r, input).value;
    var next := Moved(r, m.next, input.usage);
    TransitionBooks(r, input);
    RecountCovers(b.rows, i, ref);
    BookedNonNegative(next);
    ChargeNonNegative(r.charged, ref, Booked(next));
    ScalePlus(Count(r.charged, ref), Booked(r), m.delta);
  }

  /** The true sums of a settle stay within int64 at every charged row. */
  ghost predicate NoOverflow(b: Book, i: nat, m: Movement)
    requires i < |b.rows|
  {
    forall ref | ref in b.rows[i].charged ::
      Covers(Counters(MAX, MAX, MAX, MAX, MAX), Recount(b.rows, ref).Plus(Charge(b.rows[i].charged, ref, m.delta)))
  }

  lemma RoomIsNoOverflow(b: Book, i: nat, input: SettleInput)
    requires Inv(b) && i < |b.rows| && !b.rows[i].state.Terminal() && input.usage.Schema()
    requires CheckReport(b.rows[i], input).Ok? && Transition(b.rows[i], input).Ok?
    ensures Room(b.positions, b.rows[i].charged, Transition(b.rows[i], input).value.delta)
            <==> NoOverflow(b, i, Transition(b.rows[i], input).value)
  {
    var m := Transition(b.rows[i], input).value;
    forall ref | ref in b.rows[i].charged
      ensures ref in b.positions
      ensures b.positions[ref].counters.Plus(Charge(b.rows[i].charged, ref, m.delta)).Fits()
              <==> Covers(Counters(MAX, MAX, MAX, MAX, MAX),
                          Recount(b.rows, ref).Plus(Charge(b.rows[i].charged, ref, m.delta)))
    {
      TransitionNeverNegative(b, i, input, ref);
    }
  }

  /**
   * A well-formed settle of a live reservation is refused by the delta step exactly when a true sum
   * leaves the int64 range.
   */
  lemma SettleExact(b: Book, i: nat, input: SettleInput)
    requires Inv(b) && i < |b.rows| && !b.rows[i].state.Terminal()
    requires input.reservation == b.rows[i].id && input.usage.Schema()
    requires CheckReport(b.rows[i], input).Ok? && Transition(b.rows[i], input).Ok?
    ensures StoredRows(b)
    ensures Settle(b, input).outcome.Ok? <==> NoOverflow(b, i, Transition(b.rows[i], input).value)
  {
    InvStored(b);
    FoundIs(b.rows, i);
    var m := Transition(b.rows[i], input).value;
    RoomIsNoOverflow(b, i, input);
    ApplyAllExact(b.positions, b.rows[i].charged, m.delta);
  }

  /** In every reachable state an authoritative nonexecution of a live reservation succeeds. */
  lemma NonexecutionNeverStuck(b: Book, i: nat, input: SettleInput)
    requires Inv(b) && i < |b.rows| && !b.rows[i].state.Terminal()
    requires input.reservation == b.rows[i].id && input.expectedVersion == b.rows[i].version
    requires input.nonexecution && input.usage.Schema() && !input.usage.Nonzero() && input.usage.reserved == 0
    ensures StoredRows(b)
    ensures Settle(b, input).outcome == Ok(Moved(b.rows[i], Released, input.usage))
  {
    SettleExact(b, i, input);
    FoundIs(b.rows, i);
    var r := b.rows[i];
    var m := Transition(r, input).value;
    forall ref | ref in r.charged
      ensures Covers(Counters(MAX, MAX, MAX, MAX, MAX), Recount(b.rows, ref).Plus(Charge(r.charged, ref, m.delta)))
    {
      NonexecutionShrinks(b, i, m, ref);
    }
  }

  lemma NonexecutionShrinks(b: Book, i: nat, m: Movement, ref: LevelRef)
    requires Inv(b) && i < |b.rows| && ref in b.rows[i].charged
    requires Covers(ZERO, m.delta)
    ensures Covers(Counters(MAX, MAX, MAX, MAX, MAX),
                   Recount(b.rows, ref).Plus(Charge(b.rows[i].charged, ref, m.delta)))
  {
    ScaleSigns(Count(b.rows[i].charged, ref), m.delta);
    assert b.positions[ref].counters == Recount(b.rows, ref) && b.positions[ref].counters.Fits();
  }

  // ---- Caps over whole runs ----

  /** The amount a live reservation still holds against the spend cap. */
  function Held(r: Reservation): int {
    Booked(r).Exposure()
  }

  /** The report stays within what the reservation holds: enforceable cost and new unknowns alike. */
  predicate InBound(r: Reservation, input: SettleInput) {
    if input.nonexecution then true
    else if r.state.Reserved? && input.usage.unknown > 0 then input.usage.unknown <= Held(r)
    else input.usage.advisory || input.usage.spent <= Held(r)
  }

  /** A transition raises exposure exactly when its report is out of bound. */
  lemma ExposureMoves(r: Reservation, input: SettleInput)
    requires RowOk(r) && !r.state.Terminal() && input.usage.Schema()
    requires CheckReport(r, input).Ok? && Transition(r, input).Ok?
    ensures Transition(r, input).value.delta.Exposure() <= 0 <==> InBound(r, input)
    ensures Transition(r, input).value.delta.concurrency <= 0
  {
  }

  /** The row and the transition a settle call commits, if it commits one. */
  function Committed(b: Book, input: SettleInput): (r: Option<(nat, Movement)>)
    requires Inv(b)
    ensures r.Some? ==>
              && r.value.0 < |b.rows| && b.rows[r.value.0].id == input.reservation
              && !b.rows[r.value.0].state.Terminal() && input.usage.Schema()
              && CheckReport(b.rows[r.value.0], input).Ok?
              && Transition(b.rows[r.value.0], input) == Ok(r.value.1)
              && Execute(b, r.value.0, input.usage, r.value.1).Ok?
  {
    var found := FindId(b.rows, input.reservation);
    if input.usage.Schema() && found.Some? && !b.rows[found.value].state.Terminal()
       && SettleRow(b, found.value, input).Ok?
    then Some((found.value, Transition(b.rows[found.value], input).value))
    else None
  }

  lemma SettleCommits(b: Book, input: SettleInput)
    requires Inv(b)
    ensures StoredRows(b)
    ensures Settle(b, input).book ==
            if Committed(b, input).None? then b
            else Execute(b, Committed(b, input).value.0, input.usage, Committed(b, input).value.1).value
  {
    InvStored(b);
  }

  /** What a settle does at one row: the counters move by the transition, once per charge. */
  lemma SettleMoves(b: Book, input: SettleInput, ref: LevelRef)
    requires Inv(b)
    ensures StoredRows(b)
    ensures At(Settle(b, input).book.positions, ref) ==
            if Committed(b, input).None? then At(b.positions, ref)
            else
              var (i, m) := Committed(b, input).value;
              At(b.positions, ref).Plus(Charge(b.rows[i].charged, ref, m.delta))
  {
    SettleCommits(b, input);
    if Committed(b, input).Some? {
      var (i, m) := Committed(b, input).value;
      ExecuteMoves(b, i, input.usage, m, ref);
    }
  }

  lemma ExecuteMoves(b: Book, i: nat, u: Usage, m: Movement, ref: LevelRef)
    requires Inv(b) && i < |b.rows| && Execute(b, i, u, m).Ok?
    ensures At(Execute(b, i, u, m).value.positions, ref)
            == At(b.positions, ref).Plus(Charge(b.rows[i].charged, ref, m.delta))
  {
    ApplyAllMoves(b.positions, b.rows[i].charged, m.delta, ref);
  }

  /** Every report that settles a live reservation in this call stays in bound. */
  ghost predicate CallInBound(b: Book, call: Call) {
    call.CallSettle? ==>
      forall i | 0 <= i < |b.rows| && b.rows[i].id == call.settle.reservation && !b.rows[i].state.Terminal() ::
        InBound(b.rows[i], call.settle)
  }

  /** Wherever the call's chain names the row it declares a spend cap of at most cap. */
  ghost predicate CallSpendCapped(b: Book, call: Call, ref: LevelRef, cap: int) {
    call.CallReserve? && Chain(b.budgets, call.reserve, call.env).Ok? ==>
      SpendCapped(Chain(b.budgets, call.reserve, call.env).value, ref, cap)
  }

  ghost predicate CallSlotsCapped(b: Book, call: Call, ref: LevelRef, cap: int) {
    call.CallReserve? && Chain(b.budgets, call.reserve, call.env).Ok? ==>
      SlotsCapped(Chain(b.budgets, call.reserve, call.env).value, ref, cap)
  }

  /** A reserve call either leaves the tables alone or charges its whole chain. */
  lemma ReserveCharges(b: Book, input: ReserveInput, env: Env)
    requires Inv(b)
    ensures var next := Reserve(b, input, env).book;
            || next == b
            || (&& 0 <= input.amount.micro && Chain(b.budgets, input, env).Ok?
                && ChargeAll(b.positions, Chain(b.budgets, input, env).value, input.scope.install, input.amount)
                   == Ok(next.positions))
  {
  }

  /** A new admission charges its whole chain. */
  lemma AdmissionCharges(b: Book, input: ReserveInput, env: Env)
    requires Inv(b) && FindOperation(b.rows, input.operation).None? && Reserve(b, input, env).outcome.Ok?
    ensures 0 <= input.amount.micro && Chain(b.budgets, input, env).Ok?
    ensures ChargeAll(b.positions, Chain(b.budgets, input, env).value, input.scope.install, input.amount)
            == Ok(Reserve(b, input, env).book.positions)
  {
  }

  lemma SettleKeepsExposure(b: Book, input: SettleInput, ref: LevelRef)
    requires Inv(b) && CallInBound(b, CallSettle(input))
    ensures StoredRows(b)
    ensures At(Settle(b, input).book.positions, ref).Exposure() <= At(b.positions, ref).Exposure()
  {
    SettleMoves(b, input, ref);
    if Committed(b, input).Some? {
      var (i, m) := Committed(b, input).value;
      ExposureMoves(b.rows[i], input);
      ExposureAfter(At(b.positions, ref), Count(b.rows[i].charged, ref), m.delta);
    }
  }

  lemma SettleKeepsSlots(b: Book, input: SettleInput, ref: LevelRef)
    requires Inv(b)
    ensures StoredRows(b)
    ensures At(Settle(b, input).book.positions, ref).concurrency <= At(b.positions, ref).concurrency
  {
    SettleMoves(b, input, ref);
    if Committed(b, input).Some? {
      var (i, m) := Committed(b, input).value;
      ExposureMoves(b.rows[i], input);
      ExposureAfter(At(b.positions, ref), Count(b.rows[i].charged, ref), m.delta);
    }
  }

  /** Charging a chain that respects the cap leaves the row within it. */
  lemma ChainSpendCap(ps: Positions, levels: seq<Level>, install: ID, amount: Money, ref: LevelRef, cap: int)
    requires AllFit(ps) && 0 <= amount.micro && ChargeAll(ps, levels, install, amount).Ok?
    requires SpendCapped(levels, ref, cap) && At(ps, ref).Exposure() <= cap
    ensures At(ChargeAll(ps, levels, install, amount).value, ref).Exposure() <= cap
  {
    if amount.micro > 0 && ref in Refs(levels) {
      ChargeAllSpendCapped(ps, levels, install, amount, ref, cap);
    } else {
      ChargeAllAdds(ps, levels, install, amount, ref);
      if ref in Refs(levels) {
        ExposureAfter(At(ps, ref), Count(Refs(levels), ref), Admission(amount.micro));
      } else {
        ChargeAbsent(Refs(levels), ref, Admission(amount.micro));
      }
    }
  }

  lemma StepSpendCap(b: Book, call: Call, ref: LevelRef, cap: int)
    requires Inv(b) && CallInBound(b, call) && CallSpendCapped(b, call, ref, cap)
    requires At(b.positions, ref).Exposure() <= cap
    ensures At(Step(b, call).positions, ref).Exposure() <= cap
  {
    match call
    case CallReserve(input, env) =>
      ReserveCharges(b, input, env);
      if Reserve(b, input, env).book != b {
        ChainSpendCap(b.positions, Chain(b.budgets, input, env).value, input.scope.install, input.amount, ref, cap);
      }
    case CallSettle(input) => SettleKeepsExposure(b, input, ref);
    case CallBudgets(_) =>
  }

  /**
   * Spend cap over whole runs: if every chain of the run declares a spend cap of at most cap for a
   * row, and every report stays within what its reservation holds, then spent plus reserved plus
   * unknown at that row never exceeds cap.
   */
  lemma {:induction false} SpendCapHolds(b: Book, calls: seq<Call>, k: nat, ref: LevelRef, cap: int)
    requires Initial(b) && Inv(b) && 0 <= cap && k <= |calls|
    requires forall j | 0 <= j < |calls| :: CallInBound(Before(b, calls, j), calls[j])
    requires forall j | 0 <= j < |calls| :: CallSpendCapped(Before(b, calls, j), calls[j], ref, cap)
    ensures At(Before(b, calls, k).positions, ref).Exposure() <= cap
  {
    if k > 0 {
      SpendCapHolds(b, calls, k - 1, ref, cap);
      BeforeStep(b, calls, k);
      StepSpendCap(Before(b, calls, k - 1), calls[k - 1], ref, cap);
    }
  }

  lemma StepSlotsCap(b: Book, call: Call, ref: LevelRef, cap: int)
    requires Inv(b) && CallSlotsCapped(b, call, ref, cap)
    requires At(b.positions, ref).concurrency <= cap
    ensures At(Step(b, call).positions, ref).concurrency <= cap
  {
    match call
    case CallReserve(input, env) =>
      ReserveCharges(b, input, env);
      if Reserve(b, input, env).book != b {
        var levels := Chain(b.budgets, input, env).value;
        if ref in Refs(levels) {
          ChargeAllSlotsCapped(b.positions, levels, input.scope.install, input.amount, ref, cap);
        } else {
          ChargeAllAdds(b.positions, levels, input.scope.install, input.amount, ref);
          ChargeAbsent(Refs(levels), ref, Admission(input.amount.micro));
        }
      }
    case CallSettle(input) => SettleKeepsSlots(b, input, ref);
    case CallBudgets(_) =>
  }

  /** Concurrency cap over whole runs, whatever the reports say: live slots never exceed the declared cap. */
  lemma SlotsCapHolds(b: Book, calls: seq<Call>, k: nat, ref: LevelRef, cap: int)
    requires Initial(b) && Inv(b) && 0 <= cap && k <= |calls|
    requires forall j | 0 <= j < |calls| :: CallSlotsCapped(Before(b, calls, j), calls[j], ref, cap)
    ensures LiveSlots(Before(b, calls, k).rows, ref) <= cap
  {
    SlotsCounterCapped(b, calls, k, ref, cap);
    ReachableTallies(b, calls[..k], ref);
    SlotsAreLive(Before(b, calls, k).rows, ref);
  }

  lemma {:induction false} SlotsCounterCapped(b: Book, calls: seq<Call>, k: nat, ref: LevelRef, cap: int)
    requires Initial(b) && Inv(b) && 0 <= cap && k <= |calls|
    requires forall j | 0 <= j < |calls| :: CallSlotsCapped(Before(b, calls, j), calls[j], ref, cap)
    ensures At(Before(b, calls, k).positions, ref).concurrency <= cap
  {
    if k > 0 {
      SlotsCounterCapped(b, calls, k - 1, ref, cap);
      SlotsCounterStep(b, calls, k, ref, cap);
    }
  }

  lemma SlotsCounterStep(b: Book, calls: seq<Call>, k: nat, ref: LevelRef, cap: int)
    requires Inv(b) && 0 <= cap && 0 < k <= |calls|
    requires CallSlotsCapped(Before(b, calls, k - 1), calls[k - 1], ref, cap)
    requires At(Before(b, calls, k - 1).positions, ref).concurrency <= cap
    ensures At(Before(b, calls, k).positions, ref).concurrency <= cap
  {
    BeforeStep(b, calls, k);
    StepSlotsCap(Before(b, calls, k - 1), calls[k - 1], ref, cap);
  }

  /**
   * Admission safety needs no assumption on reports: a newly admitted positive amount ends within every declared cap.
   */
  lemma AdmissionWithinCap(b: Book, input: ReserveInput, env: Env, ref: LevelRef, cap: int)
    requires Inv(b) && 0 < input.amount.micro
    requires FindOperation(b.rows, input.operation).None? && Reserve(b, input, env).outcome.Ok?
    requires Chain(b.budgets, input, env).Ok? ==> ref in Refs(Chain(b.budgets, input, env).value)
    requires CallSpendCapped(b, CallReserve(input, env), ref, cap)
    ensures At(Reserve(b, input, env).book.positions, ref).Exposure() <= cap
  {
    AdmissionCharges(b, input, env);
    ChargedWithinCap(b.positions, Chain(b.budgets, input, env).value, input.scope.install, input.amount, ref, cap,
                     Reserve(b, input, env).book.positions);
  }

  lemma ChargedWithinCap(ps: Positions, levels: seq<Level>, install: ID, amount: Money, ref: LevelRef, cap: int,
                         qs: Positions)
    requires AllFit(ps) && 0 < amount.micro && ChargeAll(ps, levels, install, amount) == Ok(qs)
    requires ref in Refs(levels) && SpendCapped(levels, ref, cap)
    ensures At(qs, ref).Exposure() <= cap
  {
    ChargeAllSpendCapped(ps, levels, install, amount, ref, cap);
  }

  /** Out-of-bound reports are what breaks a cap: such a settle raises the exposure of every row it charges. */
  lemma OutOfBoundRaisesExposure(b: Book, i: nat, input: SettleInput, ref: LevelRef)
    requires Inv(b) && i < |b.rows| && !b.rows[i].state.Terminal() && ref in b.rows[i].charged
    requires input.reservation == b.rows[i].id && !InBound(b.rows[i], input)
    ensures StoredRows(b)
    ensures Settle(b, input).outcome.Ok? ==>
              At(Settle(b, input).book.positions, ref).Exposure() > At(b.positions, ref).Exposure()
  {
    InvStored(b);
    FoundIs(b.rows, i);
    if Settle(b, input).outcome.Ok? {
      var m := Transition(b.rows[i], input).value;
      ApplyAllMoves(b.positions, b.rows[i].charged, m.delta, ref);
      ExposureMoves(b.rows[i], input);
      CountMember(b.rows[i].charged, ref);
      ExposureAfter(At(b.positions, ref), Count(b.rows[i].charged, ref), m.delta);
    }
  }

  // ---- Rows over whole runs ----

  /** The state machine of one reservation. */
  predicate Follows(s: State, t: State) {
    s == t || s.Reserved? || (s.Unknown? && t.Terminal())
  }

  /** What a later table keeps of an earlier row: its identity and request forever, everything once terminal. */
  predicate Continues(r: Reservation, s: Reservation) {
    && s.id == r.id && s.operation == r.operation && s.request == r.request && s.charged == r.charged
    && s.amount == r.amount && s.currency == r.currency && s.install == r.install && s.limits == r.limits
    && Follows(r.state, s.state) && r.version <= s.version
    && (r.state.Terminal() ==> s == r)
  }

  ghost predicate Extends(a: seq<Reservation>, c: seq<Reservation>) {
    && |a| <= |c|
    && forall i | 0 <= i < |a| :: Continues(a[i], c[i])
  }

  lemma ReserveExtends(b: Book, input: ReserveInput, env: Env)
    requires Inv(b)
    ensures Extends(b.rows, Reserve(b, input, env).book.rows)
  {
  }

  lemma StepExtends(b: Book, call: Call)
    requires Inv(b)
    ensures Extends(b.rows, Step(b, call).rows)
  {
    match call
    case CallReserve(input, env) => ReserveExtends(b, input, env);
    case CallSettle(input) => SettleExtends(b, input);
    case CallBudgets(_) =>
  }

  lemma SettleExtends(b: Book, input: SettleInput)
    requires Inv(b)
    ensures StoredRows(b) && Extends(b.rows, Settle(b, input).book.rows)
  {
    InvStored(b);
    var found := FindId(b.rows, input.reservation);
    if input.usage.Schema() && found.Some? && !b.rows[found.value].state.Terminal() {
      SettleRowExtends(b, found.value, input);
    }
  }

  lemma SettleRowExtends(b: Book, i: nat, input: SettleInput)
    requires StoredRows(b) && i < |b.rows| && !b.rows[i].state.Terminal() && input.usage.Schema()
    ensures SettleRow(b, i, input).Ok? ==> Extends(b.rows, SettleRow(b, i, input).value.rows)
  {
  }

  /** Rows are never deleted, keep their request and only move along the state machine. */
  lemma {:induction false} RunExtends(b: Book, calls: seq<Call>)
    requires Inv(b)
    ensures Extends(b.rows, Run(b, calls).rows)
  {
    if |calls| > 0 {
      var init := calls[..|calls| - 1];
      RunExtends(b, init);
      StepExtends(Run(b, init), calls[|calls| - 1]);
    }
  }

  /**
   * Replay safety: once an operation is admitted, an identical request in any later state books nothing
   * and returns the reservation as it now stands; a changed request conflicts and books nothing.
   */
  lemma ReserveReplays(b: Book, i: nat, calls: seq<Call>, input: ReserveInput, env: Env)
    requires Inv(b) && i < |b.rows| && b.rows[i].operation == input.operation
    requires input.scope.install != "" && input.scope.install == env.install && 0 <= input.amount.micro
    ensures var later := Run(b, calls);
            && i < |later.rows|
            && Reserve(later, input, env) ==
                 Reply(if b.rows[i].request == input.Fingerprint() then Ok(later.rows[i]) else Err(Conflict), later)
  {
    RunExtends(b, calls);
    FoundIs(Run(b, calls).rows, i);
  }

  /** A terminal settle repeated with the same report is a no-op in every later state; another report conflicts. */
  lemma TerminalSettleReplays(b: Book, i: nat, calls: seq<Call>, input: SettleInput)
    requires Inv(b) && i < |b.rows| && b.rows[i].state.Terminal() && b.rows[i].id == input.reservation
    requires input.usage.Schema()
    ensures var later := Run(b, calls);
            && StoredRows(later)
            && Settle(later, input)
               == Reply(if b.rows[i].report == Some(input.usage) then Ok(b.rows[i]) else Err(Conflict), later)
  {
    RunExtends(b, calls);
    InvStored(Run(b, calls));
    FoundIs(Run(b, calls).rows, i);
  }
}
