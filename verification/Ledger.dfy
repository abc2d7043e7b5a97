/** What one reserve call and one settle call do to the accounting tables, as transactions on values. */
module Ledger {
  import opened Wrappers
  import opened Results
  import opened Int64
  import opened AccountingModel
  import opened Limits
  import opened PositionRows

  /** The four accounting tables. Reservation rows and entries are in insertion order. */
  datatype Book = Book(budgets: Budgets, positions: Positions, rows: seq<Reservation>, entries: seq<Entry>)

  /** What a call takes from outside: the transaction's installation, the clock, a minted id and the snapshot peer. */
  datatype Env = Env(install: ID, now: int, newId: ID, peer: Result<Snapshot>)

  /** A transaction's outcome together with the tables it leaves; an error leaves them as they were. */
  datatype Reply = Reply(outcome: Result<Reservation>, book: Book)

  function FindId(rows: seq<Reservation>, id: ID): (r: Option<nat>)
    ensures r.Some? ==> r.value < |rows| && rows[r.value].id == id
    ensures r.None? ==> forall i | 0 <= i < |rows| :: rows[i].id != id
  {
    if |rows| == 0 then None
    else if rows[|rows| - 1].id == id then Some(|rows| - 1)
    else FindId(rows[..|rows| - 1], id)
  }

  function FindOperation(rows: seq<Reservation>, operation: ID): (r: Option<nat>)
    ensures r.Some? ==> r.value < |rows| && rows[r.value].operation == operation
    ensures r.None? ==> forall i | 0 <= i < |rows| :: rows[i].operation != operation
  {
    if |rows| == 0 then None
    else if rows[|rows| - 1].operation == operation then Some(|rows| - 1)
    else FindOperation(rows[..|rows| - 1], operation)
  }

  // ---- Reserve ----

  function RequirePaidInstallation(budgets: Budgets, install: ID): Result<()> {
    var b := LoadBudget(budgets, install, install);
    if b.None? then Err(BudgetUnavailable)
    else if b.value.limits.currency == UNCONFIGURED || b.value.limits.spend <= 0 then Err(BudgetUnavailable)
    else Ok(())
  }

  /** Paid work needs a configured currency and a paid installation budget. */
  function PaidGate(budgets: Budgets, input: ReserveInput): Result<()> {
    if input.amount.micro > 0 then
      if input.amount.currency == UNCONFIGURED then Err(BudgetUnavailable)
      else RequirePaidInstallation(budgets, input.scope.install)
    else Ok(())
  }

  /** The chain a request charges: the scope's levels and then the root dimension. */
  function Chain(budgets: Budgets, input: ReserveInput, env: Env): Result<seq<Level>> {
    var scoped :- LevelsForScope(budgets, input.scope, env.peer);
    var root :-
      RootLevel(if input.rootTask.Some? then input.rootTask.value else input.operation, input.limits, env.now);
    Ok(scoped + [root])
  }

  /** The reference of the last level of a kind, empty when the chain has none. */
  function LastOfKind(levels: seq<Level>, kind: PositionKind): ID {
    if |levels| == 0 then ""
    else if levels[|levels| - 1].ref.kind == kind then levels[|levels| - 1].ref.ref
    else LastOfKind(levels[..|levels| - 1], kind)
  }

  function NewRow(input: ReserveInput, env: Env, levels: seq<Level>, effective: WireLimits): Reservation {
    Reservation(
      env.newId, 1, input.scope.install, LastOfKind(levels, KOrganization), LastOfKind(levels, KProject),
      LastOfKind(levels, KWorker), if input.rootTask.Some? then input.rootTask.value else "",
      input.operation, input.amount.currency, input.amount.micro, effective, input.Fingerprint(),
      Refs(levels), Reserved, None)
  }

  /** The checks and the chain of an unseen operation, before anything is charged. */
  function Assess(budgets: Budgets, input: ReserveInput, env: Env): Result<(seq<Level>, WireLimits)> {
    var _ :- PaidGate(budgets, input);
    var levels :- Chain(budgets, input, env);
    var caps :- Narrow(levels);
    var effective := WireOf(caps, env.now + DEFAULT_ROOT_DEADLINE);
    if effective.currency != UNCONFIGURED && input.amount.micro > 0 && input.amount.currency != effective.currency
    then Err(InvalidInput)
    else Ok((levels, effective))
  }

  /** Charges an assessed request and inserts its row and its ledger entry. */
  function Post(b: Book, input: ReserveInput, env: Env, levels: seq<Level>, effective: WireLimits): Result<Book>
    requires AllFit(b.positions) && 0 <= input.amount.micro
  {
    var positions :- ChargeAll(b.positions, levels, input.scope.install, input.amount);
    if FindId(b.rows, env.newId).Some? then Err(InternalError) else
    var row := NewRow(input, env, levels, effective);
    Ok(b.(positions := positions, rows := b.rows + [row],
          entries := b.entries + [Entry(row.id, row.install, EReserved, row.currency, row.amount, false)]))
  }

  function Admit(b: Book, input: ReserveInput, env: Env): Result<Book>
    requires AllFit(b.positions) && 0 <= input.amount.micro
  {
    var assessed :- Assess(b.budgets, input, env);
    Post(b, input, env, assessed.0, assessed.1)
  }

  function Reserve(b: Book, input: ReserveInput, env: Env): Reply
    requires AllFit(b.positions)
  {
    if input.scope.install == "" then Reply(Err(InvalidInput), b)
    else if input.scope.install != env.install then Reply(Err(PermissionDenied), b)
    else if input.amount.micro < 0 then Reply(Err(InvalidInput), b)
    else
      var prior := FindOperation(b.rows, input.operation);
      if prior.Some? then
        var row := b.rows[prior.value];
        Reply(if row.request != input.Fingerprint() then Err(Conflict) else Ok(row), b)
      else
        var next := Admit(b, input, env);
        if next.Err? then Reply(Err(next.fault), b)
        else Reply(Ok(next.value.rows[|b.rows|]), next.value)
  }

  // ---- Settle ----

  /** A transition of one reservation: its next state, the deltas at every charged row, and the entries to append. */
  datatype Movement = Movement(next: State, delta: Counters, items: seq<Item>)

  datatype Item = Item(kind: EntryKind, amount: int64, advisory: bool)

  function Max0(x: int64): int64 {
    if x > 0 then x else 0
  }

  /** Where observed cost lands: advisory reports are estimates in full. */
  function Observed(u: Usage): Result<(int64, int64)>
    requires u.Schema()
  {
    if u.advisory then
      if u.spent + u.estimated > MAX then Err(InvalidInput) else Ok((0, u.spent + u.estimated))
    else Ok((u.spent, u.estimated))
  }

  function SettleToSettled(r: Reservation, u: Usage): Result<Movement>
    requires 0 <= r.amount && u.Schema()
  {
    var cost :- Observed(u);
    Ok(Movement(
      Settled, Counters(cost.0, -r.amount, 0, cost.1, -1),
      [Item(ESpent, cost.0, false), Item(EEstimated, cost.1, true),
       Item(EReleased, if !u.advisory && u.spent < r.amount then r.amount - u.spent else 0, false)]))
  }

  function ReleaseFromReserved(r: Reservation): Movement
    requires 0 <= r.amount
  {
    Movement(Released, Counters(0, -r.amount, 0, 0, -1), [Item(EReleased, r.amount, false)])
  }

  function SettleUnknown(r: Reservation, u: Usage): Movement
    requires 0 <= r.amount && u.Schema()
  {
    Movement(
      Unknown, Counters(0, -r.amount, u.unknown, 0, 0),
      [Item(EUnknown, u.unknown, false), Item(EReleased, Max0(r.amount - u.unknown), false)])
  }

  function ResolveSettled(prior: Usage, u: Usage): Result<Movement>
    requires prior.Schema() && u.Schema()
  {
    var cost :- Observed(u);
    Ok(Movement(
      Settled, Counters(cost.0, 0, -prior.unknown, cost.1, -1),
      [Item(ESpent, cost.0, false), Item(EEstimated, cost.1, true),
       Item(EReleased, Max0(prior.unknown - cost.0), false)]))
  }

  function ResolveReleased(prior: Usage): Movement
    requires prior.Schema()
  {
    Movement(Released, Counters(0, 0, -prior.unknown, 0, -1), [Item(EReleased, prior.unknown, false)])
  }

  /** The checks on a report for a live reservation. */
  function CheckReport(r: Reservation, input: SettleInput): Result<()> {
    if input.expectedVersion != r.version then Err(StaleVersion)
    else if input.usage.reserved != 0 then Err(InvalidInput)
    else if input.nonexecution && input.usage.Nonzero() then Err(InvalidInput)
    else if input.usage.Nonzero() && input.usage.currency != r.currency then Err(InvalidInput)
    else Ok(())
  }

  /** The transition a report asks for. */
  function Transition(r: Reservation, input: SettleInput): Result<Movement>
    requires !r.state.Terminal() && 0 <= r.amount && input.usage.Schema()
    requires r.report.Some? ==> r.report.value.Schema()
  {
    if r.state.Reserved? then
      if input.nonexecution then Ok(ReleaseFromReserved(r))
      else if input.usage.unknown > 0 then Ok(SettleUnknown(r, input.usage))
      else SettleToSettled(r, input.usage)
    else if r.report.None? then Err(InternalError)
    else if input.nonexecution then Ok(ResolveReleased(r.report.value))
    else ResolveSettled(r.report.value, input.usage)
  }

  function Moved(r: Reservation, next: State, u: Usage): Reservation {
    r.(version := r.version + 1, state := next, report := Some(u))
  }

  /** Ledger entries of a transition; non-positive amounts leave no entry. */
  function EntriesOf(r: Reservation, items: seq<Item>): seq<Entry> {
    if |items| == 0 then []
    else (if items[0].amount > 0
          then [Entry(r.id, r.install, items[0].kind, r.currency, items[0].amount, items[0].advisory)]
          else [])
         + EntriesOf(r, items[1..])
  }

  function Execute(b: Book, i: nat, u: Usage, m: Movement): Result<Book>
    requires i < |b.rows| && AllFit(b.positions)
  {
    var r := b.rows[i];
    if |r.charged| == 0 then Err(InternalError) else
    var positions :- ApplyAll(b.positions, r.charged, m.delta);
    Ok(b.(positions := positions, rows := b.rows[i := Moved(r, m.next, u)],
          entries := b.entries + EntriesOf(r, m.items)))
  }

  /** What the table constraints promise of a stored reservation row. */
  predicate Stored(r: Reservation) {
    && 0 <= r.amount
    && (r.report.Some? ==> r.report.value.Schema())
  }

  function SettleRow(b: Book, i: nat, input: SettleInput): Result<Book>
    requires i < |b.rows| && AllFit(b.positions) && input.usage.Schema()
    requires !b.rows[i].state.Terminal() && Stored(b.rows[i])
  {
    var _ :- CheckReport(b.rows[i], input);
    var m :- Transition(b.rows[i], input);
    Execute(b, i, input.usage, m)
  }

  ghost predicate StoredRows(b: Book) {
    && AllFit(b.positions)
    && forall i | 0 <= i < |b.rows| :: Stored(b.rows[i])
  }

  /** The settle transaction; a report outside its schema is refused before the handler. */
  function Settle(b: Book, input: SettleInput): Reply
    requires StoredRows(b)
  {
    if !input.usage.Schema() then Reply(Err(InvalidInput), b) else
    var found := FindId(b.rows, input.reservation);
    if found.None? then Reply(Err(NotFound), b) else
    var r := b.rows[found.value];
    if r.state.Terminal() then
      Reply(if r.report == Some(input.usage) then Ok(r) else Err(Conflict), b)
    else
      var next := SettleRow(b, found.value, input);
      if next.Err? then Reply(Err(next.fault), b)
      else Reply(Ok(next.value.rows[found.value]), next.value)
  }
}
