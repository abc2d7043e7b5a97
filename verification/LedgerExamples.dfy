/** Literal runs in which an assumption of a ledger theorem fails and its conclusion with it. */
module LedgerExamples {
  import opened Wrappers
  import opened Results
  import opened Int64
  import opened AccountingModel
  import opened Limits
  import opened PositionRows
  import opened Ledger
  import opened LedgerInvariant
  import opened LedgerRuns
  import opened LedgerEntries

  // ---- One installation, bare scopes ----

  const HOME: ID := "home"

  const INSTALLATION := LevelRef(KInstallation, HOME)

  /** One hundred units and ten slots. */
  function Terms(currency: string): WireLimits {
    WireLimits(currency, 100, 10, 10, 10, 10, 10, 1000)
  }

  function TermCaps(currency: string): Caps {
    Caps(if currency == UNCONFIGURED then "" else currency,
         Some(100), Some(10), Some(10), Some(10), Some(10), Some(10), Some(1000))
  }

  function Budgeted(currency: string): Budgets {
    map[HOME := Budget(1, HOME, Terms(currency), true)]
  }

  function Ask(currency: string, operation: ID, micro: int64): ReserveInput {
    ReserveInput(Scope(HOME, "", "", "", ""), None, operation, Money(currency, micro), Terms(currency))
  }

  function Outside(id: ID): Env {
    Env(HOME, 0, id, Err(InternalError))
  }

  function Root(operation: ID): LevelRef {
    LevelRef(KRootTask, operation)
  }

  function Chained(currency: string, operation: ID): seq<Level> {
    [Level(INSTALLATION, TermCaps(currency)), Level(Root(operation), TermCaps(currency))]
  }

  lemma TwoLevels(a: Level, b: Level)
    ensures Narrow([a, b]) == var c :- MergeCaps(NO_CAPS, a.caps); MergeCaps(c, b.caps)
    ensures Refs([a, b]) == [a.ref, b.ref]
  {
    assert [a, b][..1] == [a] && [a][..0] == [];
    assert Narrow([a]) == MergeCaps(NO_CAPS, a.caps);
    assert [a, b][1..] == [b] && [b][1..] == [];
    assert Refs([b]) == [b.ref];
  }

  // ---- A reservation that is admitted ----

  /** A priced request names a configured currency. */
  predicate Asks(currency: string, micro: int64) {
    currency != "" && 0 <= micro && (micro > 0 ==> currency != UNCONFIGURED)
  }

  lemma BareLevels(currency: string)
    requires currency != ""
    ensures LevelsForScope(Budgeted(currency), Scope(HOME, "", "", "", ""), Err(InternalError))
            == Ok([Level(INSTALLATION, TermCaps(currency))])
  {
    var scope, a := Scope(HOME, "", "", "", ""), Level(INSTALLATION, TermCaps(currency));
    assert InstallationLevel(Budgeted(currency), HOME) == Ok(a);
    assert OrganizationLevels(Budgeted(currency), HOME, []) == Ok([]);
    assert [a] + [] + [] + [] == [a];
  }

  lemma Assessed(currency: string, operation: ID, micro: int64, id: ID)
    requires Asks(currency, micro)
    ensures Assess(Budgeted(currency), Ask(currency, operation, micro), Outside(id))
            == Ok((Chained(currency, operation), Terms(currency)))
  {
    var input, levels := Ask(currency, operation, micro), Chained(currency, operation);
    BareLevels(currency);
    assert RootLevel(operation, input.limits, 0) == Ok(levels[1]);
    assert [levels[0]] + [levels[1]] == levels;
    TwoLevels(levels[0], levels[1]);
    assert Narrow(levels) == Ok(TermCaps(currency));
  }

  /** A row after one admission of the given amount. */
  function Booked1(p: Position, micro: int64): Position {
    p.(counters := p.counters.Plus(Admission(micro)), version := p.version + 1)
  }

  function RootRow(currency: string, micro: int64): Position {
    Booked1(Position(HOME, currency, ZERO, 1), micro)
  }

  /** The installation's row can take the amount. */
  predicate HasRoom(p: Position, currency: string, micro: int64) {
    && (p.currency == UNCONFIGURED || p.currency == currency)
    && p.counters.Fits() && p.counters.Exposure() + micro <= 100 && p.counters.concurrency < 10
  }

  lemma AdmitsAt(p: Position, ref: LevelRef, currency: string, micro: int64)
    requires Asks(currency, micro) && HasRoom(p, currency, micro)
    ensures AdmitAt(p, Level(ref, TermCaps(currency)), Money(currency, micro)) == Ok(Booked1(p, micro))
    ensures Booked1(p, micro).counters.Fits()
  {
  }

  lemma ChargesBoth(ps: Positions, currency: string, operation: ID, micro: int64)
    requires AllFit(ps) && Asks(currency, micro) && micro <= 100 && Root(operation) !in ps
    requires HasRoom(PinnedRow(ps, INSTALLATION, HOME, currency), currency, micro)
    ensures ChargeAll(ps, Chained(currency, operation), HOME, Money(currency, micro))
            == Ok(ps[INSTALLATION := Booked1(PinnedRow(ps, INSTALLATION, HOME, currency), micro)]
                    [Root(operation) := RootRow(currency, micro)])
  {
    var levels, amount := Chained(currency, operation), Money(currency, micro);
    var p := PinnedRow(ps, INSTALLATION, HOME, currency);
    AdmitsAt(p, INSTALLATION, currency, micro);
    var mid := ps[INSTALLATION := Booked1(p, micro)];
    assert ChargeLevel(ps, levels[0], HOME, amount) == Ok(mid);
    var q := PinnedRow(mid, Root(operation), HOME, currency);
    assert q == Position(HOME, currency, ZERO, 1);
    AdmitsAt(q, Root(operation), currency, micro);
    var end := mid[Root(operation) := RootRow(currency, micro)];
    assert ChargeLevel(mid, levels[1], HOME, amount) == Ok(end);
    ChargeTwo(ps, levels[0], levels[1], amount, mid, end);
  }

  lemma ChargeTwo(ps: Positions, a: Level, b: Level, amount: Money, mid: Positions, end: Positions)
    requires AllFit(ps) && AllFit(mid) && 0 <= amount.micro
    requires ChargeLevel(ps, a, HOME, amount) == Ok(mid) && ChargeLevel(mid, b, HOME, amount) == Ok(end)
    ensures ChargeAll(ps, [a, b], HOME, amount) == Ok(end)
  {
    assert [a, b][1..] == [b] && [b][1..] == [];
    ChargeLevelFits(mid, b, HOME, amount);
    assert ChargeAll(end, [], HOME, amount) == Ok(end);
    assert ChargeAll(mid, [b], HOME, amount) == Ok(end);
  }

  function Posted(currency: string, operation: ID, micro: int64, id: ID): Reservation {
    NewRow(Ask(currency, operation, micro), Outside(id), Chained(currency, operation), Terms(currency))
  }

  lemma PostedIs(currency: string, operation: ID, micro: int64, id: ID)
    ensures var r := Posted(currency, operation, micro, id);
            r.id == id && r.operation == operation && r.install == HOME && r.currency == currency && r.amount == micro
  {
  }

  lemma PostedCharges(currency: string, operation: ID, micro: int64, id: ID)
    ensures Posted(currency, operation, micro, id).charged == [INSTALLATION, Root(operation)]
  {
    TwoLevels(Chained(currency, operation)[0], Chained(currency, operation)[1]);
  }

  function Opened(currency: string, micro: int64, id: ID): Entry {
    Entry(id, HOME, EReserved, currency, micro, false)
  }

  /** What an admitted request leaves. */
  function Reserves(b: Book, currency: string, operation: ID, micro: int64, id: ID): Book {
    b.(positions := b.positions[INSTALLATION := Booked1(PinnedRow(b.positions, INSTALLATION, HOME, currency), micro)]
                               [Root(operation) := RootRow(currency, micro)],
       rows := b.rows + [Posted(currency, operation, micro, id)], entries := b.entries + [Opened(currency, micro, id)])
  }

  lemma ReserveAdmits(b: Book, currency: string, operation: ID, micro: int64, id: ID)
    requires AllFit(b.positions) && b.budgets == Budgeted(currency)
    requires FindOperation(b.rows, operation) == None && FindId(b.rows, id) == None
    requires Asks(currency, micro) && micro <= 100 && Root(operation) !in b.positions
    requires HasRoom(PinnedRow(b.positions, INSTALLATION, HOME, currency), currency, micro)
    ensures Reserve(b, Ask(currency, operation, micro), Outside(id)).book == Reserves(b, currency, operation, micro, id)
  {
    Assessed(currency, operation, micro, id);
    ChargesBoth(b.positions, currency, operation, micro);
    assert Admit(b, Ask(currency, operation, micro), Outside(id)) == Ok(Reserves(b, currency, operation, micro, id));
  }

  // ---- A settlement ----

  function Spent(currency: string, spent: int64): Usage {
    Usage(currency, spent, 0, 0, 0, false)
  }

  function Moves(micro: int, spent: int): Counters {
    Counters(spent, -micro, 0, 0, -1)
  }

  function Closed(p: Position, micro: int, spent: int): Position {
    p.(counters := p.counters.Plus(Moves(micro, spent)), version := p.version + 1)
  }

  lemma ApplyTwo(ps: Positions, a: LevelRef, b: LevelRef, micro: int64, spent: int64)
    requires AllFit(ps) && a != b && a in ps && b in ps
    requires Closed(ps[a], micro, spent).counters.Fits() && Closed(ps[b], micro, spent).counters.Fits()
    ensures ApplyAll(ps, [a, b], Moves(micro, spent))
            == Ok(ps[a := Closed(ps[a], micro, spent)][b := Closed(ps[b], micro, spent)])
  {
    var d, mid := Moves(micro, spent), ps[a := Closed(ps[a], micro, spent)];
    var end := mid[b := Closed(ps[b], micro, spent)];
    assert [a, b][1..] == [b] && [b][1..] == [];
    assert ApplyAll(end, [], d) == Ok(end);
    assert ApplyAll(mid, [b], d) == Ok(end);
  }

  function Items(micro: int64, spent: int64): seq<Item>
    requires 0 <= spent && 0 <= micro
  {
    [Item(ESpent, spent, false), Item(EEstimated, 0, true),
     Item(EReleased, if spent < micro then micro - spent else 0, false)]
  }

  /** What reporting the only reservation as spent leaves. */
  function Settles(b: Book, operation: ID, micro: int64, spent: int64): Book
    requires |b.rows| == 1 && INSTALLATION in b.positions && Root(operation) in b.positions && 0 <= spent && 0 <= micro
  {
    var r, ps := b.rows[0], b.positions;
    b.(positions := ps[INSTALLATION := Closed(ps[INSTALLATION], micro, spent)]
                      [Root(operation) := Closed(ps[Root(operation)], micro, spent)],
       rows := [Moved(r, Settled, Spent(r.currency, spent))], entries := b.entries + EntriesOf(r, Items(micro, spent)))
  }

  lemma SettleCloses(b: Book, currency: string, operation: ID, micro: int64, id: ID, spent: int64)
    requires StoredRows(b) && 0 <= spent && 0 <= micro && b.rows == [Posted(currency, operation, micro, id)]
    requires INSTALLATION in b.positions && Root(operation) in b.positions
    requires Closed(b.positions[INSTALLATION], micro, spent).counters.Fits()
    requires Closed(b.positions[Root(operation)], micro, spent).counters.Fits()
    ensures Settle(b, SettleInput(id, 1, Spent(currency, spent), false)).book == Settles(b, operation, micro, spent)
  {
    var r, input := b.rows[0], SettleInput(id, 1, Spent(currency, spent), false);
    PostedCharges(currency, operation, micro, id);
    ApplyTwo(b.positions, INSTALLATION, Root(operation), micro, spent);
    assert FindId(b.rows, id) == Some(0);
    assert SettleToSettled(r, input.usage) == Ok(Movement(Settled, Moves(micro, spent), Items(micro, spent)));
    assert b.rows[0 := Moved(r, Settled, input.usage)] == [Moved(r, Settled, input.usage)];
    assert Execute(b, 0, input.usage, Movement(Settled, Moves(micro, spent), Items(micro, spent)))
           == Ok(Settles(b, operation, micro, spent));
  }

  // ---- Runs ----

  lemma RunOne(b: Book, call: Call)
    requires Inv(b)
    ensures Run(b, [call]) == Step(b, call)
  {
    assert [call][..0] == [];
  }

  lemma {:induction false} RunConcat(b: Book, xs: seq<Call>, ys: seq<Call>)
    requires Inv(b)
    ensures Run(b, xs + ys) == Run(Run(b, xs), ys)
  {
    if ys == [] {
      assert xs + ys == xs;
    } else {
      RunConcat(b, xs, ys[..|ys| - 1]);
      assert (xs + ys)[..|xs + ys| - 1] == xs + ys[..|ys| - 1];
    }
  }

  function FirstCall(currency: string, micro: int64): Call {
    CallReserve(Ask(currency, "first", micro), Outside("1"))
  }

  function Report(currency: string, spent: int64): Call {
    CallSettle(SettleInput("1", 1, Spent(currency, spent), false))
  }

  function Empty(currency: string): Book {
    Book(Budgeted(currency), map[], [], [])
  }

  function Held(currency: string, micro: int64): Book {
    Reserves(Empty(currency), currency, "first", micro, "1")
  }

  lemma FirstHeld(currency: string, micro: int64)
    requires Asks(currency, micro) && micro <= 100
    ensures Inv(Empty(currency)) && Step(Empty(currency), FirstCall(currency, micro)) == Held(currency, micro)
  {
    var b := Empty(currency);
    assert PinnedRow(b.positions, INSTALLATION, HOME, currency) == Position(HOME, currency, ZERO, 1);
    ReserveAdmits(b, currency, "first", micro, "1");
  }

  lemma FirstClosed(currency: string, micro: int64, spent: int64)
    requires Asks(currency, micro) && micro <= 100 && 0 <= spent
    ensures Inv(Empty(currency)) && Inv(Held(currency, micro))
    ensures Step(Held(currency, micro), Report(currency, spent))
            == Settles(Held(currency, micro), "first", micro, spent)
  {
    FirstHeld(currency, micro);
    HeldCloses(Held(currency, micro), currency, micro, spent);
  }

  lemma HeldCloses(b: Book, currency: string, micro: int64, spent: int64)
    requires Inv(b) && b == Held(currency, micro) && 0 <= micro && 0 <= spent
    ensures Step(b, Report(currency, spent)) == Settles(b, "first", micro, spent)
  {
    InvStored(b);
    HeldFits(currency, micro, spent);
    SettleCloses(b, currency, "first", micro, "1", spent);
  }

  lemma HeldFits(currency: string, micro: int64, spent: int64)
    requires 0 <= micro && 0 <= spent
    ensures var b := Held(currency, micro);
            && INSTALLATION in b.positions && Closed(b.positions[INSTALLATION], micro, spent).counters.Fits()
            && Root("first") in b.positions && Closed(b.positions[Root("first")], micro, spent).counters.Fits()
            && b.rows == [Posted(currency, "first", micro, "1")]
  {
  }

  /** Reserve an amount, then report what was spent. */
  function ReserveAndReport(currency: string, micro: int64, spent: int64): seq<Call> {
    [FirstCall(currency, micro)] + [Report(currency, spent)]
  }

  lemma ReserveAndReportRun(currency: string, micro: int64, spent: int64)
    requires Asks(currency, micro) && micro <= 100 && 0 <= spent
    ensures Inv(Empty(currency))
    ensures Run(Empty(currency), ReserveAndReport(currency, micro, spent))
            == Settles(Held(currency, micro), "first", micro, spent)
  {
    FirstClosed(currency, micro, spent);
    FirstHeld(currency, micro);
    RunOne(Empty(currency), FirstCall(currency, micro));
    RunOne(Held(currency, micro), Report(currency, spent));
    RunConcat(Empty(currency), [FirstCall(currency, micro)], [Report(currency, spent)]);
  }

  /** Whatever is reported above one hundred units, the run ends above the cap the installation declares. */
  lemma OverspendExceedsCap(micro: int64, spent: int64)
    requires 0 <= micro <= 100 < spent
    ensures Inv(Empty("USD")) && Run(Empty("USD"), ReserveAndReport("USD", micro, spent)).budgets == Budgeted("USD")
    ensures At(Run(Empty("USD"), ReserveAndReport("USD", micro, spent)).positions, INSTALLATION).Exposure()
            == spent > Terms("USD").spend
  {
    ReserveAndReportRun("USD", micro, spent);
    HeldRow("USD", micro);
  }

  lemma HeldRow(currency: string, micro: int64)
    ensures INSTALLATION in Held(currency, micro).positions
            && Held(currency, micro).positions[INSTALLATION] == RootRow(currency, micro)
  {
  }

  lemma SumOfOne(e: Entry, kind: EntryKind)
    ensures SumOf([e], e.reservation, kind) == if e.kind == kind then e.amount else 0
  {
    assert [e][..0] == [];
  }

  lemma {:induction false} Totalled(r: Reservation, e: Entry, spent: int64)
    requires 0 <= r.amount < spent && e == Opened(r.currency, r.amount, r.id)
    ensures TotalsOf([e] + EntriesOf(r, Items(r.amount, spent)), r.id) == Totals(r.amount, spent, 0, 0, 0)
  {
    var m := Movement(Settled, ZERO, Items(r.amount, spent));
    EntriesAdd(Book(map[], map[], [], [e]), r, m, r.id);
    AddedItems(m);
    SumOfOne(e, EReserved);
    SumOfOne(e, ESpent);
    SumOfOne(e, EEstimated);
    SumOfOne(e, EUnknown);
    SumOfOne(e, EReleased);
  }

  /** And whatever is reported above the reserved amount, nothing is released and the entries do not add up. */
  lemma OverspendBreaksConservation(micro: int64, spent: int64)
    requires 0 <= micro <= 100 && micro < spent
    ensures Inv(Empty("USD"))
    ensures var t := TotalsOf(Run(Empty("USD"), ReserveAndReport("USD", micro, spent)).entries, "1");
            t == Totals(micro, spent, 0, 0, 0) && t.reserved != t.spent + t.released
  {
    ReserveAndReportRun("USD", micro, spent);
    var r := Posted("USD", "first", micro, "1");
    Totalled(r, Opened("USD", micro, "1"), spent);
    assert Held("USD", micro).entries == [Opened("USD", micro, "1")];
  }

  // ---- Two currencies ----

  /**
   * Work reserved without a currency reports a cost in it; the budget then selects one currency and later another, and
   * each admits a priced reservation.
   */
  function MixedCalls(none: string, free: int64, cost: int64, price: int64, c: string, d: string): seq<Call> {
    ReserveAndReport(none, free, cost) + (Later(c, "second", price, "2") + Later(d, "third", price, "3"))
  }

  function Later(currency: string, operation: ID, price: int64, id: ID): seq<Call> {
    [CallBudgets(Budgeted(currency))] + [CallReserve(Ask(currency, operation, price), Outside(id))]
  }

  /** The installation's row is unconfigured, holds a cost, and carries the given exposure and slots. */
  ghost predicate Costed(b: Book, exposure: int, slots: int) {
    && Inv(b) && INSTALLATION in b.positions
    && var p := b.positions[INSTALLATION];
       && p.currency == UNCONFIGURED && p.counters.spent > 0
       && p.counters.Exposure() == exposure && p.counters.concurrency == slots
  }

  function Next(b: Book, currency: string, operation: ID, price: int64, id: ID): Book {
    Reserves(b.(budgets := Budgeted(currency)), currency, operation, price, id)
  }

  /** Such a row is not pinned to the currency the budget names, and admits it. */
  lemma CostedAdmits(b: Book, exposure: int, slots: int, currency: string, operation: ID, price: int64, id: ID)
    requires Costed(b, exposure, slots) && 0 < price && exposure + price <= 100 && slots < 10
    requires currency != "" && currency != UNCONFIGURED && Root(operation) !in b.positions
    requires FindOperation(b.rows, operation) == None && FindId(b.rows, id) == None
    ensures Step(b.(budgets := Budgeted(currency)), CallReserve(Ask(currency, operation, price), Outside(id)))
            == Next(b, currency, operation, price, id)
    ensures Costed(Next(b, currency, operation, price, id), exposure + price, slots + 1)
  {
    var budgeted := b.(budgets := Budgeted(currency));
    InvStored(b);
    assert PinnedRow(b.positions, INSTALLATION, HOME, currency) == b.positions[INSTALLATION];
    assert AllFit(budgeted.positions);
    ReserveAdmits(budgeted, currency, operation, price, id);
  }

  lemma LaterRun(b: Book, exposure: int, slots: int, currency: string, operation: ID, price: int64, id: ID)
    requires Costed(b, exposure, slots) && 0 < price && exposure + price <= 100 && slots < 10
    requires currency != "" && currency != UNCONFIGURED && Root(operation) !in b.positions
    requires FindOperation(b.rows, operation) == None && FindId(b.rows, id) == None
    ensures Run(b, Later(currency, operation, price, id)) == Next(b, currency, operation, price, id)
    ensures Costed(Next(b, currency, operation, price, id), exposure + price, slots + 1)
  {
    var budget, reserve := CallBudgets(Budgeted(currency)), CallReserve(Ask(currency, operation, price), Outside(id));
    CostedAdmits(b, exposure, slots, currency, operation, price, id);
    RunOne(b, budget);
    RunOne(Step(b, budget), reserve);
    RunConcat(b, [budget], [reserve]);
  }

  lemma SettledRow(currency: string, micro: int64, spent: int64)
    requires Asks(currency, micro) && micro <= 100 && 0 <= spent
    ensures var b := Settles(Held(currency, micro), "first", micro, spent);
            && INSTALLATION in b.positions && b.positions[INSTALLATION].currency == currency
            && b.positions[INSTALLATION].counters == Counters(spent, 0, 0, 0, 0)
            && (forall ref | ref in b.positions :: ref == INSTALLATION || ref == Root("first"))
            && b.rows == [Moved(Posted(currency, "first", micro, "1"), Settled, Spent(currency, spent))]
  {
    HeldRow(currency, micro);
  }

  lemma CostedFirst(currency: string, micro: int64, cost: int64, b: Book)
    requires currency == UNCONFIGURED && Asks(currency, micro) && micro <= 100 && 0 < cost
    requires b == Settles(Held(currency, micro), "first", micro, cost) && Inv(b)
    ensures Costed(b, cost, 0)
  {
    SettledRow(currency, micro, cost);
  }

  lemma NotFound(rows: seq<Reservation>, operation: ID, id: ID)
    requires forall i | 0 <= i < |rows| :: rows[i].operation != operation && rows[i].id != id
    ensures FindOperation(rows, operation) == None && FindId(rows, id) == None
  {
  }

  /** Neither the operation, nor its root row, nor the id is in the book. */
  ghost predicate Unseen(b: Book, operation: ID, id: ID) {
    && Root(operation) !in b.positions
    && forall i | 0 <= i < |b.rows| :: b.rows[i].operation != operation && b.rows[i].id != id
  }

  lemma StillUnseen(b: Book, currency: string, operation: ID, price: int64, id: ID, other: ID, otherId: ID)
    requires Unseen(b, other, otherId) && other != operation && otherId != id
    ensures Unseen(Next(b, currency, operation, price, id), other, otherId)
  {
    var r := Posted(currency, operation, price, id);
    PostedIs(currency, operation, price, id);
    RowAdded(b, Next(b, currency, operation, price, id), r, Root(operation), other, otherId);
  }

  lemma RowAdded(b: Book, c: Book, r: Reservation, root: LevelRef, other: ID, otherId: ID)
    requires Unseen(b, other, otherId) && c.rows == b.rows + [r] && r.operation != other && r.id != otherId
    requires c.positions.Keys == b.positions.Keys + {INSTALLATION, root} && root != Root(other)
    ensures Unseen(c, other, otherId)
  {
  }

  lemma TwoLater(b: Book, exposure: int, price: int64, c: string, d: string, o: ID, p: ID, x: ID, y: ID)
    requires Costed(b, exposure, 0) && 0 < price && exposure + price + price <= 100 && Unseen(b, o, x)
             && Unseen(b, p, y) && o != p && x != y
    requires c != "" && c != UNCONFIGURED && d != "" && d != UNCONFIGURED
    ensures Run(b, Later(c, o, price, x) + Later(d, p, price, y)).rows
            == b.rows + [Posted(c, o, price, x)] + [Posted(d, p, price, y)]
  {
    NotFound(b.rows, o, x);
    LaterRun(b, exposure, 0, c, o, price, x);
    var mid := Next(b, c, o, price, x);
    StillUnseen(b, c, o, price, x, p, y);
    NotFound(mid.rows, p, y);
    LaterRun(mid, exposure + price, 1, d, p, price, y);
    RunConcat(b, Later(c, o, price, x), Later(d, p, price, y));
  }

  /** For any two configured currencies, the run ends with a priced reservation of the installation in each. */
  lemma CurrenciesMix(none: string, free: int64, cost: int64, price: int64, c: string, d: string)
    requires none == UNCONFIGURED && Asks(none, free) && 0 < cost && 0 < price && cost + price + price <= 100
    requires c != "" && c != UNCONFIGURED && d != "" && d != UNCONFIGURED
    ensures Inv(Empty(none))
    ensures var rows := Run(Empty(none), MixedCalls(none, free, cost, price, c, d)).rows;
            && |rows| == 3 && rows[1].install == rows[2].install == HOME
            && rows[1].amount == rows[2].amount == price && rows[1].currency == c && rows[2].currency == d
  {
    FirstCosted(none, free, cost);
    MixAfter(Empty(none), ReserveAndReport(none, free, cost), cost, price, c, d);
  }

  lemma FirstCosted(none: string, free: int64, cost: int64)
    requires none == UNCONFIGURED && Asks(none, free) && free <= 100 && 0 < cost
    ensures Inv(Empty(none))
    ensures var b := Run(Empty(none), ReserveAndReport(none, free, cost));
            Costed(b, cost, 0) && |b.rows| == 1 && Unseen(b, "second", "2") && Unseen(b, "third", "3")
  {
    ReserveAndReportRun(none, free, cost);
    CostedUnseen(none, free, cost, Run(Empty(none), ReserveAndReport(none, free, cost)));
  }

  lemma CostedUnseen(currency: string, micro: int64, cost: int64, b: Book)
    requires currency == UNCONFIGURED && Asks(currency, micro) && micro <= 100 && 0 < cost
    requires b == Settles(Held(currency, micro), "first", micro, cost) && Inv(b)
    ensures Costed(b, cost, 0) && |b.rows| == 1 && Unseen(b, "second", "2") && Unseen(b, "third", "3")
  {
    FirstUnseen(currency, micro, cost, b);
    CostedFirst(currency, micro, cost, b);
  }

  lemma MixAfter(start: Book, first: seq<Call>, cost: int64, price: int64, c: string, d: string)
    requires Inv(start) && Costed(Run(start, first), cost, 0) && |Run(start, first).rows| == 1
    requires Unseen(Run(start, first), "second", "2") && Unseen(Run(start, first), "third", "3")
    requires 0 < price && cost + price + price <= 100
    requires c != "" && c != UNCONFIGURED && d != "" && d != UNCONFIGURED
    ensures var rows := Run(start, first + (Later(c, "second", price, "2") + Later(d, "third", price, "3"))).rows;
            && |rows| == 3 && rows[1].install == rows[2].install == HOME
            && rows[1].amount == rows[2].amount == price && rows[1].currency == c && rows[2].currency == d
  {
    TwoLater(Run(start, first), cost, price, c, d, "second", "third", "2", "3");
    PostedIs(c, "second", price, "2");
    PostedIs(d, "third", price, "3");
    RunConcat(start, first, Later(c, "second", price, "2") + Later(d, "third", price, "3"));
  }

  lemma FirstUnseen(currency: string, micro: int64, spent: int64, b: Book)
    requires Asks(currency, micro) && micro <= 100 && 0 <= spent
             && b == Settles(Held(currency, micro), "first", micro, spent)
    ensures |b.rows| == 1 && Unseen(b, "second", "2") && Unseen(b, "third", "3")
  {
    SettledRow(currency, micro, spent);
    PostedIs(currency, "first", micro, "1");
  }
}
