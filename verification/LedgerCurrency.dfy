/** Currency discipline: pinned rows keep their currency, and paid work of an installation shares one. */
module LedgerCurrency {
  import opened Wrappers
  import opened AccountingModel
  import opened Limits
  import opened PositionRows
  import opened Ledger
  import opened LedgerInvariant
  import opened LedgerRuns

  /** An unconfigured row holds no amounts. */
  ghost predicate UnconfiguredEmpty(ps: Positions) {
    forall ref | ref in ps && ps[ref].currency == UNCONFIGURED :: ps[ref].counters.ZeroAmounts()
  }

  /** A reservation in a real currency only ever sits on rows pinned to that currency. */
  ghost predicate RowsMatch(b: Book) {
    forall i, ref | 0 <= i < |b.rows| && ref in b.rows[i].charged ::
      ref in b.positions && (b.rows[i].currency != UNCONFIGURED ==> b.positions[ref].currency == b.rows[i].currency)
  }

  /** A reservation booked without a currency carries no amount. */
  ghost predicate UnconfiguredUnpaid(rows: seq<Reservation>) {
    forall i | 0 <= i < |rows| && rows[i].currency == UNCONFIGURED :: rows[i].amount == 0
  }

  ghost predicate CurrencyInv(b: Book) {
    Inv(b) && UnconfiguredEmpty(b.positions) && RowsMatch(b) && UnconfiguredUnpaid(b.rows)
  }

  /** Rows pinned to a real currency in ps are in qs with the same currency. */
  ghost predicate PinsKept(ps: Positions, qs: Positions) {
    forall ref | ref in ps && ps[ref].currency != UNCONFIGURED :: ref in qs && qs[ref].currency == ps[ref].currency
  }

  lemma ChargeLevelPins(ps: Positions, l: Level, install: ID, amount: Money)
    requires AllFit(ps) && 0 <= amount.micro && ChargeLevel(ps, l, install, amount).Ok?
    ensures PinsKept(ps, ChargeLevel(ps, l, install, amount).value)
  {
    AdmitAtMeaning(PinnedRow(ps, l.ref, install, amount.currency), l, amount);
  }

  lemma {:induction false} ChargeAllPins(ps: Positions, levels: seq<Level>, install: ID, amount: Money)
    requires AllFit(ps) && 0 <= amount.micro && ChargeAll(ps, levels, install, amount).Ok?
    ensures PinsKept(ps, ChargeAll(ps, levels, install, amount).value)
    decreases |levels|
  {
    if |levels| > 0 {
      ChargeLevelFits(ps, levels[0], install, amount);
      ChargeLevelPins(ps, levels[0], install, amount);
      ChargeAllPins(ChargeLevel(ps, levels[0], install, amount).value, levels[1..], install, amount);
    }
  }

  lemma StepPins(b: Book, call: Call)
    requires Inv(b)
    ensures PinsKept(b.positions, Step(b, call).positions)
  {
    match call
    case CallReserve(input, env) =>
      ReserveCharges(b, input, env);
      if Reserve(b, input, env).book != b {
        ChargeAllPins(b.positions, Chain(b.budgets, input, env).value, input.scope.install, input.amount);
      }
    case CallSettle(input) => SettlePins(b, input);
    case CallBudgets(_) =>
  }

  /** A settle changes no row's currency. */
  lemma SettlePins(b: Book, input: SettleInput)
    requires Inv(b)
    ensures StoredRows(b)
    ensures Settle(b, input).book.positions.Keys == b.positions.Keys
    ensures forall ref | ref in b.positions ::
            Settle(b, input).book.positions[ref].currency == b.positions[ref].currency
  {
    SettleCommits(b, input);
    if Committed(b, input).Some? {
      var (i, m) := Committed(b, input).value;
      ApplyAllLands(b.positions, b.rows[i].charged, m.delta);
    }
  }

  /** In every run a row pinned to a real currency never changes it. */
  lemma {:induction false} PinNeverChanges(b: Book, calls: seq<Call>)
    requires Inv(b)
    ensures PinsKept(b.positions, Run(b, calls).positions)
  {
    if |calls| > 0 {
      var init := calls[..|calls| - 1];
      PinNeverChanges(b, init);
      StepPins(Run(b, init), calls[|calls| - 1]);
    }
  }

  // ---- Charging under the discipline ----

  lemma PinnedCurrency(ps: Positions, ref: LevelRef, install: ID, currency: string)
    requires UnconfiguredEmpty(ps)
    ensures PinnedRow(ps, ref, install, currency).currency == UNCONFIGURED ==> currency == UNCONFIGURED
    ensures PinnedRow(ps, ref, install, currency).currency == UNCONFIGURED ==> At(ps, ref).ZeroAmounts()
  {
  }

  /** A charged row ends in the currency of the request, and an unconfigured one stays empty. */
  lemma ChargedRowCurrency(ps: Positions, l: Level, install: ID, amount: Money)
    requires AllFit(ps) && UnconfiguredEmpty(ps) && 0 <= amount.micro
    requires amount.currency == UNCONFIGURED ==> amount.micro == 0
    requires ChargeLevel(ps, l, install, amount).Ok?
    ensures ChargedRow(ps, l, install, amount).currency == amount.currency
    ensures amount.currency == UNCONFIGURED ==> ChargedRow(ps, l, install, amount).counters.ZeroAmounts()
  {
    PinnedCurrency(ps, l.ref, install, amount.currency);
    AdmitAtMeaning(PinnedRow(ps, l.ref, install, amount.currency), l, amount);
    ChargedRowCounters(ps, l, install, amount);
  }

  lemma UpdateEmpty(ps: Positions, ref: LevelRef, q: Position)
    requires UnconfiguredEmpty(ps) && (q.currency == UNCONFIGURED ==> q.counters.ZeroAmounts())
    ensures UnconfiguredEmpty(ps[ref := q])
  {
  }

  lemma ChargeLevelCurrency(ps: Positions, l: Level, install: ID, amount: Money)
    requires AllFit(ps) && UnconfiguredEmpty(ps) && 0 <= amount.micro
    requires amount.currency == UNCONFIGURED ==> amount.micro == 0
    requires ChargeLevel(ps, l, install, amount).Ok?
    ensures UnconfiguredEmpty(ChargeLevel(ps, l, install, amount).value)
    ensures ChargeLevel(ps, l, install, amount).value[l.ref].currency == amount.currency
  {
    ChargedRowCurrency(ps, l, install, amount);
    UpdateEmpty(ps, l.ref, ChargedRow(ps, l, install, amount));
  }

  lemma {:induction false} ChargeAllCurrency(ps: Positions, levels: seq<Level>, install: ID, amount: Money,
                                             ref: LevelRef)
    requires AllFit(ps) && UnconfiguredEmpty(ps) && 0 <= amount.micro
    requires amount.currency == UNCONFIGURED ==> amount.micro == 0
    requires ChargeAll(ps, levels, install, amount).Ok?
    ensures UnconfiguredEmpty(ChargeAll(ps, levels, install, amount).value)
    ensures ref in Refs(levels) ==>
              && ref in ChargeAll(ps, levels, install, amount).value
              && ChargeAll(ps, levels, install, amount).value[ref].currency == amount.currency
    decreases |levels|
  {
    if |levels| > 0 {
      var l, rest := levels[0], levels[1..];
      ChargeLevelFits(ps, l, install, amount);
      ChargeLevelCurrency(ps, l, install, amount);
      var qs := ChargeLevel(ps, l, install, amount).value;
      ChargeAllCurrency(qs, rest, install, amount, ref);
      ChargeAllRows(qs, rest, install, amount, ref);
    }
  }

  /** Appending a row keeps rows matched when pins are kept and the new row's own references carry its currency. */
  lemma AppendRowsMatch(b: Book, next: Book)
    requires RowsMatch(b) && PinsKept(b.positions, next.positions)
    requires |next.rows| == |b.rows| + 1 && next.rows[..|b.rows|] == b.rows
    requires forall ref | ref in b.positions :: ref in next.positions
    requires forall ref | ref in next.rows[|b.rows|].charged ::
               ref in next.positions && next.positions[ref].currency == next.rows[|b.rows|].currency
    ensures RowsMatch(next)
  {
    forall i, ref | 0 <= i < |next.rows| && ref in next.rows[i].charged
      ensures ref in next.positions
              && (next.rows[i].currency != UNCONFIGURED ==> next.positions[ref].currency == next.rows[i].currency)
    {
      if i < |b.rows| {
        assert next.rows[i] == b.rows[i];
        assert ref in b.positions;
      }
    }
  }

  lemma PostCurrency(b: Book, input: ReserveInput, levels: seq<Level>, next: Book)
    requires CurrencyInv(b) && Inv(next) && 0 <= input.amount.micro
    requires input.amount.currency == UNCONFIGURED ==> input.amount.micro == 0
    requires ChargeAll(b.positions, levels, input.scope.install, input.amount) == Ok(next.positions)
    requires |next.rows| == |b.rows| + 1 && next.rows[..|b.rows|] == b.rows
    requires var row := next.rows[|b.rows|];
             row.charged == Refs(levels) && row.currency == input.amount.currency && row.amount == input.amount.micro
               && row.report.None?
    ensures RowsMatch(next) && UnconfiguredEmpty(next.positions)
  {
    ChargeAllPins(b.positions, levels, input.scope.install, input.amount);
    forall ref | ref in b.positions ensures ref in next.positions {
      ChargeAllRows(b.positions, levels, input.scope.install, input.amount, ref);
    }
    forall ref | ref in next.rows[|b.rows|].charged
      ensures ref in next.positions && next.positions[ref].currency == next.rows[|b.rows|].currency
    {
      ChargeAllCurrency(b.positions, levels, input.scope.install, input.amount, ref);
    }
    AppendRowsMatch(b, next);
    ChargeAllCurrency(b.positions, levels, input.scope.install, input.amount,
                      LevelRef(KInstallation, input.scope.install));
  }

  lemma PostUnpaid(b: Book, next: Book)
    requires UnconfiguredUnpaid(b.rows) && |next.rows| == |b.rows| + 1 && next.rows[..|b.rows|] == b.rows
    requires next.rows[|b.rows|].currency == UNCONFIGURED ==> next.rows[|b.rows|].amount == 0
    ensures UnconfiguredUnpaid(next.rows)
  {
    assert forall i | 0 <= i < |b.rows| :: next.rows[i] == b.rows[i];
  }

  lemma ReserveShape(b: Book, input: ReserveInput, env: Env)
    requires Inv(b) && Reserve(b, input, env).book != b
    ensures var next := Reserve(b, input, env).book;
            && 0 <= input.amount.micro
            && (input.amount.currency == UNCONFIGURED ==> input.amount.micro == 0)
            && Chain(b.budgets, input, env).Ok?
            && ChargeAll(b.positions, Chain(b.budgets, input, env).value, input.scope.install, input.amount)
               == Ok(next.positions)
            && |next.rows| == |b.rows| + 1 && next.rows[..|b.rows|] == b.rows
            && next.rows[|b.rows|].charged == Refs(Chain(b.budgets, input, env).value)
            && next.rows[|b.rows|].currency == input.amount.currency
            && next.rows[|b.rows|].amount == input.amount.micro
            && next.rows[|b.rows|].report.None?
  {
  }

  lemma ReserveCurrency(b: Book, input: ReserveInput, env: Env)
    requires CurrencyInv(b)
    ensures CurrencyInv(Reserve(b, input, env).book)
  {
    var next := Reserve(b, input, env).book;
    if next != b {
      ReserveInv(b, input, env);
      ReserveShape(b, input, env);
      PostCurrency(b, input, Chain(b.budgets, input, env).value, next);
      PostUnpaid(b, next);
    }
  }

  // ---- Settling under the discipline ----

  ghost predicate Named(b: Book, input: SettleInput, i: nat) {
    i < |b.rows| && b.rows[i].id == input.reservation
  }

  /** The settle reports no amount for a reservation booked without a currency. */
  ghost predicate SettlesFree(b: Book, input: SettleInput) {
    forall i: nat | Named(b, input, i) && b.rows[i].currency == UNCONFIGURED :: !input.usage.Nonzero()
  }

  /** Every row the reservation charged has been pinned to a real currency meanwhile. */
  ghost predicate SettlesPinned(b: Book, input: SettleInput) {
    forall i: nat, ref | Named(b, input, i) && ref in b.rows[i].charged && ref in b.positions ::
      b.positions[ref].currency != UNCONFIGURED
  }

  ghost predicate SettlesClean(b: Book, input: SettleInput) {
    SettlesFree(b, input) || SettlesPinned(b, input)
  }

  /** An unknown outcome holds an amount, so under the discipline it sits on pinned rows only. */
  lemma UnknownIsPinned(b: Book, i: nat, ref: LevelRef)
    requires CurrencyInv(b) && i < |b.rows| && b.rows[i].state.Unknown? && ref in b.rows[i].charged
    ensures ref in b.positions && b.positions[ref].currency != UNCONFIGURED
  {
    var r := b.rows[i];
    assert RowOk(r) && ref in b.positions;
    InvStored(b);
    RecountCovers(b.rows, i, ref);
    CountMember(r.charged, ref);
    TimesSign(Count(r.charged, ref), r.report.value.unknown);
    assert b.positions[ref].counters == Recount(b.rows, ref);
  }

  /** A reservation without an amount books an amount exactly when its report carries one. */
  lemma UnpaidTransition(r: Reservation, input: SettleInput, m: Movement)
    requires RowOk(r) && r.state.Reserved? && r.amount == 0 && input.usage.Schema()
    requires CheckReport(r, input).Ok? && Transition(r, input) == Ok(m)
    ensures m.delta.ZeroAmounts() <==> !input.usage.Nonzero()
  {
  }

  lemma ScaleZero(total: Counters, n: nat, d: Counters)
    requires total.ZeroAmounts() && n > 0
    ensures total.Plus(Scale(n, d)).ZeroAmounts() <==> d.ZeroAmounts()
  {
    ScaleSigns(n, d);
    TimesSign(n, d.spent);
    TimesSign(n, d.reserved);
    TimesSign(n, d.unknown);
    TimesSign(n, d.estimated);
    TimesSign(n, -d.spent);
    TimesSign(n, -d.reserved);
    TimesSign(n, -d.unknown);
    TimesSign(n, -d.estimated);
  }

  /** What a committed settle leaves at an unconfigured row: an amount exactly when it charges the row with one. */
  lemma SettledRowEmpty(b: Book, input: SettleInput, i: nat, m: Movement, ref: LevelRef)
    requires CurrencyInv(b) && Committed(b, input) == Some((i, m))
    requires ref in b.positions && b.positions[ref].currency == UNCONFIGURED
    ensures StoredRows(b)
    ensures At(Settle(b, input).book.positions, ref).ZeroAmounts()
            <==> !(ref in b.rows[i].charged && input.usage.Nonzero())
    ensures ref in b.rows[i].charged ==> b.rows[i].currency == UNCONFIGURED
  {
    SettleMoves(b, input, ref);
    var r := b.rows[i];
    if ref in r.charged {
      if r.state.Unknown? {
        UnknownIsPinned(b, i, ref);
      }
      UnpaidTransition(r, input, m);
      CountMember(r.charged, ref);
      ScaleZero(At(b.positions, ref), Count(r.charged, ref), m.delta);
    } else {
      NoCharge(At(b.positions, ref), r.charged, ref, m.delta);
    }
  }

  lemma ExecuteRows(b: Book, input: SettleInput, i: nat, m: Movement)
    requires Inv(b) && Committed(b, input) == Some((i, m))
    ensures StoredRows(b) && Settle(b, input).book.rows == b.rows[i := Moved(b.rows[i], m.next, input.usage)]
  {
    SettleCommits(b, input);
  }

  lemma NamedOnce(b: Book, input: SettleInput, i: nat, j: nat)
    requires Inv(b) && Named(b, input, i) && Named(b, input, j)
    ensures i == j
  {
  }

  /** Whether the positions stay clean, decided row by row. */
  lemma EmptyExactly(b: Book, input: SettleInput, i: nat, m: Movement)
    requires CurrencyInv(b) && Committed(b, input) == Some((i, m))
    ensures StoredRows(b)
    ensures UnconfiguredEmpty(Settle(b, input).book.positions) <==> SettlesClean(b, input)
  {
    SettlePins(b, input);
    var ps := Settle(b, input).book.positions;
    assert Named(b, input, i);
    if SettlesClean(b, input) {
      forall ref | ref in ps && ps[ref].currency == UNCONFIGURED ensures ps[ref].counters.ZeroAmounts() {
        SettledRowEmpty(b, input, i, m, ref);
      }
    } else {
      var j: nat, ref :| Named(b, input, j) && ref in b.rows[j].charged && ref in b.positions
        && b.positions[ref].currency == UNCONFIGURED;
      var k: nat :| Named(b, input, k) && input.usage.Nonzero();
      NamedOnce(b, input, i, j);
      SettledRowEmpty(b, input, i, m, ref);
    }
  }

  lemma MovedRowsMatch(b: Book, next: Book, i: nat, state: State, u: Usage)
    requires RowsMatch(b) && i < |b.rows| && next.rows == b.rows[i := Moved(b.rows[i], state, u)]
    requires next.positions.Keys == b.positions.Keys
    requires forall ref | ref in b.positions :: next.positions[ref].currency == b.positions[ref].currency
    ensures RowsMatch(next)
  {
    forall j, ref | 0 <= j < |next.rows| && ref in next.rows[j].charged
      ensures && ref in next.positions
              && (next.rows[j].currency != UNCONFIGURED ==> next.positions[ref].currency == next.rows[j].currency)
    {
      assert ref in b.rows[j].charged && next.rows[j].currency == b.rows[j].currency;
    }
  }

  /** A committed settle keeps everything but, possibly, the cleanness of unconfigured rows. */
  lemma SettleKeepsRows(b: Book, input: SettleInput, i: nat, m: Movement)
    requires CurrencyInv(b) && Committed(b, input) == Some((i, m))
    ensures StoredRows(b)
    ensures var next := Settle(b, input).book; Inv(next) && RowsMatch(next) && UnconfiguredUnpaid(next.rows)
  {
    SettleInv(b, input);
    SettlePins(b, input);
    ExecuteRows(b, input, i, m);
    MovedRowsMatch(b, Settle(b, input).book, i, m.next, input.usage);
  }

  /**
   * A committed settle leaves unconfigured rows without amounts if and only if it reports no amount for a reservation
   * booked without a currency, or every row that reservation charged has been pinned meanwhile. Then the whole
   * discipline holds on.
   */
  lemma DisciplineExact(b: Book, input: SettleInput)
    requires CurrencyInv(b) && Committed(b, input).Some?
    ensures StoredRows(b)
    ensures UnconfiguredEmpty(Settle(b, input).book.positions) <==> SettlesFree(b, input) || SettlesPinned(b, input)
    ensures SettlesFree(b, input) || SettlesPinned(b, input) ==> CurrencyInv(Settle(b, input).book)
  {
    var (i, m) := Committed(b, input).value;
    EmptyExactly(b, input, i, m);
    SettleKeepsRows(b, input, i, m);
  }

  lemma SettleCurrency(b: Book, input: SettleInput)
    requires CurrencyInv(b) && SettlesClean(b, input)
    ensures StoredRows(b) && CurrencyInv(Settle(b, input).book)
  {
    SettleCommits(b, input);
    if Committed(b, input).Some? {
      DisciplineExact(b, input);
    }
  }

  ghost predicate CallClean(b: Book, call: Call) {
    call.CallSettle? ==> SettlesClean(b, call.settle)
  }

  lemma StepCurrency(b: Book, call: Call)
    requires CurrencyInv(b) && CallClean(b, call)
    ensures CurrencyInv(Step(b, call))
  {
    match call
    case CallReserve(input, env) => ReserveCurrency(b, input, env);
    case CallSettle(input) => SettleCurrency(b, input);
    case CallBudgets(_) =>
  }

  lemma NextCurrency(b: Book, calls: seq<Call>, k: nat)
    requires Inv(b) && 0 < k <= |calls|
    requires CurrencyInv(Before(b, calls, k - 1)) && CallClean(Before(b, calls, k - 1), calls[k - 1])
    ensures CurrencyInv(Before(b, calls, k))
  {
    BeforeStep(b, calls, k);
    StepCurrency(Before(b, calls, k - 1), calls[k - 1]);
  }

  lemma {:induction false} DisciplineHolds(b: Book, calls: seq<Call>, k: nat)
    requires Initial(b) && Inv(b) && k <= |calls|
    requires forall j | 0 <= j < |calls| :: CallClean(Before(b, calls, j), calls[j])
    ensures CurrencyInv(Before(b, calls, k))
  {
    if k > 0 {
      DisciplineHolds(b, calls, k - 1);
      NextCurrency(b, calls, k);
    }
  }

  /**
   * If reservations booked without a currency settle without amounts or on pinned rows only, then in every reachable
   * state all positive reservations an installation ever made share one currency, and it is a configured one.
   */
  lemma OneCurrency(b: Book, calls: seq<Call>, i: nat, j: nat)
    requires Initial(b) && Inv(b)
    requires forall k | 0 <= k < |calls| :: CallClean(Before(b, calls, k), calls[k])
    requires i < |Run(b, calls).rows| && j < |Run(b, calls).rows|
    requires Run(b, calls).rows[i].amount > 0 && Run(b, calls).rows[j].amount > 0
    requires Run(b, calls).rows[i].install == Run(b, calls).rows[j].install
    ensures Run(b, calls).rows[i].currency == Run(b, calls).rows[j].currency != UNCONFIGURED
  {
    DisciplineHolds(b, calls, |calls|);
    assert calls[..|calls|] == calls;
    InstallationCurrency(Run(b, calls), i);
    InstallationCurrency(Run(b, calls), j);
  }

  /** A positive reservation's currency is the one its installation row is pinned to. */
  lemma InstallationCurrency(b: Book, i: nat)
    requires CurrencyInv(b) && i < |b.rows| && b.rows[i].amount > 0
    ensures var ref := LevelRef(KInstallation, b.rows[i].install);
            ref in b.positions && b.rows[i].currency == b.positions[ref].currency != UNCONFIGURED
  {
    assert RowOk(b.rows[i]);
    assert b.rows[i].charged[0] in b.rows[i].charged;
  }
}
