/** Exactly which reserve and settle calls are accepted, on the fields of the call and the stored rows. */
module LedgerOutcomes {
  import opened Wrappers
  import opened Results
  import opened Int64
  import opened AccountingModel
  import opened Limits
  import opened PositionRows
  import opened Ledger
  import opened LedgerInvariant
  import opened LedgerRuns
  import opened LevelMeaning

  // ---- Settle ----

  /** Where a report moves a live reservation: an unknown outcome is only ever resolved, and nonexecution releases. */
  function NextState(r: Reservation, input: SettleInput): State {
    if input.nonexecution then Released
    else if r.state == Reserved && input.usage.unknown > 0 then Unknown
    else Settled
  }

  function Reported(r: Reservation, input: SettleInput): Reservation {
    r.(version := r.version + 1, state := NextState(r, input), report := Some(input.usage))
  }

  /**
   * The report is made against the stored version, holds nothing back, and is in the reservation's currency if it has
   * amounts.
   */
  predicate FitsRow(r: Reservation, input: SettleInput) {
    && input.expectedVersion == r.version
    && input.usage.reserved == 0
    && (input.nonexecution ==> input.usage.spent == 0 && input.usage.estimated == 0 && input.usage.unknown == 0)
    && (input.usage.spent > 0 || input.usage.estimated > 0 || input.usage.unknown > 0 ==>
          input.usage.currency == r.currency)
  }

  const LIMIT := Counters(MAX, MAX, MAX, MAX, MAX)

  /** Recounted with the reservation as reported, every position it charged stays in the int64 range. */
  ghost predicate InRange(b: Book, i: nat, input: SettleInput)
    requires i < |b.rows|
  {
    var next := Reported(b.rows[i], input);
    && (next.state == Settled && input.usage.advisory ==> input.usage.spent + input.usage.estimated <= MAX)
    && forall ref | ref in b.rows[i].charged :: Covers(LIMIT, Recount(b.rows[i := next], ref))
  }

  lemma CheckedFits(r: Reservation, input: SettleInput)
    requires input.usage.Schema()
    ensures CheckReport(r, input).Ok? <==> FitsRow(r, input)
    ensures CheckReport(r, input).Err? ==>
              CheckReport(r, input).fault == if input.expectedVersion != r.version then StaleVersion else InvalidInput
  {
  }

  lemma TransitionIs(r: Reservation, input: SettleInput)
    requires RowOk(r) && !r.state.Terminal() && input.usage.Schema() && FitsRow(r, input)
    ensures Transition(r, input).Ok? <==>
            (NextState(r, input) == Settled && input.usage.advisory ==>
             input.usage.spent + input.usage.estimated <= MAX)
    ensures Transition(r, input).Err? ==> Transition(r, input).fault == InvalidInput
    ensures Transition(r, input).Ok? ==> Moved(r, Transition(r, input).value.next, input.usage) == Reported(r, input)
  {
  }

  lemma RangeIsNoOverflow(b: Book, i: nat, input: SettleInput)
    requires Inv(b) && i < |b.rows| && !b.rows[i].state.Terminal() && input.usage.Schema()
    requires FitsRow(b.rows[i], input) && Transition(b.rows[i], input).Ok?
    ensures NoOverflow(b, i, Transition(b.rows[i], input).value) <==> InRange(b, i, input)
  {
    var r, m := b.rows[i], Transition(b.rows[i], input).value;
    CheckedFits(r, input);
    TransitionIs(r, input);
    TransitionBooks(r, input);
    forall ref ensures Recount(b.rows[i := Reported(r, input)], ref)
      == Recount(b.rows, ref).Plus(Charge(r.charged, ref, m.delta)) {
      RecountUpdate(b.rows, i, Reported(r, input), m.delta, ref);
    }
  }

  /**
   * A report on a live reservation is accepted if and only if it fits the row and no recounted position leaves the
   * int64 range; it is stale if and only if it is made against another version, and every other refusal is an input
   * failure.
   */
  lemma SettleDecides(b: Book, i: nat, input: SettleInput)
    requires Inv(b) && i < |b.rows| && !b.rows[i].state.Terminal()
    requires input.reservation == b.rows[i].id && input.usage.Schema()
    ensures StoredRows(b)
    ensures Settle(b, input).outcome.Ok? <==> FitsRow(b.rows[i], input) && InRange(b, i, input)
    ensures Settle(b, input).outcome == Err(StaleVersion) <==> input.expectedVersion != b.rows[i].version
    ensures Settle(b, input).outcome.Err? && input.expectedVersion == b.rows[i].version ==>
              Settle(b, input).outcome == Err(InvalidInput)
  {
    InvStored(b);
    FoundIs(b.rows, i);
    CheckedFits(b.rows[i], input);
    if FitsRow(b.rows[i], input) {
      TransitionIs(b.rows[i], input);
      if Transition(b.rows[i], input).Ok? {
        SettleExact(b, i, input);
        RangeIsNoOverflow(b, i, input);
        DeltaFault(b.positions, b.rows[i].charged, Transition(b.rows[i], input).value.delta);
      }
    }
  }

  /** With every charged position in place, the deltas can only fail on their range. */
  lemma {:induction false} DeltaFault(ps: Positions, refs: seq<LevelRef>, d: Counters)
    requires AllFit(ps) && forall ref | ref in refs :: ref in ps
    ensures ApplyAll(ps, refs, d).Err? ==> ApplyAll(ps, refs, d).fault == InvalidInput
    decreases |refs|
  {
    if refs != [] && ApplyDeltas(ps[refs[0]], d).Ok? {
      DeltaFault(ps[refs[0] := ApplyDeltas(ps[refs[0]], d).value], refs[1..], d);
    }
  }

  /**
   * An accepted report replaces its row, and every position then holds what the table recounts; a refused one changes
   * nothing.
   */
  lemma SettleLeaves(b: Book, i: nat, input: SettleInput, ref: LevelRef)
    requires Inv(b) && i < |b.rows| && !b.rows[i].state.Terminal()
    requires input.reservation == b.rows[i].id && input.usage.Schema()
    ensures StoredRows(b)
    ensures Settle(b, input).outcome.Err? ==> Settle(b, input).book == b
    ensures Settle(b, input).outcome.Ok? ==>
              var next := Reported(b.rows[i], input);
              && Settle(b, input).outcome == Ok(next)
              && Settle(b, input).book.rows == b.rows[i := next] && Settle(b, input).book.budgets == b.budgets
              && At(Settle(b, input).book.positions, ref) == Recount(b.rows[i := next], ref)
  {
    SettleDecides(b, i, input);
    FoundIs(b.rows, i);
    SettleInv(b, input);
    if Settle(b, input).outcome.Ok? {
      CheckedFits(b.rows[i], input);
      TransitionIs(b.rows[i], input);
      var after := Settle(b, input).book;
      assert Inv(after);
      if ref !in after.positions {
        RecountAbsent(after.positions, after.rows, ref);
      }
    }
  }

  /** Reports outside their schema, on no reservation, or on a closed one change nothing. */
  lemma SettleOtherwise(b: Book, input: SettleInput)
    requires Inv(b)
    ensures StoredRows(b)
    ensures !input.usage.Schema() ==> Settle(b, input) == Reply(Err(InvalidInput), b)
    ensures input.usage.Schema() && (forall i | 0 <= i < |b.rows| :: b.rows[i].id != input.reservation) ==>
              Settle(b, input) == Reply(Err(NotFound), b)
    ensures forall i | 0 <= i < |b.rows| && b.rows[i].id == input.reservation && b.rows[i].state.Terminal()
            && input.usage.Schema() ::
              Settle(b, input)
                == Reply(if b.rows[i].report == Some(input.usage) then Ok(b.rows[i]) else Err(Conflict), b)
  {
    InvStored(b);
    forall i | 0 <= i < |b.rows|
      && b.rows[i].id == input.reservation ensures FindId(b.rows, input.reservation) == Some(i) {
      FoundIs(b.rows, i);
    }
  }

  // ---- Reserve: one level ----

  /** The currency a position is charged in: its own, unless it is new, or unconfigured and without amounts. */
  function RowCurrency(ps: Positions, ref: LevelRef, currency: string): string {
    if ref !in ps then currency
    else if ps[ref].currency == UNCONFIGURED && currency != UNCONFIGURED && ps[ref].counters.ZeroAmounts() then currency
    else ps[ref].currency
  }

  predicate SameCurrency(held: string, currency: string) {
    held == UNCONFIGURED || held == currency
  }

  /** A positive amount fits the level's spend with what the position holds. */
  predicate SpendFits(c: Counters, l: Level, micro: int) {
    micro > 0 && l.caps.spend.Some? ==> c.Exposure() + micro <= l.caps.spend.value
  }

  predicate SlotFits(c: Counters, l: Level) {
    l.caps.concurrency.Some? ==> c.concurrency + 1 <= l.caps.concurrency.value
  }

  predicate CountersFit(c: Counters, micro: int) {
    c.reserved + micro <= MAX && c.concurrency + 1 <= MAX
  }

  /** The level takes the amount on top of what its position holds. */
  predicate Takes(held: string, c: Counters, l: Level, amount: Money) {
    SameCurrency(held, amount.currency) && SpendFits(c, l, amount.micro) && SlotFits(c, l)
      && CountersFit(c, amount.micro)
  }

  /**
   * A root task asked for more than it declared, or the exposure leaves the int64 range: an input failure, not a full
   * budget.
   */
  predicate OverSpent(c: Counters, l: Level, micro: int) {
    micro > 0 && l.caps.spend.Some?
    && (c.Exposure() + micro > MAX || (l.ref.kind == KRootTask && micro > l.caps.spend.value))
  }

  lemma AdmitExactly(p: Position, l: Level, amount: Money)
    requires p.counters.Fits() && 0 <= amount.micro
    ensures AdmitAt(p, l, amount).Ok? <==> Takes(p.currency, p.counters, l, amount)
    ensures !SameCurrency(p.currency, amount.currency) ==> AdmitAt(p, l, amount) == Err(InvalidInput)
    ensures AdmitAt(p, l, amount) == Err(BudgetUnavailable) <==>
            && SameCurrency(p.currency, amount.currency) && !OverSpent(p.counters, l, amount.micro)
            && (!SpendFits(p.counters, l, amount.micro) || (!SlotFits(p.counters, l) && CountersFit(p.counters, 0)))
    ensures AdmitAt(p, l, amount).Err? ==> AdmitAt(p, l, amount).fault in {InvalidInput, BudgetUnavailable}
  {
  }

  // ---- Reserve: the chain ----

  /** What a position holds when level i is charged: earlier levels may have charged it already. */
  function Holding(ps: Positions, levels: seq<Level>, i: nat, amount: Money): Counters
    requires i < |levels|
  {
    At(ps, levels[i].ref).Plus(Charge(Refs(levels[..i]), levels[i].ref, Admission(amount.micro)))
  }

  predicate TakesAt(ps: Positions, levels: seq<Level>, i: nat, amount: Money)
    requires i < |levels| && 0 <= amount.micro
  {
    Takes(RowCurrency(ps, levels[i].ref, amount.currency), Holding(ps, levels, i, amount), levels[i], amount)
  }

  lemma PinnedIs(ps: Positions, ref: LevelRef, install: ID, currency: string)
    ensures var p := PinnedRow(ps, ref, install, currency);
            p.currency == RowCurrency(ps, ref, currency) && p.counters == At(ps, ref)
  {
  }

  lemma RefsPrefix(levels: seq<Level>, i: nat)
    requires i < |levels|
    ensures Refs(levels[..i + 1]) == [levels[0].ref] + Refs(levels[1..][..i])
  {
    assert levels[..i + 1][1..] == levels[1..][..i];
  }

  lemma {:induction false} HoldingShifts(ps: Positions, levels: seq<Level>, q: Position, amount: Money, i: nat)
    requires i + 1 < |levels| && q.counters == At(ps, levels[0].ref).Plus(Admission(amount.micro))
    ensures Holding(ps[levels[0].ref := q], levels[1..], i, amount) == Holding(ps, levels, i + 1, amount)
  {
    var ref := levels[i + 1].ref;
    AtUpdate(ps, levels[0].ref, q, ref, Admission(amount.micro));
    RefsPrefix(levels, i);
    ChargeCons(Refs(levels[..i + 1]), ref, Admission(amount.micro));
    assert Refs(levels[..i + 1])[1..] == Refs(levels[1..][..i]);
  }

  lemma CurrencyStays(ps: Positions, key: LevelRef, install: ID, amount: Money, ref: LevelRef)
    requires AllFit(ps) && 0 <= amount.micro
    ensures var p := PinnedRow(ps, key, install, amount.currency);
            var q := p.(counters := p.counters.Plus(Admission(amount.micro)), version := p.version + 1);
            RowCurrency(ps[key := q], ref, amount.currency) == RowCurrency(ps, ref, amount.currency)
  {
  }

  lemma {:induction false} FirstHolding(ps: Positions, levels: seq<Level>, amount: Money)
    requires levels != []
    ensures Holding(ps, levels, 0, amount) == At(ps, levels[0].ref)
  {
    assert Refs(levels[..0]) == [];
    NoCharge(At(ps, levels[0].ref), Refs(levels[..0]), levels[0].ref, Admission(amount.micro));
  }

  ghost predicate AllTake(ps: Positions, levels: seq<Level>, amount: Money)
    requires 0 <= amount.micro
  {
    forall i | 0 <= i < |levels| :: TakesAt(ps, levels, i, amount)
  }

  /** The positions after the first level of a chain. */
  function AfterHead(ps: Positions, l: Level, install: ID, amount: Money): Positions {
    var p := PinnedRow(ps, l.ref, install, amount.currency);
    ps[l.ref := p.(counters := p.counters.Plus(Admission(amount.micro)), version := p.version + 1)]
  }

  lemma {:induction false} LevelTakes(ps: Positions, l: Level, install: ID, amount: Money)
    requires AllFit(ps) && 0 <= amount.micro
    ensures var r := ChargeLevel(ps, l, install, amount);
            && (r.Ok? <==> Takes(RowCurrency(ps, l.ref, amount.currency), At(ps, l.ref), l, amount))
            && (r.Ok? ==> r.value == AfterHead(ps, l, install, amount) && AllFit(r.value))
            && (r.Err? ==> r.fault in {InvalidInput, BudgetUnavailable})
  {
    PinnedIs(ps, l.ref, install, amount.currency);
    AdmitExactly(PinnedRow(ps, l.ref, install, amount.currency), l, amount);
    if ChargeLevel(ps, l, install, amount).Ok? {
      ChargeLevelFits(ps, l, install, amount);
    }
  }

  lemma {:induction false} HeadTakes(ps: Positions, levels: seq<Level>, amount: Money)
    requires 0 <= amount.micro && levels != []
    ensures TakesAt(ps, levels, 0, amount)
            <==> Takes(RowCurrency(ps, levels[0].ref, amount.currency), At(ps, levels[0].ref), levels[0], amount)
  {
    FirstHolding(ps, levels, amount);
  }

  lemma TailTakes(ps: Positions, levels: seq<Level>, install: ID, amount: Money)
    requires AllFit(ps) && 0 <= amount.micro && levels != []
    ensures AllTake(ps, levels, amount) <==>
            TakesAt(ps, levels, 0, amount) && AllTake(AfterHead(ps, levels[0], install, amount), levels[1..], amount)
  {
    var qs := AfterHead(ps, levels[0], install, amount);
    PinnedIs(ps, levels[0].ref, install, amount.currency);
    forall i | 0 <= i < |levels[1..]| ensures TakesAt(qs, levels[1..], i, amount)
      <==> TakesAt(ps, levels, i + 1, amount) {
      HoldingShifts(ps, levels, qs[levels[0].ref], amount, i);
      CurrencyStays(ps, levels[0].ref, install, amount, levels[i + 1].ref);
    }
    if TakesAt(ps, levels, 0, amount) && AllTake(qs, levels[1..], amount) {
      forall i | 0 <= i < |levels| ensures TakesAt(ps, levels, i, amount) {
        assert i > 0 ==> TakesAt(qs, levels[1..], i - 1, amount);
      }
    }
  }

  /** A chain is charged if and only if every level takes the amount on top of what the levels before it charged. */
  lemma {:induction false} ChargeAllExactly(ps: Positions, levels: seq<Level>, install: ID, amount: Money)
    requires AllFit(ps) && 0 <= amount.micro
    ensures ChargeAll(ps, levels, install, amount).Ok? <==> AllTake(ps, levels, amount)
    ensures ChargeAll(ps, levels, install, amount).Err? ==>
              ChargeAll(ps, levels, install, amount).fault in {InvalidInput, BudgetUnavailable}
    decreases |levels|
  {
    if levels != [] {
      HeadTakes(ps, levels, amount);
      LevelTakes(ps, levels[0], install, amount);
      TailTakes(ps, levels, install, amount);
      if ChargeLevel(ps, levels[0], install, amount).Ok? {
        ChargeAllExactly(AfterHead(ps, levels[0], install, amount), levels[1..], install, amount);
      }
    }
  }

  // ---- Reserve: the call ----

  /** Paid work names a currency, and its installation has an active budget with a currency and a positive spend. */
  predicate Payable(budgets: Budgets, input: ReserveInput) {
    input.amount.micro > 0 ==>
      && input.amount.currency != UNCONFIGURED
      && Active(budgets, input.scope.install, input.scope.install) != []
      && budgets[input.scope.install].limits.currency != UNCONFIGURED
      && budgets[input.scope.install].limits.spend > 0
  }

  /** A positive amount is in the currency its levels name, if they name one. */
  ghost predicate AmountNamed(levels: seq<Level>, amount: Money) {
    amount.micro > 0 ==>
      forall i | 0 <= i < |levels| && levels[i].caps.currency != "" :: levels[i].caps.currency == amount.currency
  }

  lemma GateExactly(budgets: Budgets, input: ReserveInput)
    ensures PaidGate(budgets, input).Ok? <==> Payable(budgets, input)
    ensures PaidGate(budgets, input).Err? ==> PaidGate(budgets, input).fault == BudgetUnavailable
  {
  }

  lemma NamedIsReal(budgets: Budgets, input: ReserveInput, env: Env, i: nat)
    requires Chain(budgets, input, env).Ok? && i < |Chain(budgets, input, env).value|
    ensures Chain(budgets, input, env).value[i].caps.currency != UNCONFIGURED
  {
    ChainExact(budgets, input, env);
    assert Carries(Chain(budgets, input, env).value[i], Sources(budgets, input, env)[i], env.now);
  }

  lemma CurrencyDecides(budgets: Budgets, input: ReserveInput, env: Env)
    requires Chain(budgets, input, env).Ok? && Narrow(Chain(budgets, input, env).value).Ok? && 0 <= input.amount.micro
    ensures var levels := Chain(budgets, input, env).value;
            var currency := WireOf(Narrow(levels).value, env.now + DEFAULT_ROOT_DEADLINE).currency;
            (currency != UNCONFIGURED && input.amount.micro > 0 ==> input.amount.currency == currency)
            <==> AmountNamed(levels, input.amount)
  {
    var levels := Chain(budgets, input, env).value;
    NarrowMeaning(levels);
    var c := Narrow(levels).value.currency;
    assert SharesCurrency(levels, c);
    if c != "" {
      var i :| 0 <= i < |levels| && levels[i].caps.currency == c;
      NamedIsReal(budgets, input, env, i);
    }
  }

  /** The checks of an unseen request pass if and only if it is payable, has a chain, and all currencies agree. */
  lemma AssessExactly(budgets: Budgets, input: ReserveInput, env: Env)
    requires 0 <= input.amount.micro
    ensures Assess(budgets, input, env).Ok? <==>
            && Payable(budgets, input) && Chain(budgets, input, env).Ok?
            && !CurrencyClash(Chain(budgets, input, env).value)
            && AmountNamed(Chain(budgets, input, env).value, input.amount)
    ensures Assess(budgets, input, env).Ok? ==> Assess(budgets, input, env).value.0 == Chain(budgets, input, env).value
  {
    GateExactly(budgets, input);
    if Chain(budgets, input, env).Ok? {
      NarrowMeaning(Chain(budgets, input, env).value);
      if Narrow(Chain(budgets, input, env).value).Ok? {
        CurrencyDecides(budgets, input, env);
      }
    }
  }

  /** The call is for the transaction's own installation, with an amount that is not negative. */
  predicate Addressed(input: ReserveInput, env: Env) {
    input.scope.install != "" && input.scope.install == env.install && 0 <= input.amount.micro
  }

  /**
   * An unseen request is admitted if and only if it is payable, what its scope names exists,
     the documents of each level
   * and the levels among themselves agree on the currency of the amount, every level takes the amount,
     and its id is new.
   */
  lemma ReserveDecides(b: Book, input: ReserveInput, env: Env)
    requires Inv(b) && Addressed(input, env)
    requires forall i | 0 <= i < |b.rows| :: b.rows[i].operation != input.operation
    ensures Reserve(b, input, env).outcome.Ok? <==>
            && Payable(b.budgets, input) && Located(input, env) && Agreed(Sources(b.budgets, input, env))
            && Chain(b.budgets, input, env).Ok?
            && var levels := Chain(b.budgets, input, env).value;
               && !CurrencyClash(levels) && AmountNamed(levels, input.amount)
               && AllTake(b.positions, levels, input.amount)
               && forall i | 0 <= i < |b.rows| :: b.rows[i].id != env.newId
    ensures !Payable(b.budgets, input) ==> Reserve(b, input, env).outcome == Err(BudgetUnavailable)
    ensures Reserve(b, input, env).outcome.Err? ==> Reserve(b, input, env).book == b
  {
    assert FindOperation(b.rows, input.operation).None?;
    GateExactly(b.budgets, input);
    ChainExact(b.budgets, input, env);
    AssessExactly(b.budgets, input, env);
    if Chain(b.budgets, input, env).Ok? {
      ChargeAllExactly(b.positions, Chain(b.budgets, input, env).value, input.scope.install, input.amount);
    }
  }

  /**
   * A call without an installation or with a negative amount fails on its input, one for another installation on
   * permission.
   */
  lemma ReserveRefuses(b: Book, input: ReserveInput, env: Env)
    requires Inv(b) && !Addressed(input, env)
    ensures Reserve(b, input, env) ==
            Reply(Err(if input.scope.install != ""
                      && input.scope.install != env.install then PermissionDenied else InvalidInput), b)
  {
  }

  // ---- Reserve: the row ----

  function RefsOf(sources: seq<Source>): seq<LevelRef> {
    seq(|sources|, i requires 0 <= i < |sources| => sources[i].ref)
  }

  lemma {:induction false} RefsAre(levels: seq<Level>, sources: seq<Source>, now: int)
    requires CarryAll(levels, sources, now)
    ensures Refs(levels) == RefsOf(sources)
  {
    if levels != [] {
      assert CarryAll(levels[1..], sources[1..], now);
      RefsAre(levels[1..], sources[1..], now);
      assert levels[0].ref == sources[0].ref;
      assert RefsOf(sources) == [sources[0].ref] + RefsOf(sources[1..]);
    }
  }

  /**
   * The admitted row: the request's own fields under the new id at version one,
     charged at exactly the references of its
   * sources, held and unreported. The table and the entries grow by this row and its opening entry.
   */
  lemma ReserveLeaves(b: Book, input: ReserveInput, env: Env)
    requires Inv(b) && Addressed(input, env) && Reserve(b, input, env).outcome.Ok?
    requires forall i | 0 <= i < |b.rows| :: b.rows[i].operation != input.operation
    ensures var r := Reserve(b, input, env).outcome.value; var next := Reserve(b, input, env).book;
            && r.id == env.newId && r.version == 1 && r.install == input.scope.install && r.operation == input.operation
            && r.rootTask == (if input.rootTask.Some? then input.rootTask.value else "")
            && r.currency == input.amount.currency && r.amount == input.amount.micro
            && r.request == Request(input.scope, input.rootTask, input.amount, input.limits)
            && r.charged == RefsOf(Sources(b.budgets, input, env)) && r.state == Reserved && r.report == None
            && next.rows == b.rows + [r] && next.budgets == b.budgets
            && next.entries == b.entries + [Entry(r.id, r.install, EReserved, r.currency, r.amount, false)]
  {
    assert FindOperation(b.rows, input.operation).None?;
    AssessExactly(b.budgets, input, env);
    ChainExact(b.budgets, input, env);
    RefsAre(Chain(b.budgets, input, env).value, Sources(b.budgets, input, env), env.now);
  }

  lemma {:induction false} LastIs(levels: seq<Level>, kind: PositionKind, i: nat)
    requires i < |levels| && levels[i].ref.kind == kind && forall j | i < j < |levels| :: levels[j].ref.kind != kind
    ensures LastOfKind(levels, kind) == levels[i].ref.ref
  {
    if i < |levels| - 1 {
      LastIs(levels[..|levels| - 1], kind, i);
    }
  }

  lemma {:induction false} NoneIs(levels: seq<Level>, kind: PositionKind)
    requires forall j | 0 <= j < |levels| :: levels[j].ref.kind != kind
    ensures LastOfKind(levels, kind) == ""
  {
    if levels != [] {
      NoneIs(levels[..|levels| - 1], kind);
    }
  }

  /** Where the sources of a located request stand: the organizations first to last, then project, worker and root. */
  lemma SourceKinds(budgets: Budgets, input: ReserveInput, env: Env)
    requires Located(input, env)
    ensures var sources := Sources(budgets, input, env); var n := |SnapshotFor(input.scope, env.peer).ancestors|;
            var w := n + 1 + if input.scope.project == "" then 0 else 1;
            var t := w + if input.scope.worker == "" then 0 else 1;
            && |sources| == t + 1 && sources[0].ref.kind == KInstallation && sources[t].ref.kind == KRootTask
            && (forall i | 1 <= i <= n :: sources[i].ref.kind == KOrganization)
            && (n > 0 ==> sources[n].ref.ref == SnapshotFor(input.scope, env.peer).ancestors[0].id)
            && (input.scope.project != "" ==> sources[n + 1].ref == LevelRef(KProject, input.scope.project))
            && (input.scope.worker != "" ==> sources[w].ref == LevelRef(KWorker, input.scope.worker))
  {
    var snap := SnapshotFor(input.scope, env.peer);
    var orgs := Organizations(budgets, input.scope.install, snap.ancestors);
    var sources := Sources(budgets, input, env);
    forall i | 1 <= i <= |snap.ancestors|
      ensures sources[i].ref == LevelRef(KOrganization, snap.ancestors[|snap.ancestors| - i].id)
    {
      var org := snap.ancestors[|snap.ancestors| - i];
      assert sources[i] == orgs[i - 1] == Member(budgets, input.scope.install, KOrganization, org.id, org.limits);
    }
  }

  /** The row names the nearest organization of its chain, and the project and worker its scope names. */
  lemma ReservedScope(b: Book, input: ReserveInput, env: Env)
    requires Inv(b) && Addressed(input, env) && Reserve(b, input, env).outcome.Ok?
    requires forall i | 0 <= i < |b.rows| :: b.rows[i].operation != input.operation
    ensures var r := Reserve(b, input, env).outcome.value; var ancestors :=
            SnapshotFor(input.scope, env.peer).ancestors;
            && r.organization == (if ancestors == [] then "" else ancestors[0].id)
            && r.project == input.scope.project && r.worker == input.scope.worker
  {
    assert FindOperation(b.rows, input.operation).None?;
    AssessExactly(b.budgets, input, env);
    ChainExact(b.budgets, input, env);
    ChainNames(b.budgets, input, env, Chain(b.budgets, input, env).value);
  }

  lemma ChainNames(budgets: Budgets, input: ReserveInput, env: Env, levels: seq<Level>)
    requires Located(input, env) && CarryAll(levels, Sources(budgets, input, env), env.now)
    ensures var ancestors := SnapshotFor(input.scope, env.peer).ancestors;
            LastOfKind(levels, KOrganization) == if ancestors == [] then "" else ancestors[0].id
    ensures LastOfKind(levels, KProject) == input.scope.project && LastOfKind(levels, KWorker) == input.scope.worker
  {
    var ancestors := SnapshotFor(input.scope, env.peer).ancestors;
    SourceKinds(budgets, input, env);
    assert forall i | 0 <= i < |levels| :: levels[i].ref == Sources(budgets, input, env)[i].ref;
    NamesInOrder(levels, |ancestors|, if ancestors == [] then ""
                 else ancestors[0].id, input.scope.project, input.scope.worker);
  }

  lemma NamesInOrder(levels: seq<Level>, n: nat, organization: ID, project: ID, worker: ID)
    requires var w := n + 1 + if project == "" then 0 else 1; var t := w + if worker == "" then 0 else 1;
             && |levels| == t + 1 && levels[0].ref.kind == KInstallation && levels[t].ref.kind == KRootTask
             && (forall i | 1 <= i <= n :: levels[i].ref.kind == KOrganization)
             && (n > 0 ==> levels[n].ref.ref == organization) && (n == 0 ==> organization == "")
             && (project != "" ==> levels[n + 1].ref == LevelRef(KProject, project))
             && (worker != "" ==> levels[w].ref == LevelRef(KWorker, worker))
    ensures LastOfKind(levels, KOrganization) == organization
    ensures LastOfKind(levels, KProject) == project && LastOfKind(levels, KWorker) == worker
  {
    if n > 0 {
      LastIs(levels, KOrganization, n);
    } else {
      NoneIs(levels, KOrganization);
    }
    if project != "" {
      LastIs(levels, KProject, n + 1);
    } else {
      NoneIs(levels, KProject);
    }
    if worker != "" {
      LastIs(levels, KWorker, n + 1 + if project == "" then 0 else 1);
    } else {
      NoneIs(levels, KWorker);
    }
  }
}
