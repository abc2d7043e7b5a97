/** The append-only entries against the reservation table, and conservation of every reserved amount. */
module LedgerEntries {
  import opened Wrappers
  import opened AccountingModel
  import opened PositionRows
  import opened Ledger
  import opened LedgerInvariant
  import opened LedgerRuns

  /** What the entries of one reservation and kind add up to. */
  function SumOf(entries: seq<Entry>, id: ID, kind: EntryKind): int {
    if |entries| == 0 then 0
    else
      var e := entries[|entries| - 1];
      SumOf(entries[..|entries| - 1], id, kind) + if e.reservation == id && e.kind == kind then e.amount else 0
  }

  lemma {:induction false} SumOfConcat(a: seq<Entry>, c: seq<Entry>, id: ID, kind: EntryKind)
    ensures SumOf(a + c, id, kind) == SumOf(a, id, kind) + SumOf(c, id, kind)
  {
    if |c| == 0 {
      assert a + c == a;
    } else {
      assert (a + c)[..|a + c| - 1] == a + c[..|c| - 1];
      SumOfConcat(a, c[..|c| - 1], id, kind);
    }
  }

  lemma {:induction false} SumOfAbsent(entries: seq<Entry>, id: ID, kind: EntryKind)
    requires forall k | 0 <= k < |entries| :: entries[k].reservation != id
    ensures SumOf(entries, id, kind) == 0
  {
    if |entries| > 0 {
      SumOfAbsent(entries[..|entries| - 1], id, kind);
    }
  }

  /** What a transition's items add up to, before the non-positive ones are dropped. */
  function ItemSum(items: seq<Item>, kind: EntryKind): int {
    if |items| == 0 then 0 else (if items[0].kind == kind then Max0(items[0].amount) else 0) + ItemSum(items[1..], kind)
  }

  lemma {:induction false} EntriesSum(r: Reservation, items: seq<Item>, id: ID, kind: EntryKind)
    ensures SumOf(EntriesOf(r, items), id, kind) == if id == r.id then ItemSum(items, kind) else 0
  {
    if |items| > 0 {
      var head := if items[0].amount > 0
                  then [Entry(r.id, r.install, items[0].kind, r.currency, items[0].amount, items[0].advisory)] else [];
      EntriesSum(r, items[1..], id, kind);
      SumOfConcat(head, EntriesOf(r, items[1..]), id, kind);
      assert |head| == 1 ==> head[..0] == [];
    }
  }

  lemma {:induction false} EntriesOwned(r: Reservation, items: seq<Item>, k: nat)
    requires k < |EntriesOf(r, items)|
    ensures EntriesOf(r, items)[k].reservation == r.id
  {
    var head := if items[0].amount > 0 then 1 else 0;
    if k >= head {
      EntriesOwned(r, items[1..], k - head);
    }
  }

  /** The entry totals of one reservation. */
  datatype Totals = Totals(reserved: int, spent: int, estimated: int, unknown: int, released: int)

  function TotalsOf(entries: seq<Entry>, id: ID): Totals {
    Totals(SumOf(entries, id, EReserved), SumOf(entries, id, ESpent), SumOf(entries, id, EEstimated),
           SumOf(entries, id, EUnknown), SumOf(entries, id, EReleased))
  }

  function Pos(x: int): int {
    if x > 0 then x else 0
  }

  /**
   * What a reservation's entries say once its state is known. An unknown entry is the trace of the
   * detour through the unknown state; its absence means the direct path.
   */
  predicate Accounts(r: Reservation, t: Totals)
    requires RowOk(r)
  {
    && t.reserved == r.amount
    && match r.state
       case Reserved => t == Totals(r.amount, 0, 0, 0, 0)
       case Unknown =>
         t == Totals(r.amount, 0, 0, r.report.value.unknown, Pos(r.amount - r.report.value.unknown))
       case Settled =>
         var u := r.report.value;
         && t.spent == (if u.advisory then 0 else u.spent)
         && t.estimated == (if u.advisory then u.spent + u.estimated else u.estimated)
         && 0 <= t.unknown
         && t.released == (if t.unknown > 0 then Pos(r.amount - t.unknown) + Pos(t.unknown - t.spent)
                           else if u.advisory then 0 else Pos(r.amount - u.spent))
       case Released =>
         && t.spent == 0 && t.estimated == 0 && 0 <= t.unknown
         && t.released == Pos(r.amount - t.unknown) + t.unknown
  }

  ghost predicate HasRow(rows: seq<Reservation>, id: ID) {
    exists i :: 0 <= i < |rows| && rows[i].id == id
  }

  ghost predicate Owned(rows: seq<Reservation>, entries: seq<Entry>) {
    forall k | 0 <= k < |entries| :: HasRow(rows, entries[k].reservation)
  }

  ghost predicate EntryInv(b: Book) {
    && Inv(b)
    && Owned(b.rows, b.entries)
    && forall i | 0 <= i < |b.rows| :: Accounts(b.rows[i], TotalsOf(b.entries, b.rows[i].id))
  }

  // ---- Reserve ----

  lemma FreshTotals(b: Book, id: ID)
    requires EntryInv(b) && FindId(b.rows, id).None?
    ensures TotalsOf(b.entries, id) == Totals(0, 0, 0, 0, 0)
  {
    assert forall k | 0 <= k < |b.entries| :: HasRow(b.rows, b.entries[k].reservation);
    SumOfAbsent(b.entries, id, EReserved);
    SumOfAbsent(b.entries, id, ESpent);
    SumOfAbsent(b.entries, id, EEstimated);
    SumOfAbsent(b.entries, id, EUnknown);
    SumOfAbsent(b.entries, id, EReleased);
  }

  lemma AppendOne(entries: seq<Entry>, e: Entry, id: ID)
    ensures TotalsOf(entries + [e], id) ==
            var t := TotalsOf(entries, id);
            if e.reservation != id then t
            else match e.kind
                 case EReserved => t.(reserved := t.reserved + e.amount)
                 case ESpent => t.(spent := t.spent + e.amount)
                 case EEstimated => t.(estimated := t.estimated + e.amount)
                 case EUnknown => t.(unknown := t.unknown + e.amount)
                 case EReleased => t.(released := t.released + e.amount)
  {
    assert (entries + [e])[..|entries|] == entries;
  }

  lemma PostEntries(b: Book, row: Reservation, e: Entry, next: Book)
    requires EntryInv(b) && Inv(next)
    requires FindId(b.rows, row.id).None? && row.state == Reserved && RowOk(row)
    requires e.reservation == row.id && e.kind == EReserved && e.amount == row.amount
    requires next.rows == b.rows + [row] && next.entries == b.entries + [e]
    ensures EntryInv(next)
  {
    forall i | 0 <= i < |next.rows| ensures Accounts(next.rows[i], TotalsOf(next.entries, next.rows[i].id)) {
      AppendOne(b.entries, e, next.rows[i].id);
      if i < |b.rows| {
        assert next.rows[i] == b.rows[i];
      } else {
        FreshTotals(b, row.id);
      }
    }
    forall k | 0 <= k < |next.entries| ensures HasRow(next.rows, next.entries[k].reservation) {
      if k < |b.entries| {
        var i :| 0 <= i < |b.rows| && b.rows[i].id == b.entries[k].reservation;
        assert next.rows[i].id == next.entries[k].reservation;
      } else {
        assert next.rows[|b.rows|].id == next.entries[k].reservation;
      }
    }
  }

  lemma ReserveEntries(b: Book, input: ReserveInput, env: Env)
    requires EntryInv(b)
    ensures EntryInv(Reserve(b, input, env).book)
  {
    ReserveInv(b, input, env);
    var next := Reserve(b, input, env).book;
    if 0 <= input.amount.micro && FindOperation(b.rows, input.operation).None? && Admit(b, input, env).Ok? {
      if next != b {
        var row := next.rows[|b.rows|];
        PostEntries(b, row, Entry(row.id, row.install, EReserved, row.currency, row.amount, false), next);
      }
    }
  }

  // ---- Settle ----

  /** The totals a transition adds. */
  function Added(m: Movement): Totals {
    Totals(ItemSum(m.items, EReserved), ItemSum(m.items, ESpent), ItemSum(m.items, EEstimated),
           ItemSum(m.items, EUnknown), ItemSum(m.items, EReleased))
  }

  function PlusTotals(a: Totals, c: Totals): Totals {
    Totals(a.reserved + c.reserved, a.spent + c.spent, a.estimated + c.estimated, a.unknown + c.unknown,
           a.released + c.released)
  }

  lemma PlusIs(t: Totals, a: Totals, c: Totals)
    requires t.reserved == a.reserved + c.reserved && t.spent == a.spent + c.spent
             && t.estimated == a.estimated + c.estimated
    requires t.unknown == a.unknown + c.unknown && t.released == a.released + c.released
    ensures t == PlusTotals(a, c)
  {
  }

  lemma {:induction false} TotalsConcat(entries: seq<Entry>, more: seq<Entry>, id: ID)
    ensures TotalsOf(entries + more, id) == PlusTotals(TotalsOf(entries, id), TotalsOf(more, id))
  {
    SumOfConcat(entries, more, id, EReserved);
    SumOfConcat(entries, more, id, ESpent);
    SumOfConcat(entries, more, id, EEstimated);
    SumOfConcat(entries, more, id, EUnknown);
    SumOfConcat(entries, more, id, EReleased);
    PlusIs(TotalsOf(entries + more, id), TotalsOf(entries, id), TotalsOf(more, id));
  }

  lemma {:induction false} EntryTotals(r: Reservation, m: Movement, id: ID)
    ensures TotalsOf(EntriesOf(r, m.items), id) == if id == r.id then Added(m) else Totals(0, 0, 0, 0, 0)
  {
    EntriesSum(r, m.items, id, EReserved);
    EntriesSum(r, m.items, id, ESpent);
    EntriesSum(r, m.items, id, EEstimated);
    EntriesSum(r, m.items, id, EUnknown);
    EntriesSum(r, m.items, id, EReleased);
  }

  lemma {:induction false} EntriesAdd(b: Book, r: Reservation, m: Movement, id: ID)
    ensures TotalsOf(b.entries + EntriesOf(r, m.items), id) ==
            if id == r.id then PlusTotals(TotalsOf(b.entries, id), Added(m)) else TotalsOf(b.entries, id)
  {
    TotalsConcat(b.entries, EntriesOf(r, m.items), id);
    EntryTotals(r, m, id);
  }

  /** What a single item adds. */
  function One(i: Item): Totals {
    var x := Max0(i.amount);
    match i.kind
    case EReserved => Totals(x, 0, 0, 0, 0)
    case ESpent => Totals(0, x, 0, 0, 0)
    case EEstimated => Totals(0, 0, x, 0, 0)
    case EUnknown => Totals(0, 0, 0, x, 0)
    case EReleased => Totals(0, 0, 0, 0, x)
  }

  lemma AddedItems(m: Movement)
    ensures |m.items| == 1 ==> Added(m) == One(m.items[0])
    ensures |m.items| == 2 ==> Added(m) == PlusTotals(One(m.items[0]), One(m.items[1]))
    ensures |m.items| == 3 ==> Added(m) == PlusTotals(PlusTotals(One(m.items[0]), One(m.items[1])), One(m.items[2]))
  {
    AddedKind(m.items, EReserved);
    AddedKind(m.items, ESpent);
    AddedKind(m.items, EEstimated);
    AddedKind(m.items, EUnknown);
    AddedKind(m.items, EReleased);
  }

  lemma AddedKind(items: seq<Item>, kind: EntryKind)
    ensures |items| == 1 ==> ItemSum(items, kind) == Amount(items[0], kind)
    ensures |items| == 2 ==> ItemSum(items, kind) == Amount(items[0], kind) + Amount(items[1], kind)
    ensures |items| == 3 ==>
            ItemSum(items, kind) == Amount(items[0], kind) + Amount(items[1], kind) + Amount(items[2], kind)
  {
    if |items| == 3 {
      assert items[1..][1..][1..] == [];
    }
  }

  function Amount(i: Item, kind: EntryKind): int {
    if i.kind == kind then Max0(i.amount) else 0
  }

  lemma SettledAccounts(r: Reservation, u: Usage, t: Totals, m: Movement)
    requires RowOk(r) && r.state.Reserved? && u.Schema() && u.unknown == 0 && SettleToSettled(r, u) == Ok(m)
    requires RowOk(Moved(r, Settled, u)) && Accounts(r, t)
    ensures Accounts(Moved(r, Settled, u), PlusTotals(t, Added(m)))
  {
    AddedItems(m);
  }

  lemma UnknownAccounts(r: Reservation, u: Usage, t: Totals)
    requires RowOk(r) && r.state.Reserved? && u.Schema() && u.unknown > 0
    requires RowOk(Moved(r, Unknown, u)) && Accounts(r, t)
    ensures Accounts(Moved(r, Unknown, u), PlusTotals(t, Added(SettleUnknown(r, u))))
  {
    AddedItems(SettleUnknown(r, u));
  }

  lemma ResolvedAccounts(r: Reservation, u: Usage, t: Totals, m: Movement)
    requires RowOk(r) && r.state.Unknown? && u.Schema() && ResolveSettled(r.report.value, u) == Ok(m)
    requires RowOk(Moved(r, Settled, u)) && Accounts(r, t)
    ensures Accounts(Moved(r, Settled, u), PlusTotals(t, Added(m)))
  {
    AddedItems(m);
  }

  lemma ReleasedAccounts(r: Reservation, u: Usage, t: Totals, m: Movement)
    requires RowOk(r) && u.Schema()
    requires m == if r.state.Unknown? then ResolveReleased(r.report.value) else ReleaseFromReserved(r)
    requires !r.state.Terminal() && RowOk(Moved(r, Released, u)) && Accounts(r, t)
    ensures Accounts(Moved(r, Released, u), PlusTotals(t, Added(m)))
  {
    AddedItems(m);
  }

  /** Every transition carries the accounts of a reservation into the accounts of its next state. */
  lemma TransitionAccounts(r: Reservation, input: SettleInput, t: Totals)
    requires RowOk(r) && !r.state.Terminal() && input.usage.Schema()
    requires CheckReport(r, input).Ok? && Transition(r, input).Ok?
    requires Accounts(r, t)
    ensures var m := Transition(r, input).value;
            RowOk(Moved(r, m.next, input.usage)) && Accounts(Moved(r, m.next, input.usage), PlusTotals(t, Added(m)))
  {
    TransitionBooks(r, input);
    var m := Transition(r, input).value;
    if input.nonexecution {
      ReleasedAccounts(r, input.usage, t, m);
    } else if r.state.Unknown? {
      ResolvedAccounts(r, input.usage, t, m);
    } else if input.usage.unknown > 0 {
      UnknownAccounts(r, input.usage, t);
    } else {
      SettledAccounts(r, input.usage, t, m);
    }
  }

  lemma ExecuteEntries(b: Book, i: nat, input: SettleInput, m: Movement)
    requires EntryInv(b) && i < |b.rows| && !b.rows[i].state.Terminal() && input.usage.Schema()
    requires CheckReport(b.rows[i], input).Ok? && Transition(b.rows[i], input) == Ok(m)
    requires Execute(b, i, input.usage, m).Ok?
    ensures EntryInv(Execute(b, i, input.usage, m).value)
  {
    var r := b.rows[i];
    var next := Execute(b, i, input.usage, m).value;
    TransitionBooks(r, input);
    ExecuteInv(b, i, input.usage, m);
    forall j | 0 <= j < |next.rows| ensures Accounts(next.rows[j], TotalsOf(next.entries, next.rows[j].id)) {
      EntriesAdd(b, r, m, next.rows[j].id);
      if j == i {
        TransitionAccounts(r, input, TotalsOf(b.entries, r.id));
      } else {
        assert next.rows[j] == b.rows[j] && b.rows[j].id != r.id;
      }
    }
    ExecuteOwned(b, i, input.usage, m);
  }

  lemma ExecuteOwned(b: Book, i: nat, u: Usage, m: Movement)
    requires AllFit(b.positions) && Owned(b.rows, b.entries) && i < |b.rows| && Execute(b, i, u, m).Ok?
    ensures Owned(Execute(b, i, u, m).value.rows, Execute(b, i, u, m).value.entries)
  {
    var next := Execute(b, i, u, m).value;
    forall k | 0 <= k < |next.entries| ensures HasRow(next.rows, next.entries[k].reservation) {
      if k < |b.entries| {
        var j :| 0 <= j < |b.rows| && b.rows[j].id == b.entries[k].reservation;
        assert next.rows[j].id == next.entries[k].reservation;
      } else {
        EntriesOwned(b.rows[i], m.items, k - |b.entries|);
        assert next.rows[i].id == next.entries[k].reservation;
      }
    }
  }

  lemma SettleEntries(b: Book, input: SettleInput)
    requires EntryInv(b)
    ensures StoredRows(b) && EntryInv(Settle(b, input).book)
  {
    SettleCommits(b, input);
    if Committed(b, input).Some? {
      ExecuteEntries(b, Committed(b, input).value.0, input, Committed(b, input).value.1);
    }
  }

  /** In every reachable state the entries account for every reservation. */
  lemma {:induction false} ReachableEntries(b: Book, calls: seq<Call>)
    requires Initial(b)
    ensures Inv(b) && EntryInv(Run(b, calls))
  {
    if |calls| > 0 {
      var init := calls[..|calls| - 1];
      ReachableEntries(b, init);
      match calls[|calls| - 1]
      case CallReserve(input, env) => ReserveEntries(Run(b, init), input, env);
      case CallSettle(input) => SettleEntries(Run(b, init), input);
      case CallBudgets(_) =>
    }
  }

  /** The reports that closed a reservation stayed within what it held at the time. */
  predicate ClosedInBound(r: Reservation, unknown: int)
    requires RowOk(r) && r.state.Terminal()
  {
    var u := r.report.value;
    && unknown <= r.amount
    && (if r.state.Released? then true
        else if u.advisory then unknown > 0 || r.amount == 0
        else u.spent <= if unknown > 0 then unknown else r.amount)
  }

  /**
   * Conservation: for a terminal reservation of any reachable state the reserved entry equals the sum
   * of its spent and released entries exactly when its reports stayed in bound.
   */
  lemma Conservation(b: Book, calls: seq<Call>, i: nat)
    requires Initial(b) && Inv(b)
    requires i < |Run(b, calls).rows| && Run(b, calls).rows[i].state.Terminal()
    ensures var r := Run(b, calls).rows[i];
            var t := TotalsOf(Run(b, calls).entries, r.id);
            t.reserved == t.spent + t.released <==> ClosedInBound(r, t.unknown)
  {
    ReachableEntries(b, calls);
  }
}
