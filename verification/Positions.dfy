/** Position rows: creation and pinning, checked deltas, and what a loop over charged references does to them. */
module PositionRows {
  import opened Wrappers
  import opened Results
  import opened Int64
  import opened AccountingModel
  import opened Limits

  /** The row for ref: created pinned to the currency when absent, re-pinned when unconfigured and empty. */
  function PinnedRow(ps: Positions, ref: LevelRef, install: ID, currency: string): Position {
    var p := if ref in ps then ps[ref] else Position(install, currency, ZERO, 1);
    if p.currency == UNCONFIGURED && currency != UNCONFIGURED && p.counters.ZeroAmounts()
    then p.(currency := currency, version := p.version + 1)
    else p
  }

  /** One row update: refused exactly when a true sum leaves 0..MAX. */
  function ApplyDeltas(p: Position, d: Counters): Result<Position> {
    if p.counters.Plus(d).Fits()
    then Ok(p.(counters := p.counters.Plus(d), version := p.version + 1))
    else Err(InvalidInput)
  }

  ghost predicate AllFit(ps: Positions) {
    forall ref | ref in ps :: ps[ref].counters.Fits()
  }

  // ---- One set of deltas over every charged reference ----

  /** The loop of settleDeltas: each reference in turn, a repeated reference every time it occurs. */
  function ApplyAll(ps: Positions, refs: seq<LevelRef>, d: Counters): Result<Positions>
    requires AllFit(ps)
    decreases |refs|
  {
    if |refs| == 0 then Ok(ps)
    else if refs[0] !in ps then Err(InternalError)
    else
      var p :- ApplyDeltas(ps[refs[0]], d);
      ApplyAll(ps[refs[0] := p], refs[1..], d)
  }

  /** How often a chain charges a reference. */
  function Count(refs: seq<LevelRef>, ref: LevelRef): nat {
    if |refs| == 0 then 0 else (if refs[0] == ref then 1 else 0) + Count(refs[1..], ref)
  }

  lemma {:induction false} CountMember(refs: seq<LevelRef>, ref: LevelRef)
    ensures ref in refs <==> Count(refs, ref) > 0
  {
    if |refs| > 0 {
      CountMember(refs[1..], ref);
    }
  }

  lemma TimesPlus(n: nat, x: int, y: int)
    ensures n * (x + y) == n * x + n * y
  {
  }

  lemma TimesSign(n: nat, x: int)
    ensures 0 <= x ==> 0 <= n * x
    ensures x <= 0 ==> n * x <= 0
    ensures 0 < x && 0 < n ==> 0 < n * x
  {
  }

  function Scale(n: nat, c: Counters): Counters {
    Counters(n * c.spent, n * c.reserved, n * c.unknown, n * c.estimated, n * c.concurrency)
  }

  lemma ScaleStep(n: nat, c: Counters)
    ensures Scale(n + 1, c) == c.Plus(Scale(n, c))
    ensures Scale(0, c) == ZERO
  {
  }

  lemma ScalePlus(n: nat, c: Counters, d: Counters)
    ensures Scale(n, c.Plus(d)) == Scale(n, c).Plus(Scale(n, d))
  {
    TimesPlus(n, c.spent, d.spent);
    TimesPlus(n, c.reserved, d.reserved);
    TimesPlus(n, c.unknown, d.unknown);
    TimesPlus(n, c.estimated, d.estimated);
    TimesPlus(n, c.concurrency, d.concurrency);
  }

  lemma ScaleSigns(n: nat, c: Counters)
    ensures var t := Scale(n, c);
            && (0 <= c.spent ==> 0 <= t.spent) && (c.spent <= 0 ==> t.spent <= 0)
            && (0 <= c.reserved ==> 0 <= t.reserved) && (c.reserved <= 0 ==> t.reserved <= 0)
            && (0 <= c.unknown ==> 0 <= t.unknown) && (c.unknown <= 0 ==> t.unknown <= 0)
            && (0 <= c.estimated ==> 0 <= t.estimated) && (c.estimated <= 0 ==> t.estimated <= 0)
            && (0 <= c.concurrency ==> 0 <= t.concurrency) && (c.concurrency <= 0 ==> t.concurrency <= 0)
  {
    TimesSign(n, c.spent);
    TimesSign(n, c.reserved);
    TimesSign(n, c.unknown);
    TimesSign(n, c.estimated);
    TimesSign(n, c.concurrency);
  }

  lemma ScaleExposure(n: nat, c: Counters)
    ensures Scale(n, c).Exposure() == n * c.Exposure()
  {
    TimesPlus(n, c.spent, c.reserved);
    TimesPlus(n, c.spent + c.reserved, c.unknown);
  }

  /** c charged once for every occurrence of ref in refs. */
  function Charge(refs: seq<LevelRef>, ref: LevelRef, c: Counters): Counters {
    Scale(Count(refs, ref), c)
  }

  lemma ChargeAbsent(refs: seq<LevelRef>, ref: LevelRef, c: Counters)
    requires ref !in refs
    ensures Charge(refs, ref, c) == ZERO
  {
    CountMember(refs, ref);
    ScaleStep(0, c);
  }

  lemma ChargeCons(refs: seq<LevelRef>, ref: LevelRef, c: Counters)
    requires |refs| > 0
    ensures Charge(refs, ref, c) == if refs[0] == ref then c.Plus(Charge(refs[1..], ref, c))
            else Charge(refs[1..], ref, c)
  {
    ScaleStep(Count(refs[1..], ref), c);
  }

  ghost predicate Landed(ps: Positions, refs: seq<LevelRef>, d: Counters, qs: Positions) {
    && qs.Keys == ps.Keys
    && forall ref | ref in ps ::
         && qs[ref].counters == ps[ref].counters.Plus(Charge(refs, ref, d))
         && qs[ref].currency == ps[ref].currency
         && qs[ref].install == ps[ref].install
  }

  ghost predicate Room(ps: Positions, refs: seq<LevelRef>, d: Counters) {
    forall ref | ref in refs :: ref in ps && ps[ref].counters.Plus(Charge(refs, ref, d)).Fits()
  }

  /** If the row still fits after all of its charges, it fits after the first of them. */
  lemma FirstChargeFits(p: Counters, refs: seq<LevelRef>, d: Counters)
    requires |refs| > 0 && p.Fits() && p.Plus(Charge(refs, refs[0], d)).Fits()
    ensures p.Plus(d).Fits()
  {
    ChargeCons(refs, refs[0], d);
    ScaleSigns(Count(refs[1..], refs[0]), d);
  }

  lemma RestKeepsRoom(ps: Positions, refs: seq<LevelRef>, d: Counters, p: Position)
    requires |refs| > 0 && refs[0] in ps && p.counters == ps[refs[0]].counters.Plus(d)
    requires Room(ps, refs, d)
    ensures Room(ps[refs[0] := p], refs[1..], d)
  {
    forall ref | ref in refs[1..]
      ensures ref in ps[refs[0] := p] && ps[refs[0] := p][ref].counters.Plus(Charge(refs[1..], ref, d)).Fits()
    {
      assert ref in refs;
      var before, mid := ps[ref].counters, ps[refs[0] := p][ref].counters;
      MovedStep(refs, d, ref, before, mid, mid.Plus(Charge(refs[1..], ref, d)));
    }
  }

  lemma {:induction false} ApplyAllLands(ps: Positions, refs: seq<LevelRef>, d: Counters)
    requires AllFit(ps)
    requires ApplyAll(ps, refs, d).Ok?
    ensures Landed(ps, refs, d, ApplyAll(ps, refs, d).value)
    ensures AllFit(ApplyAll(ps, refs, d).value)
    ensures forall ref | ref in refs :: ref in ps
    decreases |refs|
  {
    if |refs| > 0 {
      var ref := refs[0];
      var p := ApplyDeltas(ps[ref], d).value;
      ApplyAllLands(ps[ref := p], refs[1..], d);
      LandedStep(ps, refs, d, p, ApplyAll(ps, refs, d).value);
    }
  }

  lemma {:induction false} NoCharge(a: Counters, refs: seq<LevelRef>, ref: LevelRef, c: Counters)
    requires ref !in refs
    ensures a.Plus(Charge(refs, ref, c)) == a
  {
    ChargeAbsent(refs, ref, c);
  }

  lemma MovedStep(refs: seq<LevelRef>, d: Counters, ref: LevelRef, before: Counters, mid: Counters, after: Counters)
    requires |refs| > 0
    requires mid == if refs[0] == ref then before.Plus(d) else before
    requires after == mid.Plus(Charge(refs[1..], ref, d))
    ensures after == before.Plus(Charge(refs, ref, d))
  {
    ChargeCons(refs, ref, d);
  }

  lemma LandedStep(ps: Positions, refs: seq<LevelRef>, d: Counters, p: Position, qs: Positions)
    requires |refs| > 0 && refs[0] in ps
    requires p.counters == ps[refs[0]].counters.Plus(d) && p.currency == ps[refs[0]].currency
             && p.install == ps[refs[0]].install
    requires Landed(ps[refs[0] := p], refs[1..], d, qs)
    ensures Landed(ps, refs, d, qs)
  {
    var mid := ps[refs[0] := p];
    assert mid.Keys == ps.Keys;
    forall ref | ref in ps
      ensures qs[ref].counters == ps[ref].counters.Plus(Charge(refs, ref, d))
    {
      MovedStep(refs, d, ref, ps[ref].counters, mid[ref].counters, qs[ref].counters);
    }
    forall ref | ref in ps
      ensures qs[ref].currency == ps[ref].currency && qs[ref].install == ps[ref].install
    {
      assert mid[ref].currency == ps[ref].currency && mid[ref].install == ps[ref].install;
    }
  }

  lemma {:induction false} RoomSuffices(ps: Positions, refs: seq<LevelRef>, d: Counters)
    requires AllFit(ps)
    requires Room(ps, refs, d)
    ensures ApplyAll(ps, refs, d).Ok?
    decreases |refs|
  {
    if |refs| > 0 {
      var ref := refs[0];
      FirstChargeFits(ps[ref].counters, refs, d);
      var p := ApplyDeltas(ps[ref], d).value;
      RestKeepsRoom(ps, refs, d, p);
      RoomSuffices(ps[ref := p], refs[1..], d);
    }
  }

  /**
   * The delta loop is exact: it succeeds if and only if every charged row exists and its true final
   * counters lie in 0..MAX, and then every row moves by its multiplicity and nothing else moves.
   */
  lemma ApplyAllExact(ps: Positions, refs: seq<LevelRef>, d: Counters)
    requires AllFit(ps)
    ensures ApplyAll(ps, refs, d).Ok? <==> Room(ps, refs, d)
    ensures ApplyAll(ps, refs, d).Ok? ==>
              Landed(ps, refs, d, ApplyAll(ps, refs, d).value) && AllFit(ApplyAll(ps, refs, d).value)
  {
    if ApplyAll(ps, refs, d).Ok? {
      ApplyAllLands(ps, refs, d);
    }
    if Room(ps, refs, d) {
      RoomSuffices(ps, refs, d);
    }
  }

  function At(ps: Positions, ref: LevelRef): Counters {
    if ref in ps then ps[ref].counters else ZERO
  }

  lemma ApplyAllMoves(ps: Positions, refs: seq<LevelRef>, d: Counters, ref: LevelRef)
    requires AllFit(ps) && ApplyAll(ps, refs, d).Ok?
    ensures At(ApplyAll(ps, refs, d).value, ref) == At(ps, ref).Plus(Charge(refs, ref, d))
  {
    ApplyAllLands(ps, refs, d);
    LandedAt(ps, refs, d, ApplyAll(ps, refs, d).value, ref);
  }

  lemma LandedAt(ps: Positions, refs: seq<LevelRef>, d: Counters, qs: Positions, ref: LevelRef)
    requires Landed(ps, refs, d, qs) && forall r | r in refs :: r in ps
    ensures At(qs, ref) == At(ps, ref).Plus(Charge(refs, ref, d))
  {
    if ref in ps {
      assert qs[ref].counters == ps[ref].counters.Plus(Charge(refs, ref, d));
    } else {
      ChargeAbsent(refs, ref, d);
      assert At(qs, ref) == ZERO && At(ps, ref) == ZERO;
    }
  }

  /** Charging a vector that does not raise exposure, any number of times, does not raise it. */
  lemma ExposureAfter(total: Counters, n: nat, d: Counters)
    ensures d.Exposure() <= 0 ==> total.Plus(Scale(n, d)).Exposure() <= total.Exposure()
    ensures d.Exposure() > 0 && n > 0 ==> total.Plus(Scale(n, d)).Exposure() > total.Exposure()
    ensures d.concurrency <= 0 ==> total.Plus(Scale(n, d)).concurrency <= total.concurrency
  {
    ScaleExposure(n, d);
    TimesSign(n, d.Exposure());
    TimesSign(n, d.concurrency);
  }

  // ---- Charging a chain of levels ----

  /** The capacity check of one level; the exposure sum itself must stay an int64. */
  function SpendCheck(c: Counters, l: Level, amount: int64): Result<()> {
    if amount > 0 && l.caps.spend.Some? then
      if c.Exposure() + amount > MAX then Err(InvalidInput)
      else if amount > l.caps.spend.value && l.ref.kind == KRootTask then Err(InvalidInput)
      else if c.Exposure() + amount > l.caps.spend.value then Err(BudgetUnavailable)
      else Ok(())
    else Ok(())
  }

  /** What one admitted reservation adds to a charged row. */
  function Admission(amount: int64): Counters {
    Counters(0, amount, 0, 0, 1)
  }

  /** Checks one row's currency and capacity and books the admission on it. */
  function AdmitAt(p: Position, l: Level, amount: Money): Result<Position> {
    if p.currency != UNCONFIGURED && p.currency != amount.currency then Err(InvalidInput) else
    var _ :- SpendCheck(p.counters, l, amount.micro);
    if l.caps.concurrency.Some? && l.caps.concurrency.value < p.counters.concurrency + 1 <= MAX
    then Err(BudgetUnavailable)
    else ApplyDeltas(p, Admission(amount.micro))
  }

  /** An admitted row carries the admission, a matching or unconfigured currency, and respects the level's caps. */
  lemma AdmitAtMeaning(p: Position, l: Level, amount: Money)
    requires p.counters.Fits() && 0 <= amount.micro
    requires AdmitAt(p, l, amount).Ok?
    ensures var q := AdmitAt(p, l, amount).value;
            && q.counters == p.counters.Plus(Admission(amount.micro)) && q.counters.Fits()
            && q.currency == p.currency && q.install == p.install
            && (q.currency == UNCONFIGURED || q.currency == amount.currency)
            && (amount.micro > 0 && l.caps.spend.Some? ==>
                  amount.micro <= l.caps.spend.value && q.counters.Exposure() <= l.caps.spend.value)
            && (l.caps.concurrency.Some? ==> q.counters.concurrency <= l.caps.concurrency.value)
  {
  }

  function ChargeLevel(ps: Positions, l: Level, install: ID, amount: Money): Result<Positions>
    requires AllFit(ps)
  {
    var q :- AdmitAt(PinnedRow(ps, l.ref, install, amount.currency), l, amount);
    Ok(ps[l.ref := q])
  }

  lemma ChargeLevelFits(ps: Positions, l: Level, install: ID, amount: Money)
    requires AllFit(ps) && 0 <= amount.micro
    requires ChargeLevel(ps, l, install, amount).Ok?
    ensures AllFit(ChargeLevel(ps, l, install, amount).value)
  {
    AdmitAtMeaning(PinnedRow(ps, l.ref, install, amount.currency), l, amount);
  }

  function ChargeAll(ps: Positions, levels: seq<Level>, install: ID, amount: Money): Result<Positions>
    requires AllFit(ps) && 0 <= amount.micro
    decreases |levels|
  {
    if |levels| == 0 then Ok(ps) else
    var qs :- ChargeLevel(ps, levels[0], install, amount);
    ChargeLevelFits(ps, levels[0], install, amount);
    ChargeAll(qs, levels[1..], install, amount)
  }

  function Refs(levels: seq<Level>): seq<LevelRef> {
    if |levels| == 0 then [] else [levels[0].ref] + Refs(levels[1..])
  }

  lemma {:induction false} RefsMember(levels: seq<Level>, ref: LevelRef)
    ensures ref in Refs(levels) <==> exists i :: 0 <= i < |levels| && levels[i].ref == ref
  {
    if |levels| > 0 {
      RefsMember(levels[1..], ref);
      if ref in Refs(levels[1..]) {
        var i :| 0 <= i < |levels[1..]| && levels[1..][i].ref == ref;
        assert levels[i + 1].ref == ref;
      } else if exists i :: 0 <= i < |levels| && levels[i].ref == ref {
        var i :| 0 <= i < |levels| && levels[i].ref == ref;
        if i > 0 {
          assert levels[1..][i - 1].ref == ref;
        }
      }
    }
  }

  lemma PinnedRowCounters(ps: Positions, ref: LevelRef, install: ID, currency: string)
    ensures PinnedRow(ps, ref, install, currency).counters == At(ps, ref)
  {
  }

  lemma AtUpdate(ps: Positions, key: LevelRef, q: Position, ref: LevelRef, d: Counters)
    requires q.counters == At(ps, key).Plus(d)
    ensures At(ps[key := q], ref) == if key == ref then At(ps, ref).Plus(d) else At(ps, ref)
  {
  }

  /** The row a charged level writes. */
  function ChargedRow(ps: Positions, l: Level, install: ID, amount: Money): Position
    requires AllFit(ps) && ChargeLevel(ps, l, install, amount).Ok?
  {
    AdmitAt(PinnedRow(ps, l.ref, install, amount.currency), l, amount).value
  }

  lemma ChargedRowCounters(ps: Positions, l: Level, install: ID, amount: Money)
    requires AllFit(ps) && 0 <= amount.micro && ChargeLevel(ps, l, install, amount).Ok?
    ensures ChargedRow(ps, l, install, amount).counters == At(ps, l.ref).Plus(Admission(amount.micro))
  {
    PinnedRowCounters(ps, l.ref, install, amount.currency);
    AdmitAtMeaning(PinnedRow(ps, l.ref, install, amount.currency), l, amount);
  }

  lemma {:induction false} AdmissionStep(levels: seq<Level>, ps: Positions, q: Position, rs: Positions, d: Counters,
                                         ref: LevelRef)
    requires |levels| > 0 && q.counters == At(ps, levels[0].ref).Plus(d)
    requires At(rs, ref) == At(ps[levels[0].ref := q], ref).Plus(Charge(Refs(levels[1..]), ref, d))
    ensures At(rs, ref) == At(ps, ref).Plus(Charge(Refs(levels), ref, d))
  {
    AtUpdate(ps, levels[0].ref, q, ref, d);
    assert Refs(levels)[0] == levels[0].ref && Refs(levels)[1..] == Refs(levels[1..]);
    MovedStep(Refs(levels), d, ref, At(ps, ref), At(ps[levels[0].ref := q], ref), At(rs, ref));
  }

  /** Charging a chain charges its first level and then the rest. */
  lemma {:induction false} ChargeAllHead(ps: Positions, levels: seq<Level>, install: ID,
                                         amount: Money) returns (q: Position, qs: Positions)
    requires AllFit(ps) && 0 <= amount.micro && |levels| > 0
    requires ChargeAll(ps, levels, install, amount).Ok?
    ensures qs == ps[levels[0].ref := q] && q.counters == At(ps, levels[0].ref).Plus(Admission(amount.micro))
    ensures AllFit(qs) && ChargeAll(qs, levels[1..], install, amount) == ChargeAll(ps, levels, install, amount)
  {
    ChargeLevelFits(ps, levels[0], install, amount);
    ChargedRowCounters(ps, levels[0], install, amount);
    q, qs := ChargedRow(ps, levels[0], install, amount), ChargeLevel(ps, levels[0], install, amount).value;
  }

  /** Charging a chain adds one admission for every occurrence of a reference. */
  lemma {:induction false} ChargeAllAdds(ps: Positions, levels: seq<Level>, install: ID, amount: Money, ref: LevelRef)
    requires AllFit(ps) && 0 <= amount.micro
    requires ChargeAll(ps, levels, install, amount).Ok?
    ensures At(ChargeAll(ps, levels, install, amount).value, ref)
            == At(ps, ref).Plus(Charge(Refs(levels), ref, Admission(amount.micro)))
    decreases |levels|
  {
    if |levels| == 0 {
      NoCharge(At(ps, ref), Refs(levels), ref, Admission(amount.micro));
    } else {
      var q, qs := ChargeAllHead(ps, levels, install, amount);
      ChargeAllAdds(qs, levels[1..], install, amount, ref);
      AdmissionStep(levels, ps, q, ChargeAll(qs, levels[1..], install, amount).value, Admission(amount.micro), ref);
    }
  }

  lemma {:induction false} ChargeAllFits(ps: Positions, levels: seq<Level>, install: ID, amount: Money)
    requires AllFit(ps) && 0 <= amount.micro
    requires ChargeAll(ps, levels, install, amount).Ok?
    ensures AllFit(ChargeAll(ps, levels, install, amount).value)
    decreases |levels|
  {
    if |levels| > 0 {
      ChargeLevelFits(ps, levels[0], install, amount);
      ChargeAllFits(ChargeLevel(ps, levels[0], install, amount).value, levels[1..], install, amount);
    }
  }

  /** Charging a chain creates the rows it names and touches no other. */
  lemma {:induction false} ChargeAllRows(ps: Positions, levels: seq<Level>, install: ID, amount: Money, ref: LevelRef)
    requires AllFit(ps) && 0 <= amount.micro
    requires ChargeAll(ps, levels, install, amount).Ok?
    ensures ref in ChargeAll(ps, levels, install, amount).value <==> ref in ps || ref in Refs(levels)
    ensures ref in ps && ref !in Refs(levels) ==> ChargeAll(ps, levels, install, amount).value[ref] == ps[ref]
    decreases |levels|
  {
    if |levels| > 0 {
      ChargeLevelFits(ps, levels[0], install, amount);
      ChargeAllRows(ChargeLevel(ps, levels[0], install, amount).value, levels[1..], install, amount, ref);
    }
  }

  /** Every level of an admitted chain declares a spend cap that covers the amount, if it declares one. */
  lemma {:induction false} ChargeAllCovers(ps: Positions, levels: seq<Level>, install: ID, amount: Money, i: nat)
    requires AllFit(ps) && 0 < amount.micro
    requires ChargeAll(ps, levels, install, amount).Ok?
    requires i < |levels| && levels[i].caps.spend.Some?
    ensures amount.micro <= levels[i].caps.spend.value
    decreases |levels|
  {
    var l := levels[0];
    AdmitAtMeaning(PinnedRow(ps, l.ref, install, amount.currency), l, amount);
    if i > 0 {
      ChargeLevelFits(ps, l, install, amount);
      ChargeAllCovers(ChargeLevel(ps, l, install, amount).value, levels[1..], install, amount, i - 1);
    }
  }

  /** The chain names a spend cap of at most cap wherever it names ref. */
  ghost predicate SpendCapped(levels: seq<Level>, ref: LevelRef, cap: int) {
    forall i | 0 <= i < |levels| && levels[i].ref == ref :: levels[i].caps.spend.Some?
      && levels[i].caps.spend.value <= cap
  }

  ghost predicate SlotsCapped(levels: seq<Level>, ref: LevelRef, cap: int) {
    forall i | 0 <= i < |levels| && levels[i].ref == ref ::
      levels[i].caps.concurrency.Some? && levels[i].caps.concurrency.value <= cap
  }

  /** After an admission of a positive amount no charged row stands above the cap the chain names for it. */
  lemma {:induction false} ChargeAllSpendCapped(ps: Positions, levels: seq<Level>, install: ID, amount: Money,
                                                ref: LevelRef, cap: int)
    requires AllFit(ps) && 0 < amount.micro
    requires ChargeAll(ps, levels, install, amount).Ok?
    requires ref in Refs(levels) && SpendCapped(levels, ref, cap)
    ensures At(ChargeAll(ps, levels, install, amount).value, ref).Exposure() <= cap
    decreases |levels|
  {
    var l, rest := levels[0], levels[1..];
    AdmitAtMeaning(PinnedRow(ps, l.ref, install, amount.currency), l, amount);
    ChargeLevelFits(ps, l, install, amount);
    var qs := ChargeLevel(ps, l, install, amount).value;
    if ref in Refs(rest) {
      assert SpendCapped(rest, ref, cap) by {
        assert forall i | 0 <= i < |rest| :: rest[i] == levels[i + 1];
      }
      ChargeAllSpendCapped(qs, rest, install, amount, ref, cap);
    } else {
      ChargeAllAdds(qs, rest, install, amount, ref);
      ChargeAbsent(Refs(rest), ref, Admission(amount.micro));
    }
  }

  lemma {:induction false} ChargeAllSlotsCapped(ps: Positions, levels: seq<Level>, install: ID, amount: Money,
                                                ref: LevelRef, cap: int)
    requires AllFit(ps) && 0 <= amount.micro
    requires ChargeAll(ps, levels, install, amount).Ok?
    requires ref in Refs(levels) && SlotsCapped(levels, ref, cap)
    ensures At(ChargeAll(ps, levels, install, amount).value, ref).concurrency <= cap
    decreases |levels|
  {
    var l, rest := levels[0], levels[1..];
    AdmitAtMeaning(PinnedRow(ps, l.ref, install, amount.currency), l, amount);
    ChargeLevelFits(ps, l, install, amount);
    var qs := ChargeLevel(ps, l, install, amount).value;
    if ref in Refs(rest) {
      assert SlotsCapped(rest, ref, cap) by {
        assert forall i | 0 <= i < |rest| :: rest[i] == levels[i + 1];
      }
      ChargeAllSlotsCapped(qs, rest, install, amount, ref, cap);
    } else {
      ChargeAllAdds(qs, rest, install, amount, ref);
      ChargeAbsent(Refs(rest), ref, Admission(amount.micro));
    }
  }
}
