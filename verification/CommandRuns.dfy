/** Safety of the command protocol over every interleaving of callers and crashes. */
module CommandRuns {
  import opened Wrappers
  import opened Evidence
  import opened Commands
  import opened CommandInvariant

  // ---- The invariant ----

  ghost predicate Distinct(log: seq<Event>) {
    forall i, j | 0 <= i < j < |log| :: log[i] != log[j]
  }

  /** The record of an identity tells which effects were committed under it. */
  ghost predicate Recorded(r: Row, log: seq<Event>) {
    && (r.dispositions == 1 && r.status == Failed ==> Handled(r.identity) !in log && Prepared(r.identity) !in log)
    && (r.dispositions == 2 || r.status != Failed ==> Handled(r.identity) in log || Prepared(r.identity) in log)
    && (r.dispositions == 2 ==> Performed(r.identity) in log)
    && (Finished(r.identity) in log ==> r.dispositions == 2)
  }

  /** Local IO happens between its two transactions, and an identity is either ordinary or local IO. */
  ghost predicate Ordered(log: seq<Event>, x: Identity) {
    && (Finished(x) in log ==> Performed(x) in log)
    && (Performed(x) in log ==> Prepared(x) in log)
    && !(Handled(x) in log && Prepared(x) in log)
  }

  ghost predicate LogInv(rows: seq<Row>, log: seq<Event>) {
    && Distinct(log)
    && (forall e | e in log :: Held(rows, e.identity))
    && (forall i | 0 <= i < |rows| :: Recorded(rows[i], log))
    && (forall x :: Ordered(log, x))
  }

  /**
   * An envelope a caller received is the retained one, or the pending one it replaced, or differs in kept-back data
   * only.
   */
  ghost predicate Backed(reply: Envelope, r: Row) {
    reply == r.result || reply == r.first || (r.dispositions == 2 && SameUpToData(reply, r.result))
  }

  ghost predicate RowOf(r: Row, call: Call) {
    r.identity == call.identity && r.digest == call.digest
  }

  /** The record a caller owns is pending, unless the caller is refusing a completion that may have been committed. */
  ghost predicate OwnedRow(r: Row, call: Call)
    requires call.phase.OwnsIO()
  {
    RowOf(r, call) && r.id == call.phase.Command() && (call.phase.RefusingFinish? || r.Replaceable())
  }

  ghost predicate Owned(rows: seq<Row>, call: Call)
    requires call.phase.OwnsIO()
  {
    exists i :: 0 <= i < |rows| && OwnedRow(rows[i], call)
  }

  ghost predicate Answered(rows: seq<Row>, call: Call, reply: Envelope) {
    exists i :: 0 <= i < |rows| && RowOf(rows[i], call) && Backed(reply, rows[i])
  }

  ghost predicate CallOk(rows: seq<Row>, log: seq<Event>, call: Call) {
    && (call.phase.OwnsIO() ==>
          && Owned(rows, call)
          && Prepared(call.identity) in log
          && (call.phase.Performing? <==> Performed(call.identity) !in log))
    && (call.phase.Done? && call.phase.reply.Delivered? ==> Answered(rows, call, call.phase.reply.result))
  }

  ghost predicate WInv(w: World) {
    && RowsInv(w.rows)
    && LogInv(w.rows, w.log)
    && (forall c | c in w.calls :: CallOk(w.rows, w.log, w.calls[c]))
    && (forall c, d | c in w.calls && d in w.calls && c != d && w.calls[c].phase.OwnsIO()
        && w.calls[d].phase.OwnsIO() ::
          w.calls[c].identity != w.calls[d].identity)
  }

  // ---- Preservation, one kind of move at a time ----

  lemma OpensLog(rows: seq<Row>, log: seq<Event>, call: Call, m: Move, result: Envelope, e: Effect)
    requires RowsInv(rows) && LogInv(rows, log) && Opens(rows, log, call, m, result, e)
    ensures LogInv(m.rows, m.log)
  {
    var x := call.identity;
    assert m.rows[|rows|].identity == x;
    assert forall ev | ev in log :: ev.identity != x;
    forall ev | ev in m.log ensures Held(m.rows, ev.identity) {
      if ev in log {
        var i :| 0 <= i < |rows| && rows[i].identity == ev.identity;
        assert m.rows[i].identity == ev.identity;
      }
    }
    forall i | 0 <= i < |m.rows| ensures Recorded(m.rows[i], m.log) {
      assert i < |rows| ==> m.rows[i] == rows[i] && Recorded(rows[i], log);
    }
    forall y ensures Ordered(m.log, y) {
      assert Ordered(log, y);
    }
  }

  lemma OpensOther(rows: seq<Row>, log: seq<Event>, call: Call, m: Move, result: Envelope, e: Effect, other: Call)
    requires RowsInv(rows) && LogInv(rows, log) && Opens(rows, log, call, m, result, e) && CallOk(rows, log, other)
    ensures CallOk(m.rows, m.log, other)
    ensures other.phase.OwnsIO() ==> other.identity != call.identity
  {
    if other.phase.OwnsIO() {
      var i :| 0 <= i < |rows| && OwnedRow(rows[i], other);
      assert m.rows[i] == rows[i];
    }
    if other.phase.Done? && other.phase.reply.Delivered? {
      var i :| 0 <= i < |rows| && RowOf(rows[i], other) && Backed(other.phase.reply.result, rows[i]);
      assert m.rows[i] == rows[i];
    }
  }

  lemma OpensSelf(rows: seq<Row>, log: seq<Event>, call: Call, m: Move, result: Envelope, e: Effect)
    requires RowsInv(rows) && LogInv(rows, log) && Opens(rows, log, call, m, result, e)
    ensures CallOk(m.rows, m.log, call.(phase := m.phase))
  {
    assert m.rows[|rows|] == FirstRow(call.identity, call.digest, result);
    assert forall ev | ev in log :: ev.identity != call.identity;
  }

  lemma ClosesLog(rows: seq<Row>, log: seq<Event>, call: Call, m: Move, i: nat, result: Envelope, finished: bool)
    requires RowsInv(rows) && LogInv(rows, log) && call.phase.OwnsIO() && !call.phase.Performing?
             && CallOk(rows, log, call)
    requires Closes(rows, log, call, m, i, result, finished)
    ensures rows[i].identity == call.identity
    ensures LogInv(m.rows, m.log)
  {
    forall ev | ev in m.log ensures Held(m.rows, ev.identity) {
      if ev in log {
        var j :| 0 <= j < |rows| && rows[j].identity == ev.identity;
        assert m.rows[j].identity == ev.identity;
      } else {
        assert m.rows[i].identity == ev.identity;
      }
    }
    forall j | 0 <= j < |m.rows| ensures Recorded(m.rows[j], m.log) {
      assert Recorded(rows[j], log);
    }
    forall y ensures Ordered(m.log, y) {
      assert Ordered(log, y);
    }
  }

  lemma ClosesOther(rows: seq<Row>, log: seq<Event>, call: Call, m: Move, i: nat, result: Envelope, finished: bool,
                    other: Call)
    requires RowsInv(rows) && call.phase.OwnsIO() && CallOk(rows, log, call) && CallOk(rows, log, other)
    requires Closes(rows, log, call, m, i, result, finished)
    requires other.phase.OwnsIO() ==> other.identity != call.identity
    ensures CallOk(m.rows, m.log, other)
  {
    if other.phase.OwnsIO() {
      var j :| 0 <= j < |rows| && OwnedRow(rows[j], other);
      assert rows[i].identity == call.identity;
      assert m.rows[j] == rows[j];
    }
    if other.phase.Done? && other.phase.reply.Delivered? {
      var j :| 0 <= j < |rows| && RowOf(rows[j], other) && Backed(other.phase.reply.result, rows[j]);
      assert RowOk(rows[j]);
      assert RowOf(m.rows[j], other) && Backed(other.phase.reply.result, m.rows[j]);
    }
  }

  lemma ClosesSelf(rows: seq<Row>, log: seq<Event>, call: Call, m: Move, i: nat, result: Envelope, finished: bool)
    requires RowsInv(rows) && call.phase.OwnsIO() && !call.phase.Performing? && CallOk(rows, log, call)
    requires Closes(rows, log, call, m, i, result, finished)
    ensures CallOk(m.rows, m.log, call.(phase := m.phase))
  {
    assert RowOf(rows[i], call);
    if m.phase.OwnsIO() {
      assert OwnedRow(m.rows[i], call.(phase := m.phase));
    } else if m.phase.reply.Delivered? {
      assert Backed(m.phase.reply.result, m.rows[i]);
    }
  }

  // ---- One step ----

  lemma IdleStep(w: World, c: CallId, m: Move)
    requires WInv(w) && c in w.calls && !w.calls[c].phase.OwnsIO()
    requires Idle(w.rows, w.log, w.calls[c], m)
    ensures WInv(World(m.rows, m.log, w.calls[c := w.calls[c].(phase := m.phase)]))
  {
    var call := w.calls[c].(phase := m.phase);
    if !Plain(m.phase) {
      var i :| 0 <= i < |w.rows| && w.rows[i].identity == call.identity && w.rows[i].digest == call.digest
               && m.phase == Done(Delivered(w.rows[i].result));
      assert RowOf(w.rows[i], call) && Backed(w.rows[i].result, w.rows[i]);
    }
    assert CallOk(m.rows, m.log, call);
  }

  lemma OpensStep(w: World, c: CallId, m: Move, result: Envelope, e: Effect)
    requires WInv(w) && c in w.calls && !w.calls[c].phase.OwnsIO()
    requires Opens(w.rows, w.log, w.calls[c], m, result, e)
    ensures WInv(World(m.rows, m.log, w.calls[c := w.calls[c].(phase := m.phase)]))
  {
    InsertsInv(w.rows, m.rows, w.calls[c].identity, w.calls[c].digest, result);
    OpensLog(w.rows, w.log, w.calls[c], m, result, e);
    OpensSelf(w.rows, w.log, w.calls[c], m, result, e);
    forall d | d in w.calls && d != c
      ensures CallOk(m.rows, m.log, w.calls[d])
      ensures w.calls[d].phase.OwnsIO() ==> w.calls[d].identity != w.calls[c].identity
    {
      OpensOther(w.rows, w.log, w.calls[c], m, result, e, w.calls[d]);
    }
  }

  lemma ClosesStep(w: World, c: CallId, m: Move, i: nat, result: Envelope, finished: bool)
    requires WInv(w) && c in w.calls && w.calls[c].phase.OwnsIO() && !w.calls[c].phase.Performing?
    requires Closes(w.rows, w.log, w.calls[c], m, i, result, finished)
    ensures WInv(World(m.rows, m.log, w.calls[c := w.calls[c].(phase := m.phase)]))
  {
    ReplacesInv(w.rows, m.rows, i, result);
    ClosesLog(w.rows, w.log, w.calls[c], m, i, result, finished);
    ClosesSelf(w.rows, w.log, w.calls[c], m, i, result, finished);
    forall d | d in w.calls && d != c ensures CallOk(m.rows, m.log, w.calls[d]) {
      ClosesOther(w.rows, w.log, w.calls[c], m, i, result, finished, w.calls[d]);
    }
  }

  lemma HaltsStep(w: World, c: CallId, m: Move)
    requires WInv(w) && c in w.calls && w.calls[c].phase.OwnsIO() && !w.calls[c].phase.Performing?
    requires m.rows == w.rows && m.log == w.log && Halts(w.calls[c], m)
    ensures WInv(World(m.rows, m.log, w.calls[c := w.calls[c].(phase := m.phase)]))
  {
    var call := w.calls[c].(phase := m.phase);
    if call.phase.OwnsIO() {
      var i :| 0 <= i < |w.rows| && OwnedRow(w.rows[i], w.calls[c]);
      assert OwnedRow(w.rows[i], call);
      assert Owned(m.rows, call);
    }
    assert CallOk(m.rows, m.log, call);
  }

  lemma PerformLog(rows: seq<Row>, log: seq<Event>, x: Identity)
    requires LogInv(rows, log) && Prepared(x) in log && Performed(x) !in log
    ensures LogInv(rows, log + [Performed(x)])
  {
    var log' := log + [Performed(x)];
    assert Held(rows, Prepared(x).identity);
    forall i | 0 <= i < |rows| ensures Recorded(rows[i], log') {
      assert Recorded(rows[i], log);
    }
    forall y ensures Ordered(log', y) {
      assert Ordered(log, y);
    }
  }

  lemma PerformStep(w: World, c: CallId, io: IOResult)
    requires WInv(w) && c in w.calls && w.calls[c].phase.Performing?
    ensures WInv(Exec(w, Perform(c, io)))
  {
    var before := w.calls[c];
    var after := before.(phase := Finishing(before.phase.command, io));
    var log' := w.log + [Performed(before.identity)];
    assert CallOk(w.rows, w.log, before);
    PerformLog(w.rows, w.log, before.identity);
    assert CallOk(w.rows, log', after) by {
      var i :| 0 <= i < |w.rows| && OwnedRow(w.rows[i], before);
      assert OwnedRow(w.rows[i], after);
    }
    forall d | d in w.calls && d != c ensures CallOk(w.rows, log', w.calls[d]) {
      assert CallOk(w.rows, w.log, w.calls[d]);
    }
    assert Exec(w, Perform(c, io)) == World(w.rows, log', w.calls[c := after]);
  }

  lemma StepInv(w: World, s: Step)
    requires WInv(w)
    ensures WInv(Exec(w, s))
  {
    if Enabled(w, s) {
      match s
      case Arrive(c, identity, digest, localIO) =>
      case Crash(c) =>
      case Perform(c, io) =>
        PerformStep(w, c, io);
      case Admit(c, gate, newId, handler, prepare, storage) =>
        AdmitInv(w, c, gate, newId, handler, prepare, storage);
      case Refuse(c, newId, storage) =>
        var m := MoveOf(w, s);
        RecordRefusalMoves(w.rows, w.log, w.calls[c], newId, storage);
        if Idle(w.rows, w.log, w.calls[c], m) {
          IdleStep(w, c, m);
        } else {
          OpensStep(w, c, m, Refusal(newId, w.calls[c].phase.fault), Nothing);
        }
      case Complete(c, gate, finish, storage) =>
        FinishIOMoves(w.rows, w.log, w.calls[c], gate, finish, storage);
        ClosingInv(w, c, MoveOf(w, s), true);
      case RefuseComplete(c, storage) =>
        RecordFinishRefusalMoves(w.rows, w.log, w.calls[c], storage);
        ClosingInv(w, c, MoveOf(w, s), false);
    }
  }

  lemma AdmitInv(w: World, c: CallId, gate: Option<Fault>, newId: ID, handler: Outcome<Payload>,
                 prepare: Outcome<Plan>, storage: Commit)
    requires WInv(w) && c in w.calls && w.calls[c].phase.Start?
    ensures WInv(Exec(w, Admit(c, gate, newId, handler, prepare, storage)))
  {
    var call := w.calls[c];
    var m := MoveOf(w, Admit(c, gate, newId, handler, prepare, storage));
    AdmitMutationMoves(w.rows, w.log, call, gate, newId, handler, storage);
    AdmitIOMoves(w.rows, w.log, call, gate, newId, prepare, storage);
    if Idle(w.rows, w.log, call, m) {
      IdleStep(w, c, m);
    } else if call.localIO {
      OpensStep(w, c, m, Envelope(newId, Payload(Accepted, prepare.value.prepared, None, None)), Pending);
    } else {
      OpensStep(w, c, m, Envelope(newId, handler.value), Ordinary);
    }
  }

  lemma ClosingInv(w: World, c: CallId, m: Move, finished: bool)
    requires WInv(w) && c in w.calls && w.calls[c].phase.OwnsIO() && !w.calls[c].phase.Performing?
    requires || (m.rows == w.rows && m.log == w.log && Halts(w.calls[c], m))
             || exists i: nat, result :: Closes(w.rows, w.log, w.calls[c], m, i, result, finished)
    ensures WInv(World(m.rows, m.log, w.calls[c := w.calls[c].(phase := m.phase)]))
  {
    if m.rows == w.rows && m.log == w.log && Halts(w.calls[c], m) {
      HaltsStep(w, c, m);
    } else {
      var i: nat, result :| Closes(w.rows, w.log, w.calls[c], m, i, result, finished);
      ClosesStep(w, c, m, i, result, finished);
    }
  }
}
