/** What every transaction keeps of the command table, the effect log and the callers in flight. */
module CommandInvariant {
  import opened Wrappers
  import opened Evidence
  import opened Commands

  // ---- The command table ----

  /** A retained record replays: it has a disposition and agrees with itself. */
  ghost predicate RowOk(r: Row) {
    && 1 <= r.dispositions <= 2
    && r.result.command == r.id
    && r.result.payload.status == r.status
    && Coherent(r.result.payload)
    && (r.dispositions == 1 ==> r.first == r.result)
    && (r.dispositions == 2 ==> r.first.payload.status == Accepted)
  }

  ghost predicate RowsInv(rows: seq<Row>) {
    && (forall i | 0 <= i < |rows| :: RowOk(rows[i]))
    && (forall i, j | 0 <= i < j < |rows| :: rows[i].identity != rows[j].identity)
    && (forall i, j | 0 <= i < j < |rows| :: rows[i].id != rows[j].id)
  }

  /** A record may only move from its pending disposition to a replacement, keeping what it is bound to. */
  ghost predicate Evolves(r: Row, r': Row) {
    || r' == r
    || (r.Replaceable() && r'.dispositions == 2 && r'.id == r.id && r'.identity == r.identity && r'.digest == r.digest
        && r'.first == r.result)
  }

  ghost predicate Extends(rows: seq<Row>, rows': seq<Row>) {
    |rows| <= |rows'| && forall i | 0 <= i < |rows| :: Evolves(rows[i], rows'[i])
  }

  ghost predicate Held(rows: seq<Row>, x: Identity) {
    exists i :: 0 <= i < |rows| && rows[i].identity == x
  }

  /** The record a first disposition leaves behind. */
  function FirstRow(identity: Identity, digest: string, result: Envelope): Row {
    Row(result.command, identity, digest, result.payload.status, result, 1, result)
  }

  /** A transaction that took a free identity and gave it its first disposition. */
  ghost predicate Inserts(rows: seq<Row>, rows': seq<Row>, identity: Identity, digest: string, result: Envelope) {
    && rows' == rows + [FirstRow(identity, digest, result)]
    && (forall i | 0 <= i < |rows| :: rows[i].identity != identity)
    && (forall i | 0 <= i < |rows| :: rows[i].id != result.command)
    && Coherent(result.payload)
  }

  /** A transaction that replaced the pending disposition of one command. */
  ghost predicate Replaces(rows: seq<Row>, rows': seq<Row>, i: nat, result: Envelope) {
    && i < |rows| && rows[i].id == result.command && rows[i].Replaceable()
    && rows' == rows[i := rows[i].(status := result.payload.status, result := result, dispositions := 2)]
    && Coherent(result.payload)
  }

  lemma FindLast(rows: seq<Row>, r: Row)
    ensures FindId(rows + [r], r.id) == Some(|rows|)
  {
    assert (rows + [r])[|rows|] == r;
  }

  lemma FirstFinish(rows: seq<Row>, identity: Identity, digest: string, newId: ID, result: Envelope)
    requires Begin(rows, identity, digest, newId).Ok? && Begin(rows, identity, digest, newId).value.Fresh?
    ensures var taken := Begin(rows, identity, digest, newId).value.rows;
            Finish(taken, newId, result).Ok? ==>
              result.command == newId && Inserts(rows, Finish(taken, newId, result).value, identity, digest, result)
  {
    var reserved := Row(newId, identity, digest, Completed, NO_RESULT, 0, NO_RESULT);
    var taken := rows + [reserved];
    assert Begin(rows, identity, digest, newId).value.rows == taken;
    FindLast(rows, reserved);
    assert taken[|rows|] == reserved;
    LastReplaced(rows, reserved, FirstRow(identity, digest, result));
  }

  lemma LastReplaced(rows: seq<Row>, r: Row, r': Row)
    ensures (rows + [r])[|rows| := r'] == rows + [r']
  {
  }

  lemma SecondFinish(rows: seq<Row>, id: ID, result: Envelope)
    requires RowsInv(rows) && Finish(rows, id, result).Ok?
    ensures exists i: nat :: Replaces(rows, Finish(rows, id, result).value, i, result)
  {
    var i := FindId(rows, id).value;
    assert RowOk(rows[i]);
    assert Replaces(rows, Finish(rows, id, result).value, i, result);
  }

  lemma InsertsInv(rows: seq<Row>, rows': seq<Row>, identity: Identity, digest: string, result: Envelope)
    requires RowsInv(rows) && Inserts(rows, rows', identity, digest, result)
    ensures RowsInv(rows') && Extends(rows, rows')
  {
  }

  lemma ReplacesInv(rows: seq<Row>, rows': seq<Row>, i: nat, result: Envelope)
    requires RowsInv(rows) && Replaces(rows, rows', i, result)
    ensures RowsInv(rows') && Extends(rows, rows')
  {
  }

  lemma ExtendsTransitive(a: seq<Row>, b: seq<Row>, c: seq<Row>)
    requires Extends(a, b) && Extends(b, c)
    ensures Extends(a, c)
  {
    forall i | 0 <= i < |a| ensures Evolves(a[i], c[i]) {
      assert Evolves(a[i], b[i]) && Evolves(b[i], c[i]);
    }
  }

  lemma ReplayOk(r: Row)
    requires RowOk(r)
    ensures Replay(r) == Ok(r.result) && Disposition(r.result) == Delivered(r.result)
  {
  }

  // ---- What one move can be ----

  /** The effect a first disposition commits with it, if any. */
  datatype Effect = Nothing | Ordinary | Pending

  function EventsOf(e: Effect, x: Identity): seq<Event> {
    match e
    case Nothing => []
    case Ordinary => [Handled(x)]
    case Pending => [Prepared(x)]
  }

  /** A caller that neither owns local IO nor delivers anything. */
  predicate Plain(p: Phase) {
    p.Refusing? || (p.Done? && p.reply.FaultOnly?)
  }

  /** The move commits nothing; what it delivers is the retained envelope of an identical command. */
  ghost predicate Idle(rows: seq<Row>, log: seq<Event>, call: Call, m: Move) {
    && m.rows == rows && m.log == log
    && (Plain(m.phase) ||
        exists i :: 0 <= i < |rows| && rows[i].identity == call.identity && rows[i].digest == call.digest
                    && m.phase == Done(Delivered(rows[i].result)))
  }

  /**
   * The move gives a free identity its first disposition together with its effects; its caller may never learn of it.
   */
  ghost predicate Opens(rows: seq<Row>, log: seq<Event>, call: Call, m: Move, result: Envelope, e: Effect) {
    && Inserts(rows, m.rows, call.identity, call.digest, result)
    && m.log == log + EventsOf(e, call.identity)
    && (e.Nothing? <==> result.payload.status == Failed)
    && (Plain(m.phase) || m.phase == Done(Delivered(result))
        || (e.Pending? && result.payload.status == Accepted && m.phase == Performing(result.command)))
  }

  /** The reply and the retained envelope agree up to the data a local IO operation keeps back. */
  predicate SameUpToData(reply: Envelope, retained: Envelope) {
    reply.command == retained.command && reply.payload == retained.payload.(data := reply.payload.data)
  }

  /**
   * A completion that fails, or whose success is not acknowledged, leaves its caller either refusing the completion or
   * done with a fault.
   */
  predicate Halts(call: Call, m: Move)
    requires call.phase.OwnsIO()
  {
    (m.phase.RefusingFinish? && m.phase.command == call.phase.Command()) || (m.phase.Done? && m.phase.reply.FaultOnly?)
  }

  /** The move replaces the pending disposition the caller owns. */
  ghost predicate Closes(rows: seq<Row>, log: seq<Event>, call: Call, m: Move, i: nat, result: Envelope, finished: bool)
    requires call.phase.OwnsIO()
  {
    && result.command == call.phase.Command()
    && Replaces(rows, m.rows, i, result)
    && m.log == log + (if finished then [Finished(call.identity)] else [])
    && (Halts(call, m) || (m.phase.Done? && m.phase.reply.Delivered? && SameUpToData(m.phase.reply.result, result)))
  }

  lemma AdmitMutationMoves(rows: seq<Row>, log: seq<Event>, call: Call, gate: Option<Fault>, newId: ID,
                           handler: Outcome<Payload>, storage: Commit)
    requires RowsInv(rows)
    ensures var m := AdmitMutation(rows, log, call, gate, newId, handler, storage);
            Idle(rows, log, call, m)
              || (handler.Ok? && Opens(rows, log, call, m, Envelope(newId, handler.value), Ordinary))
  {
    var m := AdmitMutation(rows, log, call, gate, newId, handler, storage);
    var begun := Begin(rows, call.identity, call.digest, newId);
    if gate.None? && begun.Ok? {
      match begun.value
      case Existing(i) =>
        ReplayOk(rows[i]);
      case Fresh(_) =>
        if handler.Ok? && handler.value.status != Failed {
          FreshMutation(rows, log, call, newId, handler.value, storage);
        }
    }
  }

  /** The part of an admission that has taken a free identity and whose handler succeeded. */
  lemma FreshMutation(rows: seq<Row>, log: seq<Event>, call: Call, newId: ID, payload: Payload, storage: Commit)
    requires RowsInv(rows) && payload.status != Failed
    requires Begin(rows, call.identity, call.digest, newId).Ok?
             && Begin(rows, call.identity, call.digest, newId).value.Fresh?
    ensures var m := AdmitMutation(rows, log, call, None, newId, Ok(payload), storage);
            Idle(rows, log, call, m) || Opens(rows, log, call, m, Envelope(newId, payload), Ordinary)
  {
    FirstFinish(rows, call.identity, call.digest, newId, Envelope(newId, payload));
  }

  lemma AdmitIOMoves(rows: seq<Row>, log: seq<Event>, call: Call, gate: Option<Fault>, newId: ID,
                     prepare: Outcome<Plan>, storage: Commit)
    requires RowsInv(rows)
    ensures var m := AdmitIO(rows, log, call, gate, newId, prepare, storage);
            Idle(rows, log, call, m) ||
            (prepare.Ok?
             && Opens(rows, log, call, m, Envelope(newId, Payload(Accepted, prepare.value.prepared, None, None)),
                      Pending))
  {
    var begun := Begin(rows, call.identity, call.digest, newId);
    if gate.None? && begun.Ok? {
      match begun.value
      case Existing(i) =>
        ReplayOk(rows[i]);
      case Fresh(_) =>
        if prepare.Ok? {
          FreshIO(rows, log, call, newId, prepare.value, storage);
        }
    }
  }

  lemma FreshIO(rows: seq<Row>, log: seq<Event>, call: Call, newId: ID, plan: Plan, storage: Commit)
    requires RowsInv(rows) && Begin(rows, call.identity, call.digest, newId).Ok?
             && Begin(rows, call.identity, call.digest, newId).value.Fresh?
    ensures var m := AdmitIO(rows, log, call, None, newId, Ok(plan), storage);
            || Idle(rows, log, call, m)
            || Opens(rows, log, call, m, Envelope(newId, Payload(Accepted, plan.prepared, None, None)), Pending)
  {
    FirstFinish(rows, call.identity, call.digest, newId, Envelope(newId, Payload(Accepted, plan.prepared, None, None)));
  }

  lemma RecordRefusalMoves(rows: seq<Row>, log: seq<Event>, call: Call, newId: ID, storage: Commit)
    requires RowsInv(rows) && call.phase.Refusing?
    ensures var m := RecordRefusal(rows, log, call, newId, storage);
            Idle(rows, log, call, m) || Opens(rows, log, call, m, Refusal(newId, call.phase.fault), Nothing)
  {
    var begun := Begin(rows, call.identity, call.digest, newId);
    if begun.Ok? {
      match begun.value
      case Existing(i) =>
        ReplayOk(rows[i]);
      case Fresh(_) =>
        FreshRefusal(rows, log, call, newId, storage);
    }
  }

  lemma FreshRefusal(rows: seq<Row>, log: seq<Event>, call: Call, newId: ID, storage: Commit)
    requires RowsInv(rows) && call.phase.Refusing? && Begin(rows, call.identity, call.digest, newId).Ok?
             && Begin(rows, call.identity, call.digest, newId).value.Fresh?
    ensures var m := RecordRefusal(rows, log, call, newId, storage);
            Idle(rows, log, call, m) || Opens(rows, log, call, m, Refusal(newId, call.phase.fault), Nothing)
  {
    FirstFinish(rows, call.identity, call.digest, newId, Refusal(newId, call.phase.fault));
  }

  lemma FinishIOMoves(rows: seq<Row>, log: seq<Event>, call: Call, gate: Option<Fault>,
                      finish: Outcome<Payload>, storage: Commit)
    requires RowsInv(rows) && call.phase.Finishing?
    ensures var m := FinishIO(rows, log, call, gate, finish, storage);
            || (m.rows == rows && m.log == log && Halts(call, m))
            || exists i: nat, result :: Closes(rows, log, call, m, i, result, true)
  {
    var m := FinishIO(rows, log, call, gate, finish, storage);
    var final := FinalResult(call.phase.command, call.phase.io, finish);
    if gate.None? && final.Ok? && !storage.Rejected? {
      var retained := final.value.1;
      if Evidence.Finish(rows, call.phase.command, retained).Ok? {
        SecondFinish(rows, call.phase.command, retained);
        var i: nat :| Replaces(rows, m.rows, i, retained);
        assert Closes(rows, log, call, m, i, retained, true);
      }
    }
  }

  lemma RecordFinishRefusalMoves(rows: seq<Row>, log: seq<Event>, call: Call, storage: Commit)
    requires RowsInv(rows) && call.phase.RefusingFinish?
    ensures var m := RecordFinishRefusal(rows, log, call, storage);
            || (m.rows == rows && m.log == log && Halts(call, m))
            || exists i: nat, result :: Closes(rows, log, call, m, i, result, false)
  {
    var m := RecordFinishRefusal(rows, log, call, storage);
    var refusal := Refusal(call.phase.command, call.phase.fault);
    if !storage.Rejected? && Evidence.Finish(rows, call.phase.command, refusal).Ok? {
      SecondFinish(rows, call.phase.command, refusal);
      var i: nat :| Replaces(rows, m.rows, i, refusal);
      assert Closes(rows, log, call, m, i, refusal, false);
    }
  }
}
