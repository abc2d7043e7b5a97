/**
 * The durable command protocol: any number of callers, each a sequence of transactions, with crashes
 * between any two of them.
 */
module Commands {
  import opened Wrappers
  import opened Evidence

  type CallId = nat

  /** What a caller ends with: a result envelope, or a fault that no durable command names. */
  datatype Reply = Delivered(result: Envelope) | FaultOnly(fault: Fault)

  /** What Prepare hands to Perform; a caller whose plan has no id takes itself for a joiner. */
  datatype Plan = Plan(id: string, prepared: string)

  datatype IOResult = IOResult(data: string, fault: Option<Fault>, persistent: Persistent)

  /** The bytes a local IO operation retains instead of its reply data. */
  datatype Persistent = Same | Replaced(data: string) | Malformed

  /** Where a call stands between its transactions. */
  datatype Phase =
    | Start
    | Refusing(fault: Fault)
    | Performing(command: ID)
    | Finishing(command: ID, io: IOResult)
    | RefusingFinish(command: ID, fault: Fault)
    | Done(reply: Reply)
  {
    /** The call owns an accepted command whose local IO it is responsible for. */
    predicate OwnsIO() {
      Performing? || Finishing? || RefusingFinish?
    }

    function Command(): ID
      requires OwnsIO()
    {
      match this
      case Performing(c) => c
      case Finishing(c, _) => c
      case RefusingFinish(c, _) => c
    }
  }

  datatype Call = Call(identity: Identity, digest: string, localIO: bool, phase: Phase)

  /** Committed effects in the order they happened. */
  datatype Event =
    | Handled(identity: Identity)
    | Prepared(identity: Identity)
    | Performed(identity: Identity)
    | Finished(identity: Identity)

  datatype World = World(rows: seq<Row>, log: seq<Event>, calls: map<CallId, Call>)

  /** What a transaction commits, and the phase its caller moves to. */
  datatype Move = Move(rows: seq<Row>, log: seq<Event>, phase: Phase)

  predicate Deterministic(f: Fault) {
    match f.code
    case InvalidInput | PermissionDenied | StaleVersion | Conflict | PrerequisiteMissing
       | ExternalActionRequired | CapabilityUnsupported | VerificationFailed | ArtifactFault => true
    case _ => false
  }

  function Disposition(r: Envelope): Reply {
    if r.payload.status == Failed && r.payload.error.None? then FaultOnly(Internal("command failed without a fault"))
    else Delivered(r)
  }

  function Defect(p: Payload): Fault {
    if p.error.Some? then p.error.value else Internal("failed payload without an error")
  }

  function Refused(f: Fault): Phase {
    if Deterministic(f) then Refusing(f) else Done(FaultOnly(f))
  }

  function RefusedFinish(command: ID, f: Fault): Phase {
    if Deterministic(f) then RefusingFinish(command, f) else Done(FaultOnly(f))
  }

  function Refusal(command: ID, f: Fault): Envelope {
    Envelope(command, Payload(Failed, "", Some(f), None))
  }

  predicate SameRefusal(retained: Envelope, f: Fault) {
    && retained.payload.status == Failed && retained.payload.error.Some?
    && retained.payload.error.value.code == f.code && retained.payload.error.value.message == f.message
  }

  // ---- Transactions ----

  /** How a commit ends; one whose acknowledgement is lost has happened and is reported as a fault. */
  datatype Commit = Committed | Rejected(fault: Fault) | Lost(fault: Fault)

  /** The first transaction of an ordinary mutation: gates, begin, handler and finish commit together or not at all. */
  function AdmitMutation(rows: seq<Row>, log: seq<Event>, call: Call, gate: Option<Fault>, newId: ID,
                         handler: Outcome<Payload>, storage: Commit): Move
  {
    if gate.Some? then Move(rows, log, Refused(gate.value)) else
    var begun := Begin(rows, call.identity, call.digest, newId);
    if begun.Err? then Move(rows, log, Refused(begun.fault)) else
    match begun.value
    case Existing(i) =>
      var replay := Replay(rows[i]);
      Move(rows, log, if replay.Err? then Refused(replay.fault) else Done(Disposition(replay.value)))
    case Fresh(rows') =>
      if handler.Err? then Move(rows, log, Refused(handler.fault))
      else if handler.value.status == Failed then Move(rows, log, Refused(Defect(handler.value)))
      else
        var result := Envelope(newId, handler.value);
        var finished := Evidence.Finish(rows', newId, result);
        if finished.Err? then Move(rows, log, Refused(finished.fault))
        else if storage.Rejected? then Move(rows, log, Refused(storage.fault))
        else Move(finished.value, log + [Handled(call.identity)],
                  if storage.Lost? then Refused(storage.fault) else Done(Disposition(result)))
  }

  /** The first transaction of a local IO mutation: prepare records the accepted pending disposition. */
  function AdmitIO(rows: seq<Row>, log: seq<Event>, call: Call, gate: Option<Fault>, newId: ID,
                   prepare: Outcome<Plan>, storage: Commit): Move
  {
    if gate.Some? then Move(rows, log, Refused(gate.value)) else
    var begun := Begin(rows, call.identity, call.digest, newId);
    if begun.Err? then Move(rows, log, Refused(begun.fault)) else
    match begun.value
    case Existing(i) =>
      var replay := Replay(rows[i]);
      Move(rows, log, if replay.Err? then Refused(replay.fault) else Done(Disposition(replay.value)))
    case Fresh(rows') =>
      if prepare.Err? then Move(rows, log, Refused(prepare.fault))
      else
        var accepted := Envelope(newId, Payload(Accepted, prepare.value.prepared, None, None));
        var finished := Evidence.Finish(rows', newId, accepted);
        if finished.Err? then Move(rows, log, Refused(finished.fault))
        else if storage.Rejected? then Move(rows, log, Refused(storage.fault))
        else Move(finished.value, log + [Prepared(call.identity)],
                  if storage.Lost? then Refused(storage.fault)
                  else if prepare.value.id == "" then Done(Disposition(accepted)) else Performing(newId))
  }

  /** The separate short write that retains a deterministic refusal, unless the identity is already taken. */
  function RecordRefusal(rows: seq<Row>, log: seq<Event>, call: Call, newId: ID, storage: Commit): Move
    requires call.phase.Refusing?
  {
    var primary := Done(FaultOnly(call.phase.fault));
    var begun := Begin(rows, call.identity, call.digest, newId);
    if begun.Err? then Move(rows, log, primary) else
    match begun.value
    case Existing(i) =>
      var replay := Replay(rows[i]);
      Move(rows, log, if storage.Committed? && replay.Ok? && SameRefusal(replay.value, call.phase.fault)
                      then Done(Disposition(replay.value)) else primary)
    case Fresh(rows') =>
      var refusal := Refusal(newId, call.phase.fault);
      var finished := Evidence.Finish(rows', newId, refusal);
      if finished.Err? || storage.Rejected? then Move(rows, log, primary)
      else Move(finished.value, log, if storage.Lost? then primary else Done(Disposition(refusal)))
  }

  /** The final result of a performed local IO mutation and the envelope that is retained for it. */
  function FinalResult(command: ID, io: IOResult, finish: Outcome<Payload>): Outcome<(Envelope, Envelope)> {
    var payload :- finish;
    if io.fault.Some? then
      var final := Envelope(command, Payload(Failed, io.data, io.fault, None));
      Ok((final, final))
    else if payload.status == Failed then Err(Defect(payload))
    else
      var final := Envelope(command, payload);
      match io.persistent
      case Same => Ok((final, final))
      case Replaced(data) => Ok((final, Envelope(command, payload.(data := data))))
      case Malformed => Err(Internal("local IO persistence payload is invalid"))
  }

  /** The completion transaction: gates again, then the pending disposition is replaced. */
  function FinishIO(rows: seq<Row>, log: seq<Event>, call: Call, gate: Option<Fault>,
                    finish: Outcome<Payload>, storage: Commit): Move
    requires call.phase.Finishing?
  {
    var command := call.phase.command;
    if gate.Some? then Move(rows, log, RefusedFinish(command, gate.value)) else
    var final := FinalResult(command, call.phase.io, finish);
    if final.Err? then Move(rows, log, RefusedFinish(command, final.fault)) else
    var finished := Evidence.Finish(rows, command, final.value.1);
    if finished.Err? then Move(rows, log, RefusedFinish(command, finished.fault))
    else if storage.Rejected? then Move(rows, log, RefusedFinish(command, storage.fault))
    else Move(finished.value, log + [Finished(call.identity)],
              if storage.Lost? then RefusedFinish(command, storage.fault) else Done(Disposition(final.value.0)))
  }

  /** The separate short write that replaces the pending disposition by a deterministic refusal. */
  function RecordFinishRefusal(rows: seq<Row>, log: seq<Event>, call: Call, storage: Commit): Move
    requires call.phase.RefusingFinish?
  {
    var refusal := Refusal(call.phase.command, call.phase.fault);
    var finished := Evidence.Finish(rows, call.phase.command, refusal);
    if finished.Err? || storage.Rejected? then Move(rows, log, Done(FaultOnly(call.phase.fault)))
    else Move(finished.value, log, Done(if storage.Lost? then FaultOnly(call.phase.fault) else Disposition(refusal)))
  }

  // ---- Interleaved runs ----

  /** One step of one caller; gates, handlers, local IO and storage answer as they please. */
  datatype Step =
    | Arrive(c: CallId, identity: Identity, digest: string, localIO: bool)
    | Admit(c: CallId, gate: Option<Fault>, newId: ID, handler: Outcome<Payload>, prepare: Outcome<Plan>,
            storage: Commit)
    | Refuse(c: CallId, newId: ID, storage: Commit)
    | Perform(c: CallId, io: IOResult)
    | Complete(c: CallId, gate: Option<Fault>, finish: Outcome<Payload>, storage: Commit)
    | RefuseComplete(c: CallId, storage: Commit)
    | Crash(c: CallId)

  predicate Enabled(w: World, s: Step) {
    match s
    case Arrive(c, _, _, _) => c !in w.calls
    case Admit(c, _, _, _, _, _) => c in w.calls && w.calls[c].phase.Start?
    case Refuse(c, _, _) => c in w.calls && w.calls[c].phase.Refusing?
    case Perform(c, _) => c in w.calls && w.calls[c].phase.Performing?
    case Complete(c, _, _, _) => c in w.calls && w.calls[c].phase.Finishing?
    case RefuseComplete(c, _) => c in w.calls && w.calls[c].phase.RefusingFinish?
    case Crash(c) => c in w.calls
  }

  function MoveOf(w: World, s: Step): Move
    requires Enabled(w, s) && !s.Arrive? && !s.Crash?
  {
    var call := w.calls[s.c];
    match s
    case Admit(c, gate, newId, handler, prepare, storage) =>
      if call.localIO then AdmitIO(w.rows, w.log, call, gate, newId, prepare, storage)
      else AdmitMutation(w.rows, w.log, call, gate, newId, handler, storage)
    case Refuse(c, newId, storage) => RecordRefusal(w.rows, w.log, call, newId, storage)
    case Perform(c, io) => Move(w.rows, w.log + [Performed(call.identity)], Finishing(call.phase.command, io))
    case Complete(c, gate, finish, storage) => FinishIO(w.rows, w.log, call, gate, finish, storage)
    case RefuseComplete(c, storage) => RecordFinishRefusal(w.rows, w.log, call, storage)
  }

  /** A step that is not enabled does nothing. A crash forgets the caller and keeps what was committed. */
  function Exec(w: World, s: Step): World {
    if !Enabled(w, s) then w
    else match s
      case Arrive(c, identity, digest, localIO) => w.(calls := w.calls[c := Call(identity, digest, localIO, Start)])
      case Crash(c) => w.(calls := w.calls - {c})
      case _ =>
        var m := MoveOf(w, s);
        World(m.rows, m.log, w.calls[s.c := w.calls[s.c].(phase := m.phase)])
  }

  function Run(w: World, steps: seq<Step>): World {
    if |steps| == 0 then w else Exec(Run(w, steps[..|steps| - 1]), steps[|steps| - 1])
  }

  const EMPTY := World([], [], map[])
}
