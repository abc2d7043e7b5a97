/** What each transaction of the command protocol commits and answers, on the answers it is given. */
module CommandOutcomes {
  import opened Wrappers
  import opened Evidence
  import opened Commands
  import opened CommandInvariant
  import opened CommandRuns
  import opened CommandSafety

  // ---- Faults ----

  /** Faults that an identical call would meet again; every other fault leaves the identity free for a retry. */
  const RETAINED :=
    {InvalidInput, PermissionDenied, StaleVersion, Conflict, PrerequisiteMissing, ExternalActionRequired,
                     CapabilityUnsupported, VerificationFailed, ArtifactFault}

  predicate StopsAt(p: Phase, f: Fault) {
    p == if f.code in RETAINED then Refusing(f) else Done(FaultOnly(f))
  }

  predicate StopsFinish(p: Phase, command: ID, f: Fault) {
    p == if f.code in RETAINED then RefusingFinish(command, f) else Done(FaultOnly(f))
  }

  lemma RefusedStops(f: Fault, command: ID)
    ensures StopsAt(Refused(f), f) && StopsFinish(RefusedFinish(command, f), command, f)
  {
  }

  // ---- First transactions ----

  ghost predicate Free(rows: seq<Row>, x: Identity) {
    forall i | 0 <= i < |rows| :: rows[i].identity != x
  }

  ghost predicate FreshId(rows: seq<Row>, id: ID) {
    id != "" && forall i | 0 <= i < |rows| :: rows[i].id != id
  }

  /** The record of a first disposition. */
  function Recorded1(call: Call, id: ID, payload: Payload): Row {
    Row(id, call.identity, call.digest, payload.status, Envelope(id, payload), 1, Envelope(id, payload))
  }

  lemma BeginsFresh(rows: seq<Row>, identity: Identity, digest: string, newId: ID)
    ensures (Begin(rows, identity, digest, newId).Ok? && Begin(rows, identity, digest, newId).value.Fresh?)
            <==> Free(rows, identity) && FreshId(rows, newId)
  {
  }

  lemma FinishesFresh(rows: seq<Row>, call: Call, newId: ID, payload: Payload)
    requires Free(rows, call.identity) && FreshId(rows, newId)
    ensures var taken := Begin(rows, call.identity, call.digest, newId).value.rows;
            var r := Finish(taken, newId, Envelope(newId, payload));
            && (r.Ok? <==> (payload.error.Some? <==> payload.status == Failed))
            && (r.Ok? ==> r.value == rows + [Recorded1(call, newId, payload)])
            && (r.Err? ==> r.fault.code == InvalidInput)
  {
    BeginsFresh(rows, call.identity, call.digest, newId);
    var reserved := Row(newId, call.identity, call.digest, Completed, NO_RESULT, 0, NO_RESULT);
    FindLast(rows, reserved);
    LastReplaced(rows, reserved, Recorded1(call, newId, payload));
  }

  /** A handler's result that can be recorded: it succeeded and carries no error. */
  predicate Recordable(p: Payload) {
    p.status != Failed && p.error.None?
  }

  /**
   * An ordinary mutation commits if and only if the gates are open, its identity is free and its id new, the handler's
   * result can be recorded, and the commit is not rejected. It then adds exactly that result and its effects; an
   * acknowledged caller receives exactly that result, any other its storage fault.
   */
  lemma MutationExactly(rows: seq<Row>, log: seq<Event>, call: Call, gate: Option<Fault>, newId: ID,
                        handler: Outcome<Payload>, storage: Commit)
    requires RowsInv(rows)
    ensures var m := AdmitMutation(rows, log, call, gate, newId, handler, storage);
            var commits := gate.None? && Free(rows, call.identity) && FreshId(rows, newId)
                           && handler.Ok? && Recordable(handler.value) && !storage.Rejected?;
            && (!commits ==> m.rows == rows && m.log == log)
            && (commits ==>
                  && m.rows == rows + [Recorded1(call, newId, handler.value)] && m.log == log + [Handled(call.identity)]
                  && (storage.Committed? ==> m.phase == Done(Delivered(Envelope(newId, handler.value))))
                  && (storage.Lost? ==> StopsAt(m.phase, storage.fault)))
  {
    BeginsFresh(rows, call.identity, call.digest, newId);
    if gate.None? && Free(rows, call.identity) && FreshId(rows, newId) && handler.Ok? {
      FinishesFresh(rows, call, newId, handler.value);
    }
    if storage.Lost? {
      RefusedStops(storage.fault, "");
    }
  }

  /** Gates stop a call with their own fault. */
  lemma GateStops(rows: seq<Row>, log: seq<Event>, call: Call, gate: Fault, newId: ID, handler: Outcome<Payload>,
                  prepare: Outcome<Plan>, storage: Commit)
    ensures StopsAt(AdmitMutation(rows, log, call, Some(gate), newId, handler, storage).phase, gate)
    ensures StopsAt(AdmitIO(rows, log, call, Some(gate), newId, prepare, storage).phase, gate)
  {
    RefusedStops(gate, "");
  }

  /** So does a handler or a preparation that fails on a free identity, and a handler that reports a failure. */
  lemma HandlerStops(rows: seq<Row>, log: seq<Event>, call: Call, newId: ID, f: Fault, p: Payload, storage: Commit)
    requires Free(rows, call.identity) && FreshId(rows, newId) && p.status == Failed && p.error == Some(f)
    ensures StopsAt(AdmitMutation(rows, log, call, None, newId, Err(f), storage).phase, f)
    ensures StopsAt(AdmitMutation(rows, log, call, None, newId, Ok(p), storage).phase, f)
    ensures StopsAt(AdmitIO(rows, log, call, None, newId, Err(f), storage).phase, f)
  {
    BeginsFresh(rows, call.identity, call.digest, newId);
    RefusedStops(f, "");
  }

  /** And a rejected commit. */
  lemma StorageStops(rows: seq<Row>, log: seq<Event>, call: Call, newId: ID, p: Payload, plan: Plan, f: Fault)
    requires Free(rows, call.identity) && FreshId(rows, newId) && Recordable(p)
    ensures StopsAt(AdmitMutation(rows, log, call, None, newId, Ok(p), Rejected(f)).phase, f)
    ensures StopsAt(AdmitIO(rows, log, call, None, newId, Ok(plan), Rejected(f)).phase, f)
  {
    BeginsFresh(rows, call.identity, call.digest, newId);
    FinishesFresh(rows, call, newId, p);
    FinishesFresh(rows, call, newId, Payload(Accepted, plan.prepared, None, None));
    RefusedStops(f, "");
  }

  /** The same for a local IO mutation, whose first record is the accepted preparation; only its owner then performs. */
  lemma PreparationExactly(rows: seq<Row>, log: seq<Event>, call: Call, gate: Option<Fault>, newId: ID,
                           prepare: Outcome<Plan>, storage: Commit)
    requires RowsInv(rows)
    ensures var m := AdmitIO(rows, log, call, gate, newId, prepare, storage);
            var commits := gate.None? && Free(rows, call.identity) && FreshId(rows, newId)
                           && prepare.Ok? && !storage.Rejected?;
            && (!commits ==> m.rows == rows && m.log == log && !m.phase.OwnsIO())
            && (commits ==>
                  var accepted := Payload(Accepted, prepare.value.prepared, None, None);
                  && m.rows == rows + [Recorded1(call, newId, accepted)] && m.log == log + [Prepared(call.identity)]
                  && (storage.Committed? ==>
                        m.phase == if prepare.value.id == "" then Done(Delivered(Envelope(newId, accepted)))
                          else Performing(newId))
                  && (storage.Lost? ==> StopsAt(m.phase, storage.fault)))
  {
    BeginsFresh(rows, call.identity, call.digest, newId);
    if gate.None? && Free(rows, call.identity) && FreshId(rows, newId) && prepare.Ok? {
      FinishesFresh(rows, call, newId, Payload(Accepted, prepare.value.prepared, None, None));
    }
    if storage.Lost? {
      RefusedStops(storage.fault, "");
    }
  }

  function Refused1(f: Fault): Payload {
    Payload(Failed, "", Some(f), None)
  }

  /** A refusal is retained if and only if the identity is free, the id new, and the commit not rejected. */
  lemma RefusalExactly(rows: seq<Row>, log: seq<Event>, call: Call, newId: ID, storage: Commit)
    requires RowsInv(rows) && call.phase.Refusing?
    ensures var m := RecordRefusal(rows, log, call, newId, storage); var f := call.phase.fault;
            var commits := Free(rows, call.identity) && FreshId(rows, newId) && !storage.Rejected?;
            && m.log == log
            && (commits ==>
                  && m.rows == rows + [Recorded1(call, newId, Refused1(f))]
                  && m.phase
                     == Done(if storage.Committed? then Delivered(Envelope(newId, Refused1(f))) else FaultOnly(f)))
            && (!commits ==> m.rows == rows)
            && (Free(rows, call.identity) && !commits ==> m.phase == Done(FaultOnly(f)))
  {
    BeginsFresh(rows, call.identity, call.digest, newId);
    if Free(rows, call.identity) && FreshId(rows, newId) {
      FinishesFresh(rows, call, newId, Refused1(call.phase.fault));
    }
  }

  // ---- The completion ----

  /** The record whose pending disposition a completion replaces. */
  function Replaced2(r: Row, payload: Payload): Row {
    r.(status := payload.status, result := Envelope(r.id, payload), dispositions := 2)
  }

  lemma FinishesPending(rows: seq<Row>, i: nat, payload: Payload)
    requires RowsInv(rows) && i < |rows| && rows[i].Replaceable()
    ensures var r := Finish(rows, rows[i].id, Envelope(rows[i].id, payload));
            && (r.Ok? <==> (payload.error.Some? <==> payload.status == Failed))
            && (r.Ok? ==> r.value == rows[i := Replaced2(rows[i], payload)])
            && (r.Err? ==> r.fault.code == InvalidInput)
  {
    assert FindId(rows, rows[i].id) == Some(i);
  }

  /**
   * What a completion retains of a result it replies with: all of it, unless the local IO gives other data to retain.
   */
  function Kept(p: Payload, persistent: Persistent): Payload {
    if persistent.Replaced? then p.(data := persistent.data) else p
  }

  /**
   * Completing local IO that failed: whatever the finish step answers,
     the record becomes failed with the local IO's own
   * data and fault, and an acknowledged caller receives exactly that envelope.
   */
  lemma FailedIOExactly(rows: seq<Row>, log: seq<Event>, call: Call, i: nat, payload: Payload, storage: Commit)
    requires RowsInv(rows) && i < |rows| && rows[i].Replaceable() && !storage.Rejected?
    requires call.phase.Finishing? && call.phase.command == rows[i].id && call.phase.io.fault.Some?
    ensures var m := FinishIO(rows, log, call, None, Ok(payload), storage); var io := call.phase.io;
            var failed := Payload(Failed, io.data, io.fault, None);
            && m.rows == rows[i := Replaced2(rows[i], failed)] && m.log == log + [Finished(call.identity)]
            && (storage.Committed? ==> m.phase == Done(Delivered(Envelope(rows[i].id, failed))))
            && (storage.Lost? ==> StopsFinish(m.phase, rows[i].id, storage.fault))
  {
    FinishesPending(rows, i, Payload(Failed, call.phase.io.data, call.phase.io.fault, None));
    if storage.Lost? {
      RefusedStops(storage.fault, rows[i].id);
    }
  }

  /**
   * Completing local IO that succeeded: the reply carries the finish step's result, and the record carries it too, with
   * the data to retain in place of its data when the local IO gives any.
   */
  lemma FinishedIOExactly(rows: seq<Row>, log: seq<Event>, call: Call, i: nat, payload: Payload, storage: Commit)
    requires RowsInv(rows) && i < |rows| && rows[i].Replaceable() && !storage.Rejected?
    requires call.phase.Finishing? && call.phase.command == rows[i].id && call.phase.io.fault.None?
    requires Recordable(payload) && !call.phase.io.persistent.Malformed?
    ensures var m := FinishIO(rows, log, call, None, Ok(payload), storage);
            && m.rows == rows[i := Replaced2(rows[i], Kept(payload, call.phase.io.persistent))]
            && m.log == log + [Finished(call.identity)]
            && (storage.Committed? ==> m.phase == Done(Delivered(Envelope(rows[i].id, payload))))
            && (storage.Lost? ==> StopsFinish(m.phase, rows[i].id, storage.fault))
  {
    FinishesPending(rows, i, Kept(payload, call.phase.io.persistent));
    if storage.Lost? {
      RefusedStops(storage.fault, rows[i].id);
    }
  }

  /**
   * Anything else completes nothing: a closed gate, a failed finish step, a failed or unusable result, a rejected
   * commit.
   */
  lemma UnfinishedIOExactly(rows: seq<Row>, log: seq<Event>, call: Call, i: nat, gate: Option<Fault>,
                            finish: Outcome<Payload>, storage: Commit)
    requires RowsInv(rows) && i < |rows| && rows[i].Replaceable()
    requires call.phase.Finishing? && call.phase.command == rows[i].id
    requires gate.Some? || finish.Err? || storage.Rejected?
             || (call.phase.io.fault.None? && (!Recordable(finish.value) || call.phase.io.persistent.Malformed?))
    ensures var m := FinishIO(rows, log, call, gate, finish, storage);
            && m.rows == rows && m.log == log
            && (gate.Some? ==> StopsFinish(m.phase, rows[i].id, gate.value))
            && (gate.None? && finish.Err? ==> StopsFinish(m.phase, rows[i].id, finish.fault))
            && (gate.None? && finish.Ok? && call.phase.io.fault.None? && finish.value.status == Failed
                && finish.value.error.Some? ==>
                  StopsFinish(m.phase, rows[i].id, finish.value.error.value))
  {
    var io := call.phase.io;
    if gate.None? && finish.Ok? && io.fault.None? && finish.value.status != Failed {
      FinishesPending(rows, i, Kept(finish.value, io.persistent));
    }
  }

  /**
   * A refused completion replaces the pending record by the refusal, unless the record is no longer pending or the
   * commit is rejected.
   */
  lemma FinishRefusalExactly(rows: seq<Row>, log: seq<Event>, call: Call, i: nat, storage: Commit)
    requires RowsInv(rows) && i < |rows| && call.phase.RefusingFinish? && call.phase.command == rows[i].id
    ensures var m := RecordFinishRefusal(rows, log, call, storage); var f := call.phase.fault;
            var commits := rows[i].Replaceable() && !storage.Rejected?;
            && m.log == log && m.rows == (if commits then rows[i := Replaced2(rows[i], Refused1(f))] else rows)
            && m.phase
               == Done(if commits
                       && storage.Committed? then Delivered(Envelope(rows[i].id, Refused1(f))) else FaultOnly(f))
  {
    assert FindId(rows, rows[i].id) == Some(i) && RowOk(rows[i]);
    if rows[i].Replaceable() {
      FinishesPending(rows, i, Refused1(call.phase.fault));
    }
  }

  // ---- Over runs ----

  /**
   * Once failed local IO is completed, every later identical call past the gates receives the failure,
     whatever the finish
   * step said and whatever ran in between.
   */
  lemma FailedIOReplaysForever(w: World, c: CallId, payload: Payload, storage: Commit, steps: seq<Step>, s: Step,
                               i: nat)
    requires WInv(w) && c in w.calls && w.calls[c].phase.Finishing? && w.calls[c].phase.io.fault.Some?
    requires i < |w.rows| && w.rows[i].identity == w.calls[c].identity && !storage.Rejected?
    requires var later := Run(Exec(w, Complete(c, None, Ok(payload), storage)), steps);
             && Enabled(later, s) && s.Admit? && s.gate.None?
             && later.calls[s.c].identity == w.calls[c].identity && later.calls[s.c].digest == w.calls[c].digest
    ensures var later := Run(Exec(w, Complete(c, None, Ok(payload), storage)), steps); var io := w.calls[c].phase.io;
            Exec(later, s).calls[s.c].phase
            == Done(Delivered(Envelope(w.rows[i].id, Payload(Failed, io.data, io.fault, None))))
  {
    var step := Complete(c, None, Ok(payload), storage);
    OwnerRow(w, c, i);
    assert RowOk(w.rows[i]);
    FailedIOExactly(w.rows, w.log, w.calls[c], i, payload, storage);
    StepInv(w, step);
    TerminalReplaysForever(Exec(w, step), steps, s, i);
  }

  /** A fault at the gates is retained under a free identity if and only if an identical call would meet it again. */
  lemma FaultRetainedExactly(w: World, c: CallId, f: Fault, newId: ID, handler: Outcome<Payload>,
                             prepare: Outcome<Plan>,
                             storage: Commit, refusalId: ID)
    requires WInv(w) && c in w.calls && w.calls[c].phase.Start?
    requires Free(w.rows, w.calls[c].identity) && FreshId(w.rows, refusalId)
    ensures var call := w.calls[c];
            var end :=
              Exec(Exec(w, Admit(c, Some(f), newId, handler, prepare, storage)), Refuse(c, refusalId, Committed));
            && end.log == w.log
            && if f.code in RETAINED
               then end.rows == w.rows + [Recorded1(call, refusalId, Refused1(f))]
                    && end.calls[c].phase == Done(Delivered(Envelope(refusalId, Refused1(f))))
               else end.rows == w.rows && end.calls[c].phase == Done(FaultOnly(f))
  {
    var call := w.calls[c];
    var admitted := Exec(w, Admit(c, Some(f), newId, handler, prepare, storage));
    GateStops(w.rows, w.log, call, f, newId, handler, prepare, storage);
    assert admitted.rows == w.rows && admitted.log == w.log && StopsAt(admitted.calls[c].phase, f);
    if f.code in RETAINED {
      RefusalExactly(w.rows, w.log, admitted.calls[c], refusalId, Committed);
    }
  }
}
