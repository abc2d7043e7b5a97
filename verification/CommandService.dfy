/** The application's write transactions over the command table, updated in place and rolled back on error. */
module CommandService {
  import opened Wrappers
  import opened Evidence
  import opened Commands

  class Application {
    var rows: seq<Row>
    var log: seq<Event>

    constructor ()
      ensures rows == EMPTY.rows && log == EMPTY.log
    {
      rows, log := [], [];
    }

    /** Joins the retained command of an identical request, or reserves the identity inside the open transaction. */
    method CommandBegin(identity: Identity, digest: string, newId: ID) returns (r: Outcome<Option<Envelope>>)
      modifies this`rows
      ensures var begun := Begin(old(rows), identity, digest, newId);
              match begun
              case Err(f) => r == Err(f) && rows == old(rows)
              case Ok(Existing(i)) =>
                && rows == old(rows)
                && r == (match Replay(rows[i]) case Err(f) => Err(f) case Ok(envelope) => Ok(Some(envelope)))
              case Ok(Fresh(taken)) => rows == taken && r == Ok(None)
    {
      var existing := FindIdentity(rows, identity);
      if existing.Some? {
        var row := rows[existing.value];
        if row.dispositions == 0 {
          return Err(Internal("identity is already reserved by an in-flight attempt"));
        }
        if row.digest != digest {
          return Err(Fault(SubmissionConflict, "submission key is bound to a different input", ""));
        }
        var replay := Replay(row);
        return match replay case Err(f) => Err(f) case Ok(envelope) => Ok(Some(envelope));
      }
      if newId == "" || FindId(rows, newId).Some? {
        return Err(Internal("command begin returned no command identity"));
      }
      rows := rows + [Row(newId, identity, digest, Completed, NO_RESULT, 0, NO_RESULT)];
      return Ok(None);
    }

    /** Persists a disposition: the first one of a reserved command, or the one replacement of a pending one. */
    method CommandFinish(id: ID, result: Envelope) returns (fault: Option<Fault>)
      modifies this`rows
      ensures match Finish(old(rows), id, result)
              case Err(f) => fault == Some(f) && rows == old(rows)
              case Ok(rows') => fault == None && rows == rows'
    {
      if result.command != id {
        return Some(Fault(InvalidInput, "result command id does not match", ""));
      }
      if result.payload.error.Some? != (result.payload.status == Failed) {
        return Some(Fault(InvalidInput, "result status disagrees with its error presence", ""));
      }
      var found := FindId(rows, id);
      if found.None? {
        return Some(Fault(NotFound, "command not found", ""));
      }
      var row := rows[found.value];
      if row.dispositions > 0 && !row.Replaceable() {
        return Some(Internal("command is already finished"));
      }
      var written := if row.dispositions > 0 then 2 else 1;
      var first := if row.dispositions > 0 then row.first else result;
      rows :=
        rows[found.value :=
             row.(status := result.payload.status, result := result, dispositions := written, first := first)];
      return None;
    }

    /** The admission transaction of an ordinary mutation. */
    method AdmitOrdinary(call: Call, gate: Option<Fault>, newId: ID, handler: Outcome<Payload>, storage: Commit)
      returns (phase: Phase)
      modifies this
      ensures phase.Refusing? || phase.Done?
      ensures Move(rows, log, phase) == AdmitMutation(old(rows), old(log), call, gate, newId, handler, storage)
    {
      var savedRows, savedLog := rows, log;
      if gate.Some? {
        return Refused(gate.value);
      }
      var begun := CommandBegin(call.identity, call.digest, newId);
      if begun.Err? {
        return Refused(begun.fault);
      }
      if begun.value.Some? {
        return Done(Disposition(begun.value.value));
      }
      if handler.Err? {
        rows := savedRows;
        return Refused(handler.fault);
      }
      if handler.value.status == Failed {
        rows := savedRows;
        return Refused(Defect(handler.value));
      }
      log := log + [Handled(call.identity)];
      var delivered := Envelope(newId, handler.value);
      var failed := CommandFinish(newId, delivered);
      if failed.Some? || storage.Rejected? {
        rows, log := savedRows, savedLog;
        return Refused(if failed.Some? then failed.value else storage.fault);
      }
      if storage.Lost? {
        return Refused(storage.fault);
      }
      return Done(Disposition(delivered));
    }

    /** The admission transaction of a local IO mutation. */
    method AdmitLocalIO(call: Call, gate: Option<Fault>, newId: ID, prepare: Outcome<Plan>, storage: Commit)
      returns (phase: Phase)
      modifies this
      ensures phase.Refusing? || phase.Done? || phase.Performing?
      ensures Move(rows, log, phase) == AdmitIO(old(rows), old(log), call, gate, newId, prepare, storage)
    {
      var savedRows, savedLog := rows, log;
      if gate.Some? {
        return Refused(gate.value);
      }
      var begun := CommandBegin(call.identity, call.digest, newId);
      if begun.Err? {
        return Refused(begun.fault);
      }
      if begun.value.Some? {
        return Done(Disposition(begun.value.value));
      }
      if prepare.Err? {
        rows := savedRows;
        return Refused(prepare.fault);
      }
      log := log + [Prepared(call.identity)];
      var accepted := Envelope(newId, Payload(Accepted, prepare.value.prepared, None, None));
      var failed := CommandFinish(newId, accepted);
      if failed.Some? || storage.Rejected? {
        rows, log := savedRows, savedLog;
        return Refused(if failed.Some? then failed.value else storage.fault);
      }
      if storage.Lost? {
        return Refused(storage.fault);
      }
      return if prepare.value.id == "" then Done(Disposition(accepted)) else Performing(newId);
    }

    /** The short write that retains a deterministic refusal. */
    method RetainRefusal(call: Call, newId: ID, storage: Commit) returns (phase: Phase)
      requires call.phase.Refusing?
      modifies this
      ensures phase.Done?
      ensures Move(rows, log, phase) == RecordRefusal(old(rows), old(log), call, newId, storage)
    {
      var savedRows := rows;
      var fault := call.phase.fault;
      var begun := CommandBegin(call.identity, call.digest, newId);
      var retained: Option<Envelope> := None;
      if begun.Ok? && begun.value.Some? {
        if SameRefusal(begun.value.value, fault) {
          retained := begun.value;
        }
      } else if begun.Ok? {
        var refusal := Refusal(newId, fault);
        var failed := CommandFinish(newId, refusal);
        if failed.None? {
          retained := Some(refusal);
        } else {
          rows := savedRows;
        }
      }
      if storage.Rejected? {
        rows := savedRows;
      }
      if !storage.Committed? {
        retained := None;
      }
      return if retained.Some? then Done(Disposition(retained.value)) else Done(FaultOnly(fault));
    }

    /** The completion transaction of a local IO mutation. */
    method CompleteLocalIO(call: Call, gate: Option<Fault>, finish: Outcome<Payload>, storage: Commit)
      returns (phase: Phase)
      requires call.phase.Finishing?
      modifies this
      ensures phase.RefusingFinish? || phase.Done?
      ensures Move(rows, log, phase) == FinishIO(old(rows), old(log), call, gate, finish, storage)
    {
      var savedRows, savedLog := rows, log;
      var command, io := call.phase.command, call.phase.io;
      if gate.Some? {
        return RefusedFinish(command, gate.value);
      }
      if finish.Err? {
        return RefusedFinish(command, finish.fault);
      }
      var final := Envelope(command, finish.value);
      if io.fault.Some? {
        final := Envelope(command, Payload(Failed, io.data, io.fault, None));
      } else if finish.value.status == Failed {
        return RefusedFinish(command, Defect(finish.value));
      }
      var persisted := final;
      if io.fault.None? && !io.persistent.Same? {
        if io.persistent.Malformed? {
          return RefusedFinish(command, Internal("local IO persistence payload is invalid"));
        }
        persisted := Envelope(command, final.payload.(data := io.persistent.data));
      }
      var failed := CommandFinish(command, persisted);
      log := log + [Finished(call.identity)];
      if failed.Some? || storage.Rejected? {
        rows, log := savedRows, savedLog;
        return RefusedFinish(command, if failed.Some? then failed.value else storage.fault);
      }
      if storage.Lost? {
        return RefusedFinish(command, storage.fault);
      }
      return Done(Disposition(final));
    }

    /** The short write that replaces the pending disposition by a deterministic refusal. */
    method RetainFinishRefusal(call: Call, storage: Commit) returns (phase: Phase)
      requires call.phase.RefusingFinish?
      modifies this
      ensures phase.Done?
      ensures Move(rows, log, phase) == RecordFinishRefusal(old(rows), old(log), call, storage)
    {
      var savedRows := rows;
      var refusal := Refusal(call.phase.command, call.phase.fault);
      var failed := CommandFinish(call.phase.command, refusal);
      if failed.Some? || storage.Rejected? {
        rows := savedRows;
        return Done(FaultOnly(call.phase.fault));
      }
      return Done(if storage.Lost? then FaultOnly(call.phase.fault) else Disposition(refusal));
    }

    // ---- Whole invocations ----

    /** An ordinary mutation from admission to reply, as the steps of a caller that is not interrupted. */
    method InvokeMutation(call: Call, gate: Option<Fault>, newId: ID, handler: Outcome<Payload>, storage: Commit,
                          refusalId: ID, refusalStorage: Commit)
      returns (reply: Reply)
      requires call.phase.Start? && !call.localIO
      modifies this
      ensures Run(Alone(old(rows), old(log), call),
                  [Admit(0, gate, newId, handler, Err(Internal("")), storage), Refuse(0, refusalId, refusalStorage)])
              == Alone(rows, log, call.(phase := Done(reply)))
    {
      ghost var w := Alone(rows, log, call);
      ghost var admit := Admit(0, gate, newId, handler, Err(Internal("")), storage);
      var phase := AdmitOrdinary(call, gate, newId, handler, storage);
      AdmittedAlone(w, admit, Move(rows, log, phase));
      RunTwo(w, admit, Refuse(0, refusalId, refusalStorage));
      phase := Settle(call.(phase := phase), refusalId, refusalStorage);
      return phase.reply;
    }

    /** Retains the refusal of a caller that has one; any other caller stays where it is. */
    method Settle(call: Call, newId: ID, storage: Commit) returns (phase: Phase)
      modifies this
      ensures if call.phase.Refusing? then phase.Done? else phase == call.phase
      ensures Exec(Alone(old(rows), old(log), call), Refuse(0, newId, storage))
              == Alone(rows, log, call.(phase := phase))
    {
      ghost var w := Alone(rows, log, call);
      phase := call.phase;
      if phase.Refusing? {
        phase := RetainRefusal(call, newId, storage);
        AdmittedAlone(w, Refuse(0, newId, storage), Move(rows, log, phase));
      }
    }

    /**
     * A local IO mutation from admission to reply: only a caller that took the identity performs, once, between its two
     * transactions.
     */
    method InvokeLocalIO(call: Call, gate: Option<Fault>, newId: ID, prepare: Outcome<Plan>, storage: Commit,
                         refusalId: ID, refusalStorage: Commit, io: IOResult, finishGate: Option<Fault>,
                         finish: Outcome<Payload>, finishStorage: Commit, finishRefusalStorage: Commit)
      returns (reply: Reply)
      requires call.phase.Start? && call.localIO
      modifies this
      ensures Run(Alone(old(rows), old(log), call),
                  [Admit(0, gate, newId, Err(Internal("")), prepare, storage), Refuse(0, refusalId, refusalStorage),
                   Perform(0, io),
                   Complete(0, finishGate, finish, finishStorage), RefuseComplete(0, finishRefusalStorage)])
              == Alone(rows, log, call.(phase := Done(reply)))
    {
      ghost var w := Alone(rows, log, call);
      ghost var first :=
          [Admit(0, gate, newId, Err(Internal("")), prepare, storage), Refuse(0, refusalId, refusalStorage)];
      ghost var second :=
          [Perform(0, io), Complete(0, finishGate, finish, finishStorage), RefuseComplete(0, finishRefusalStorage)];
      var phase := Enter(call, gate, newId, prepare, storage, refusalId, refusalStorage);
      ghost var mid := Alone(rows, log, call.(phase := phase));
      if phase.Performing? {
        phase := Leave(call.(phase := phase), io, finishGate, finish, finishStorage, finishRefusalStorage);
      } else {
        DoneIsDone(mid, second[0], second[1], second[2]);
      }
      RunThree(mid, second[0], second[1], second[2]);
      RunAppend(w, first, second);
      assert first + second == [first[0], first[1], second[0], second[1], second[2]];
      return phase.reply;
    }

    method Enter(call: Call, gate: Option<Fault>, newId: ID, prepare: Outcome<Plan>, storage: Commit,
                 refusalId: ID, refusalStorage: Commit)
      returns (phase: Phase)
      requires call.phase.Start? && call.localIO
      modifies this
      ensures phase.Performing? || phase.Done?
      ensures Run(Alone(old(rows), old(log), call),
                  [Admit(0, gate, newId, Err(Internal("")), prepare, storage), Refuse(0, refusalId, refusalStorage)])
              == Alone(rows, log, call.(phase := phase))
    {
      ghost var w := Alone(rows, log, call);
      ghost var admit := Admit(0, gate, newId, Err(Internal("")), prepare, storage);
      phase := AdmitLocalIO(call, gate, newId, prepare, storage);
      AdmittedAlone(w, admit, Move(rows, log, phase));
      RunTwo(w, admit, Refuse(0, refusalId, refusalStorage));
      phase := Settle(call.(phase := phase), refusalId, refusalStorage);
    }

    method Leave(call: Call, io: IOResult, gate: Option<Fault>, finish: Outcome<Payload>, storage: Commit,
                 refusalStorage: Commit)
      returns (phase: Phase)
      requires call.phase.Performing?
      modifies this
      ensures phase.Done?
      ensures Exec(Exec(Exec(Alone(old(rows), old(log), call), Perform(0, io)), Complete(0, gate, finish, storage)),
                   RefuseComplete(0, refusalStorage))
              == Alone(rows, log, call.(phase := phase))
    {
      ghost var w := Alone(rows, log, call);
      phase := Finishing(call.phase.command, io);
      log := log + [Performed(call.identity)];
      AdmittedAlone(w, Perform(0, io), Move(rows, log, phase));
      w := Alone(rows, log, call.(phase := phase));
      phase := CompleteLocalIO(call.(phase := phase), gate, finish, storage);
      AdmittedAlone(w, Complete(0, gate, finish, storage), Move(rows, log, phase));
      w := Alone(rows, log, call.(phase := phase));
      if phase.RefusingFinish? {
        phase := RetainFinishRefusal(call.(phase := phase), refusalStorage);
        AdmittedAlone(w, RefuseComplete(0, refusalStorage), Move(rows, log, phase));
      }
    }
  }

  /** A world with a single caller. */
  function Alone(rows: seq<Row>, log: seq<Event>, call: Call): World {
    World(rows, log, map[0 := call])
  }

  lemma AdmittedAlone(w: World, s: Step, m: Move)
    requires w.calls.Keys == {0} && !s.Arrive? && !s.Crash? && s.c == 0 && Enabled(w, s) && MoveOf(w, s) == m
    ensures Exec(w, s) == Alone(m.rows, m.log, w.calls[0].(phase := m.phase))
  {
    assert w.calls[0 := w.calls[0].(phase := m.phase)] == map[0 := w.calls[0].(phase := m.phase)];
  }

  lemma RunTwo(w: World, a: Step, b: Step)
    ensures Run(w, [a, b]) == Exec(Exec(w, a), b)
  {
    assert [a, b][..1] == [a] && [a][..0] == [];
    assert Run(w, [a]) == Exec(Run(w, []), a);
  }

  lemma RunThree(w: World, a: Step, b: Step, c: Step)
    ensures Run(w, [a, b, c]) == Exec(Exec(Exec(w, a), b), c)
  {
    assert [a, b, c][..2] == [a, b];
    RunTwo(w, a, b);
  }

  lemma {:induction false} RunAppend(w: World, first: seq<Step>, second: seq<Step>)
    ensures Run(w, first + second) == Run(Run(w, first), second)
  {
    if second == [] {
      assert first + second == first;
    } else {
      var n := |second| - 1;
      assert (first + second)[..|first| + n] == first + second[..n];
      RunAppend(w, first, second[..n]);
    }
  }

  lemma DoneIsDone(w: World, a: Step, b: Step, c: Step)
    requires 0 in w.calls && w.calls[0].phase.Done? && a.Perform? && b.Complete? && c.RefuseComplete?
             && a.c == b.c == c.c == 0
    ensures Exec(Exec(Exec(w, a), b), c) == w
  {
  }
}
