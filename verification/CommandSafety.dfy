/** What callers can rely on over whole runs of the command protocol. */
module CommandSafety {
  import opened Wrappers
  import opened Evidence
  import opened Commands
  import opened CommandInvariant
  import opened CommandRuns

  lemma EmptyInv()
    ensures WInv(EMPTY)
  {
    forall x ensures Ordered(EMPTY.log, x) {
    }
  }

  lemma {:induction false} RunInv(w: World, steps: seq<Step>)
    requires WInv(w)
    ensures WInv(Run(w, steps))
  {
    if |steps| > 0 {
      RunInv(w, steps[..|steps| - 1]);
      StepInv(Run(w, steps[..|steps| - 1]), steps[|steps| - 1]);
    }
  }

  /**
   * Whatever the interleaving and wherever callers crash, no identity's handler effects, preparation, local IO or
   * completion is committed twice; local IO runs only under its committed preparation, and never beside an ordinary
   * handler of the same identity.
   */
  lemma AtMostOnce(steps: seq<Step>)
    ensures Distinct(Run(EMPTY, steps).log)
    ensures forall x :: Ordered(Run(EMPTY, steps).log, x)
  {
    EmptyInv();
    RunInv(EMPTY, steps);
  }

  /** A record whose first and only disposition is a failure. */
  predicate BareRefusal(r: Row) {
    r.dispositions == 1 && r.status == Failed
  }

  /** An identity has effects exactly when its record exists and is not a bare refusal. */
  lemma EffectsMatchRecord(steps: seq<Step>, x: Identity)
    ensures var w := Run(EMPTY, steps);
            (exists e :: e in w.log && e.identity == x) <==>
            (exists i :: 0 <= i < |w.rows| && w.rows[i].identity == x && !BareRefusal(w.rows[i]))
  {
    EmptyInv();
    RunInv(EMPTY, steps);
    var w := Run(EMPTY, steps);
    assert Ordered(w.log, x);
    if e :| e in w.log && e.identity == x {
      var i :| 0 <= i < |w.rows| && w.rows[i].identity == e.identity;
      assert Recorded(w.rows[i], w.log);
    }
    if i :| 0 <= i < |w.rows| && w.rows[i].identity == x && !BareRefusal(w.rows[i]) {
      assert RowOk(w.rows[i]) && Recorded(w.rows[i], w.log);
      assert Handled(x).identity == x && Prepared(x).identity == x;
    }
  }

  /** Every envelope any caller ever received names a retained command of its own identity and digest. */
  lemma EveryReplyIsBacked(steps: seq<Step>, c: CallId)
    requires c in Run(EMPTY, steps).calls
    ensures var w := Run(EMPTY, steps);
            w.calls[c].phase.Done? && w.calls[c].phase.reply.Delivered? ==>
              Answered(w.rows, w.calls[c], w.calls[c].phase.reply.result)
  {
    EmptyInv();
    RunInv(EMPTY, steps);
    assert CallOk(Run(EMPTY, steps).rows, Run(EMPTY, steps).log, Run(EMPTY, steps).calls[c]);
  }

  // ---- Records only move forward ----

  /** Rows and log stay; nobody starts to own local IO. */
  ghost predicate Quiet(w: World, w': World) {
    && w'.rows == w.rows && w'.log == w.log
    && forall c | c in w'.calls && w'.calls[c].phase.OwnsIO() ::
         c in w.calls && w.calls[c].phase.OwnsIO() && w.calls[c].identity == w'.calls[c].identity
  }

  ghost predicate MovedBy(w: World, w': World, c: CallId, m: Move) {
    c in w.calls && w' == World(m.rows, m.log, w.calls[c := w.calls[c].(phase := m.phase)])
  }

  ghost predicate Opened(w: World, w': World, c: CallId, m: Move, result: Envelope, e: Effect) {
    MovedBy(w, w', c, m) && Opens(w.rows, w.log, w.calls[c], m, result, e)
  }

  ghost predicate Closed(w: World, w': World, c: CallId, m: Move, i: nat, result: Envelope, finished: bool) {
    MovedBy(w, w', c, m) && w.calls[c].phase.OwnsIO() && Closes(w.rows, w.log, w.calls[c], m, i, result, finished)
  }

  ghost predicate PerformedBy(w: World, w': World, c: CallId, m: Move) {
    && MovedBy(w, w', c, m) && w.calls[c].phase.Performing? && m.phase.OwnsIO()
    && m.rows == w.rows && m.log == w.log + [Performed(w.calls[c].identity)]
  }

  ghost predicate Changes(w: World, w': World) {
    || Quiet(w, w')
    || (exists c, m, result, e :: Opened(w, w', c, m, result, e))
    || (exists c, m, i: nat, result, finished :: Closed(w, w', c, m, i, result, finished))
    || (exists c, m :: PerformedBy(w, w', c, m))
  }

  lemma FirstTransactions(w: World, s: Step)
    requires WInv(w) && Enabled(w, s) && (s.Admit? || s.Refuse?)
    ensures Idle(w.rows, w.log, w.calls[s.c], MoveOf(w, s))
            || exists result, e :: Opens(w.rows, w.log, w.calls[s.c], MoveOf(w, s), result, e)
  {
    match s
    case Admit(c, gate, newId, handler, prepare, storage) =>
      AdmitMutationMoves(w.rows, w.log, w.calls[c], gate, newId, handler, storage);
      AdmitIOMoves(w.rows, w.log, w.calls[c], gate, newId, prepare, storage);
    case Refuse(c, newId, storage) =>
      RecordRefusalMoves(w.rows, w.log, w.calls[c], newId, storage);
  }

  lemma StepChanges(w: World, s: Step)
    requires WInv(w)
    ensures Changes(w, Exec(w, s))
  {
    var w' := Exec(w, s);
    if Enabled(w, s) && !s.Arrive? && !s.Crash? {
      var m := MoveOf(w, s);
      assert MovedBy(w, w', s.c, m);
      if s.Perform? {
        assert PerformedBy(w, w', s.c, m);
      } else if s.Complete? {
        FinishIOMoves(w.rows, w.log, w.calls[s.c], s.gate, s.finish, s.storage);
        if i: nat, result :| Closes(w.rows, w.log, w.calls[s.c], m, i, result, true) {
          assert Closed(w, w', s.c, m, i, result, true);
        }
      } else if s.RefuseComplete? {
        RecordFinishRefusalMoves(w.rows, w.log, w.calls[s.c], s.storage);
        if i: nat, result :| Closes(w.rows, w.log, w.calls[s.c], m, i, result, false) {
          assert Closed(w, w', s.c, m, i, result, false);
        }
      } else {
        FirstTransactions(w, s);
        if result, e :| Opens(w.rows, w.log, w.calls[s.c], m, result, e) {
          assert Opened(w, w', s.c, m, result, e);
        }
      }
    }
  }

  lemma StepExtends(w: World, s: Step)
    requires WInv(w)
    ensures Extends(w.rows, Exec(w, s).rows) && w.log <= Exec(w, s).log
  {
    StepChanges(w, s);
    var w' := Exec(w, s);
    if c, m, result, e :| Opened(w, w', c, m, result, e) {
      InsertsInv(w.rows, w'.rows, w.calls[c].identity, w.calls[c].digest, result);
    } else if c, m, i: nat, result, finished :| Closed(w, w', c, m, i, result, finished) {
      ReplacesInv(w.rows, w'.rows, i, result);
    }
  }

  /** Over any run, records are only added, a pending one is replaced at most once, and no other one changes. */
  lemma {:induction false} RunExtends(w: World, steps: seq<Step>)
    requires WInv(w)
    ensures Extends(w.rows, Run(w, steps).rows) && w.log <= Run(w, steps).log
  {
    if |steps| > 0 {
      var before := Run(w, steps[..|steps| - 1]);
      RunExtends(w, steps[..|steps| - 1]);
      RunInv(w, steps[..|steps| - 1]);
      StepExtends(before, steps[|steps| - 1]);
      ExtendsTransitive(w.rows, before.rows, Run(w, steps).rows);
    }
  }

  lemma TerminalForever(w: World, steps: seq<Step>, i: nat)
    requires WInv(w) && i < |w.rows| && !w.rows[i].Replaceable()
    ensures i < |Run(w, steps).rows| && Run(w, steps).rows[i] == w.rows[i]
  {
    RunExtends(w, steps);
    assert Evolves(w.rows[i], Run(w, steps).rows[i]);
  }

  // ---- Later calls on a taken identity ----

  /**
   * A later call on a taken identity, admitted or refused, changes neither the records nor the effects. What it
   * delivers is the retained envelope, and only to the same request.
   */
  lemma LaterCall(w: World, s: Step, i: nat)
    requires WInv(w) && Enabled(w, s) && (s.Admit? || s.Refuse?)
    requires i < |w.rows| && w.rows[i].identity == w.calls[s.c].identity
    ensures var w' := Exec(w, s); var phase := w'.calls[s.c].phase;
            && w'.rows == w.rows && w'.log == w.log
            && (Plain(phase) || (w.rows[i].digest == w.calls[s.c].digest && phase == Done(Delivered(w.rows[i].result))))
  {
    FirstTransactions(w, s);
    var call, m := w.calls[s.c], MoveOf(w, s);
    assert !exists result, e :: Opens(w.rows, w.log, call, m, result, e);
    if !Plain(m.phase) {
      var j :| 0 <= j < |w.rows| && w.rows[j].identity == call.identity && w.rows[j].digest == call.digest
               && m.phase == Done(Delivered(w.rows[j].result));
      assert j == i;
    }
  }

  /**
   * What an admission past the gates answers on a taken identity: the retained envelope, or a conflict for another
   * request.
   */
  lemma ReplayExact(w: World, s: Step, i: nat)
    requires WInv(w) && Enabled(w, s) && s.Admit? && s.gate.None?
    requires i < |w.rows| && w.rows[i].identity == w.calls[s.c].identity
    ensures var phase := Exec(w, s).calls[s.c].phase;
            if w.rows[i].digest == w.calls[s.c].digest then phase == Done(Delivered(w.rows[i].result))
            else phase.Done? && phase.reply.FaultOnly? && phase.reply.fault.code == SubmissionConflict
  {
    var call := w.calls[s.c];
    assert RowOk(w.rows[i]);
    assert FindIdentity(w.rows, call.identity) == Some(i);
    ReplayOk(w.rows[i]);
  }

  /**
   * Once a command is terminal, every later identical call past the gates receives that very envelope, whatever
   * happened between.
   */
  lemma TerminalReplaysForever(w: World, steps: seq<Step>, s: Step, i: nat)
    requires WInv(w) && i < |w.rows| && !w.rows[i].Replaceable()
    requires Enabled(Run(w, steps), s) && s.Admit? && s.gate.None?
    requires Run(w, steps).calls[s.c].identity == w.rows[i].identity
             && Run(w, steps).calls[s.c].digest == w.rows[i].digest
    ensures Exec(Run(w, steps), s).calls[s.c].phase == Done(Delivered(w.rows[i].result))
  {
    TerminalForever(w, steps, i);
    RunInv(w, steps);
    ReplayExact(Run(w, steps), s, i);
  }

  /**
   * A gate refusal or a changed request on a retained command never displaces it: the caller gets its own fault at
   * most.
   */
  lemma RefusedCallKeepsRecord(w: World, c: CallId, newId: ID, storage: Commit, i: nat)
    requires WInv(w) && Enabled(w, Refuse(c, newId, storage))
    requires i < |w.rows| && w.rows[i].identity == w.calls[c].identity
    ensures var w' := Exec(w, Refuse(c, newId, storage)); var f := w.calls[c].phase.fault;
            && w'.rows == w.rows
            && (w'.calls[c].phase == Done(FaultOnly(f))
                || (w'.calls[c].phase == Done(Delivered(w.rows[i].result)) && SameRefusal(w.rows[i].result, f)))
  {
    var call := w.calls[c];
    assert RowOk(w.rows[i]);
    assert FindIdentity(w.rows, call.identity) == Some(i);
    ReplayOk(w.rows[i]);
  }

  // ---- Crashes between the two transactions ----

  ghost predicate Unowned(w: World, x: Identity) {
    forall c | c in w.calls && w.calls[c].phase.OwnsIO() :: w.calls[c].identity != x
  }

  ghost predicate SameEffects(log: seq<Event>, log': seq<Event>, x: Identity) {
    forall e: Event | e.identity == x :: e in log' <==> e in log
  }

  /** Nothing that belongs to the identity of row `i` changes, and nobody owns it afterwards. */
  ghost predicate Untouched(w: World, w': World, i: nat)
    requires i < |w.rows|
  {
    && Unowned(w', w.rows[i].identity)
    && i < |w'.rows| && w'.rows[i] == w.rows[i]
    && SameEffects(w.log, w'.log, w.rows[i].identity)
  }

  lemma OpenedElsewhere(w: World, w': World, i: nat, c: CallId, m: Move, result: Envelope, e: Effect)
    requires i < |w.rows| && Unowned(w, w.rows[i].identity) && Opened(w, w', c, m, result, e)
    ensures Untouched(w, w', i)
  {
  }

  lemma ClosedElsewhere(w: World, w': World, i: nat, c: CallId, m: Move, j: nat, result: Envelope, finished: bool)
    requires WInv(w) && i < |w.rows| && Unowned(w, w.rows[i].identity) && Closed(w, w', c, m, j, result, finished)
    ensures Untouched(w, w', i)
  {
    assert CallOk(w.rows, w.log, w.calls[c]);
    assert w.rows[j].identity == w.calls[c].identity;
    assert j != i;
  }

  lemma PerformedElsewhere(w: World, w': World, i: nat, c: CallId, m: Move)
    requires i < |w.rows| && Unowned(w, w.rows[i].identity) && PerformedBy(w, w', c, m)
    ensures Untouched(w, w', i)
  {
  }

  lemma AbandonedStep(w: World, s: Step, i: nat)
    requires WInv(w) && i < |w.rows| && Unowned(w, w.rows[i].identity)
    ensures Untouched(w, Exec(w, s), i)
  {
    StepChanges(w, s);
    var w' := Exec(w, s);
    if Quiet(w, w') {
    } else if c, m, result, e :| Opened(w, w', c, m, result, e) {
      OpenedElsewhere(w, w', i, c, m, result, e);
    } else if c, m, j: nat, result, finished :| Closed(w, w', c, m, j, result, finished) {
      ClosedElsewhere(w, w', i, c, m, j, result, finished);
    } else {
      var c, m :| PerformedBy(w, w', c, m);
      PerformedElsewhere(w, w', i, c, m);
    }
  }

  /**
   * A command whose owner crashed between Prepare and Finish stays exactly as it was left: no later run performs its
   * local IO, completes it or touches its record.
   */
  lemma {:induction false} AbandonedForever(w: World, steps: seq<Step>, i: nat)
    requires WInv(w) && i < |w.rows| && Unowned(w, w.rows[i].identity)
    ensures Untouched(w, Run(w, steps), i)
  {
    if |steps| > 0 {
      var prefix := steps[..|steps| - 1];
      AbandonedForever(w, prefix, i);
      RunInv(w, prefix);
      AbandonedStep(Run(w, prefix), steps[|steps| - 1], i);
    }
  }

  /**
   * A caller that crashes after Prepare leaves its record: whatever runs afterwards, an identical call past the gates
   * receives what was retained at the crash and nothing is performed again. The record is the accepted one, unless the
   * caller crashed while refusing a completion whose commit was not acknowledged.
   */
  lemma CrashLeavesAccepted(w: World, c: CallId, steps: seq<Step>, s: Step, i: nat)
    requires WInv(w) && c in w.calls && w.calls[c].phase.OwnsIO() && i < |w.rows|
             && w.rows[i].identity == w.calls[c].identity
    requires var later := Run(Exec(w, Crash(c)), steps);
             && Enabled(later, s) && s.Admit? && s.gate.None?
             && later.calls[s.c].identity == w.calls[c].identity && later.calls[s.c].digest == w.calls[c].digest
    ensures var later := Run(Exec(w, Crash(c)), steps);
            && Exec(later, s).calls[s.c].phase == Done(Delivered(w.rows[i].result))
            && (!w.calls[c].phase.RefusingFinish? ==> w.rows[i].result.payload.status == Accepted)
            && SameEffects(w.log, Exec(later, s).log, w.calls[c].identity)
  {
    var crashed := Exec(w, Crash(c));
    var later := Run(crashed, steps);
    OwnerRow(w, c, i);
    CrashUnowned(w, c);
    StepInv(w, Crash(c));
    AbandonedForever(crashed, steps, i);
    RunInv(crashed, steps);
    ReplayExact(later, s, i);
    LaterCall(later, s, i);
  }

  lemma OwnerRow(w: World, c: CallId, i: nat)
    requires WInv(w) && c in w.calls && w.calls[c].phase.OwnsIO() && i < |w.rows|
             && w.rows[i].identity == w.calls[c].identity
    ensures OwnedRow(w.rows[i], w.calls[c]) && w.rows[i].digest == w.calls[c].digest
    ensures !w.calls[c].phase.RefusingFinish? ==> w.rows[i].result.payload.status == Accepted
  {
    assert CallOk(w.rows, w.log, w.calls[c]);
    var j :| 0 <= j < |w.rows| && OwnedRow(w.rows[j], w.calls[c]);
    assert j == i;
    assert RowOk(w.rows[i]);
  }

  lemma CrashUnowned(w: World, c: CallId)
    requires WInv(w) && c in w.calls && w.calls[c].phase.OwnsIO()
    ensures Unowned(Exec(w, Crash(c)), w.calls[c].identity) && Exec(w, Crash(c)).rows == w.rows
            && Exec(w, Crash(c)).log == w.log
  {
  }
}
