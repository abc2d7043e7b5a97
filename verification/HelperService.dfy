/** The helper engine as it runs: one pass from lock to unlock over the durable intent, the vault and the controller. */
module HelperService {
  import opened Wrappers
  import opened HelperProtocol
  import opened HelperSafety
  import opened HelperPasses

  class Helper {
    const connection: string
    var disk: Option<Intent>
    var vault: map<string, string>
    var ctl: Controller
    /** Everything submitted and every effective credential write, in order. */
    ghost var submitted: seq<Submission>
    ghost var puts: seq<string>
    ghost var used: set<string>
    ghost var at: Point

    ghost function View(): State
      reads this
    {
      State(connection, disk, vault, puts, submitted, used, ctl, at)
    }

    ghost predicate Safe()
      reads this
    {
      Secure(View())
    }

    constructor (connection: string, ctl: Controller)
      requires ctl.credential in ctl.effective
      ensures Safe() && Initial(View())
    {
      this.connection, this.ctl, disk, vault := connection, ctl, None, map[];
      submitted, puts, used, at := [], [], {}, Idle;
      new;
      SecureAlways(View());
    }

    /** Records a step whose durable and remote effects have just been made. */
    ghost method Note(e: Event, s: State)
      requires Secure(s)
      requires connection == s.connection && disk == Next(s, e).disk && vault == Next(s, e).vault
               && ctl == Next(s, e).ctl
      modifies this`submitted, this`puts, this`used, this`at
      ensures Safe() && View() == Next(s, e)
    {
      SecureNow(s);
      StepInv(s, e);
      SecureAlways(Next(s, e));
      NextConnection(s, e);
      var s' := Next(s, e);
      submitted, puts, used, at := s'.submitted, s'.puts, s'.used, s'.at;
    }

    /** The controller as a remote read finds it. */
    method Observe(now: Controller)
      requires Safe()
      modifies this
      ensures Safe() && at == old(at) && disk == old(disk) && used == old(used)
      ensures View() == Next(old(View()), Evolve(now))
    {
      ghost var s := View();
      if Honest(ctl, now) {
        ctl := now;
      }
      Note(Evolve(now), s);
    }

    /** Refuses an invalid intent; an unsynced write has happened and still fails. */
    method Store(i: Intent, w: Write) returns (ok: bool)
      modifies this`disk
      ensures ok <==> Valid(i) && w.Written?
      ensures disk == if Valid(i) && !w.NotWritten? then Some(i) else old(disk)
    {
      if !Valid(i) || w.NotWritten? {
        return false;
      }
      disk := Some(i);
      return w.Written?;
    }

    // ---- Preparation ----

    method Open(installation: string) returns (p: Point)
      requires Safe() && at == Idle
      modifies this
      ensures (p.Idle? || p.Loaded?)
      ensures Safe() && at == p && used == old(used) && (p.Loaded? ==> p.installation == installation)
      ensures View() == Next(old(View()), Start(installation))
    {
      ghost var s := View();
      p := Loaded(installation);
      if disk.Some? {
        if !Valid(disk.value) || disk.value.connection != connection || disk.value.installation != installation {
          p := Idle;
        }
      }
      Note(Start(installation), s);
    }

    method GetOrCreate(installation: string, a: Answers) returns (p: Point)
      requires Safe() && at == Loaded(installation) && Minted(View(), a.beginId, a.completeId, a.nameId)
      modifies this
      ensures (p.Idle? || p.Connected?)
      ensures Safe() && at == p
      ensures View()
              == Next(old(View()),
                      GetConnection(a.connected, a.version, a.account, a.beginId, a.completeId, a.nameId, a.write(0)))
    {
      ghost var s := View();
      ghost var e := GetConnection(a.connected, a.version, a.account, a.beginId, a.completeId, a.nameId, a.write(0));
      p := Idle;
      if a.connected && a.version >= 1 {
        var conn := Connection(a.version, a.account, ctl.credential);
        if disk.Some? {
          p := Connected(disk.value, conn);
        } else {
          var key := BEGIN_PREFIX + a.beginId;
          var i := Intent(installation, connection, conn.version, conn.account,
                          key, Digest(SetupBegin, key, BeginRequest(installation, connection, conn.version)), "", 0, 0,
                          NAME_PREFIX + a.nameId, "", COMPLETE_PREFIX + a.completeId, None);
          var ok := Store(i, a.write(0));
          if ok {
            p := Connected(i, conn);
          }
        }
      }
      Note(e, s);
    }

    method ReconcileBegin(i: Intent, conn: Connection, retained: Lookup<BeginReply>) returns (p: Point)
      requires Safe() && at == Connected(i, conn)
      modifies this
      ensures (p.Idle? || p.Challenged? || p.Begun? || p.BeginReady?)
      ensures Safe() && at == p && View() == Next(old(View()), LookupBegin(retained))
    {
      ghost var s := View();
      if Digest(SetupBegin, i.beginKey, BeginOf(i)) != i.beginDigest {
        p := Idle;
      } else if i.account != conn.account && conn.credential != i.ref {
        p := Idle;
      } else if i.challenge != "" {
        p := Challenged(i, conn);
      } else {
        match retained {
          case Unanswered => p := Idle;
          case Found(reply) => p := Begun(i, conn, reply);
          case NotFound => p := if conn.version != i.connectionVersion then Idle else BeginReady(i, conn);
        }
      }
      Note(LookupBegin(retained), s);
    }

    method SendBegin(i: Intent, conn: Connection, acknowledged: Option<BeginReply>) returns (p: Point)
      requires Safe() && at == BeginReady(i, conn)
      modifies this
      ensures (p.Idle? || p.Begun?)
      ensures Safe() && at == p && View() == Next(old(View()), SubmitBegin(acknowledged))
    {
      ghost var s := View();
      p := if acknowledged.None? then Idle else Begun(i, conn, acknowledged.value);
      Note(SubmitBegin(acknowledged), s);
    }

    method KeepChallenge(i: Intent, conn: Connection, reply: BeginReply, live: bool, w: Write) returns (p: Point)
      requires Safe() && at == Begun(i, conn, reply)
      modifies this
      ensures (p.Idle? || p.Challenged?)
      ensures Safe() && at == p && View() == Next(old(View()), SaveChallenge(live, w))
    {
      ghost var s := View();
      p := Idle;
      if reply.completed && IdOk(reply.id) && reply.version >= 1 && live && reply.expires > 0 {
        var next := i.(challenge := reply.id, challengeVersion := reply.version, expires := reply.expires);
        var ok := Store(next, w);
        if ok {
          p := Challenged(next, conn);
        }
      }
      Note(SaveChallenge(live, w), s);
    }

    method CheckStatus(i: Intent, conn: Connection, answered: bool, live: bool) returns (p: Point)
      requires Safe() && at == Challenged(i, conn)
      modifies this
      ensures (p.Idle? || p.Live? || p.Removing? || p.Discarding?) && (p.Removing? ==> p.why.Matched?)
      ensures Safe() && at == p && View() == Next(old(View()), ReadStatus(answered, live))
    {
      ghost var s := View();
      p := Idle;
      if answered && i.challenge in ctl.challenges {
        var c := ctl.challenges[i.challenge];
        if c.version < 1 || c.connection != connection {
        } else if c.state == Completed {
          if i.ref != "" && conn.credential == i.ref {
            p := Removing(i, Matched(conn.credential));
          }
        } else if c.state == Cancelled || c.state == Expired || c.state == SetupFailed {
          p := Discarding(i, conn.credential);
        } else if StillLive(i, c, live) && conn.version == i.connectionVersion && conn.account == i.account {
          p := Live(i, conn);
        }
      }
      Note(ReadStatus(answered, live), s);
    }

    // ---- Capture ----

    /** Looks the credential up under its durable name before anything is written. */
    method FindCredential(i: Intent, conn: Connection, answered: bool) returns (p: Point)
      requires Safe() && at == Live(i, conn)
      modifies this
      ensures (p.Idle? || p.RefSaved? || p.GotRef? || p.PutReady?)
      ensures Safe() && at == p && View() == Next(old(View()), LookupCredential(answered))
    {
      ghost var s := View();
      p := Idle;
      if i.ref != "" {
        p := RefSaved(i);
      } else if answered {
        if i.name in vault {
          p := GotRef(i, vault[i.name]);
        } else if conn.version == i.connectionVersion {
          p := PutReady(i);
        }
      }
      Note(LookupCredential(answered), s);
    }

    method WriteCredential(i: Intent, outcome: PutOutcome) returns (p: Point)
      requires Safe() && at == PutReady(i)
      modifies this
      ensures (p.Idle? || p.GotRef?)
      ensures Safe() && at == p && View() == Next(old(View()), PutCredential(outcome))
      ensures !outcome.PutFailed? ==> puts == old(puts) + [i.name] && i.name !in old(puts)
    {
      ghost var s := View();
      SecureNow(s);
      p := Idle;
      if !outcome.PutFailed? {
        vault := vault[i.name := outcome.ref];
        if outcome.PutOk? {
          p := GotRef(i, outcome.ref);
        }
      }
      Note(PutCredential(outcome), s);
    }

    method KeepRef(i: Intent, ref: string, w: Write) returns (p: Point)
      requires Safe() && at == GotRef(i, ref)
      modifies this
      ensures (p.Idle? || p.RefSaved?)
      ensures Safe() && at == p && View() == Next(old(View()), SaveRef(w))
    {
      ghost var s := View();
      var next := i.(ref := ref);
      var ok := Store(next, w);
      p := if ok && ref != "" then RefSaved(next) else Idle;
      Note(SaveRef(w), s);
    }

    // ---- Completion ----

    method PinRequest(i: Intent, key: Option<string>, w: Write) returns (p: Point)
      requires Safe() && at == RefSaved(i)
      modifies this
      ensures (p.Idle? || p.Pinned?)
      ensures Safe() && at == p && View() == Next(old(View()), PinComplete(key, w))
    {
      ghost var s := View();
      p := Idle;
      if key.Some? {
        var request := CompleteOf(i, key.value);
        var digest := Digest(SetupComplete, i.completeKey, request);
        if i.completeDigest.None? {
          var next := i.(completeDigest := Some(digest));
          var ok := Store(next, w);
          if ok {
            p := Pinned(next, request);
          }
        } else if i.completeDigest == Some(digest) {
          p := Pinned(i, request);
        }
      }
      Note(PinComplete(key, w), s);
    }

    method FindComplete(i: Intent, request: Request, retained: Lookup<bool>) returns (p: Point)
      requires Safe() && at == Pinned(i, request)
      modifies this
      ensures (p.Idle? || p.AwaitStatus? || p.Unretained?)
      ensures Safe() && at == p && View() == Next(old(View()), LookupComplete(retained))
    {
      ghost var s := View();
      match retained {
        case Unanswered => p := Idle;
        case Found(completed) => p := if completed then AwaitStatus(i) else Idle;
        case NotFound => p := Unretained(i, request);
      }
      Note(LookupComplete(retained), s);
    }

    method CheckBeforeReplay(i: Intent, request: Request, answered: bool, live: bool) returns (p: Point)
      requires Safe() && at == Unretained(i, request)
      modifies this
      ensures (p.Idle? || p.AwaitConnection? || p.CompleteReady?)
      ensures Safe() && at == p && View() == Next(old(View()), RecheckStatus(answered, live))
    {
      ghost var s := View();
      p := Idle;
      if answered && i.challenge in ctl.challenges {
        var c := ctl.challenges[i.challenge];
        if c.version < 1 {
        } else if c.state == Completed {
          p := AwaitConnection(i);
        } else if StillLive(i, c, live) {
          p := CompleteReady(i, request);
        }
      }
      Note(RecheckStatus(answered, live), s);
    }

    method SendComplete(i: Intent, request: Request, delivered: bool) returns (p: Point)
      requires Safe() && at == CompleteReady(i, request)
      modifies this
      ensures (p.Idle? || p.AwaitStatus?)
      ensures Safe() && at == p && View() == Next(old(View()), SubmitComplete(delivered))
    {
      ghost var s := View();
      p := if delivered then AwaitStatus(i) else Idle;
      Note(SubmitComplete(delivered), s);
    }

    method AwaitChallenge(i: Intent, answered: bool) returns (p: Point)
      requires Safe() && at == AwaitStatus(i)
      modifies this
      ensures (p.Idle? || p.AwaitConnection?)
      ensures Safe() && at == p && View() == Next(old(View()), FinalStatus(answered))
    {
      ghost var s := View();
      p := Idle;
      if answered && i.challenge in ctl.challenges && ctl.challenges[i.challenge].version >= 1
         && ctl.challenges[i.challenge].state == Completed {
        p := AwaitConnection(i);
      }
      Note(FinalStatus(answered), s);
    }

    method ConfirmConnection(i: Intent, answered: bool) returns (p: Point)
      requires Safe() && at == AwaitConnection(i)
      modifies this
      ensures (p.Idle? || p.Removing?) && (p.Removing? ==> p.why.Matched?)
      ensures Safe() && at == p && View() == Next(old(View()), FinalConnection(answered))
    {
      ghost var s := View();
      p := if answered && ctl.credential == i.ref then Removing(i, Matched(ctl.credential)) else Idle;
      Note(FinalConnection(answered), s);
    }

    method DiscardTerminal(i: Intent, effective: string, answered: bool, deleted: bool,
                           confirmed: bool) returns (p: Point)
      requires Safe() && at == Discarding(i, effective)
      modifies this
      ensures (p.Idle? || p.Removing?)
      ensures Safe() && at == p && View() == Next(old(View()), Discard(answered, deleted, confirmed))
    {
      ghost var s := View();
      p := Idle;
      if i.ref != "" || answered {
        var ref := i.ref;
        if ref == "" && i.name in vault {
          ref := vault[i.name];
        }
        if ref == "" || ref == effective {
          p := Removing(i, Terminal);
        } else if deleted {
          vault := map n | n in vault && vault[n] != ref :: vault[n];
          if confirmed {
            p := Removing(i, Terminal);
          }
        }
      }
      Note(Discard(answered, deleted, confirmed), s);
    }

    /** Removes the intent of a setup that is over. */
    method Clear(i: Intent, why: Why, w: Write) returns (ok: bool)
      requires Safe() && at == Removing(i, why)
      modifies this
      ensures Safe() && at == Idle && View() == Next(old(View()), Remove(w))
      ensures Over(old(View()), i) && (ok <==> w.Written?) && (ok ==> disk == None)
    {
      ghost var s := View();
      SecureNow(s);
      if !w.NotWritten? {
        disk := None;
      }
      ok := w.Written?;
      Note(Remove(w), s);
    }

    // ---- Remote reads ----

    method CheckAgain(i: Intent, request: Request, now: Controller, answered: bool, live: bool) returns (p: Point)
      requires Safe() && at == Unretained(i, request)
      modifies this
      ensures (p.Idle? || p.AwaitConnection? || p.CompleteReady?)
      ensures Safe() && at == p && View() == Take(old(View()), Turn(Some(now), RecheckStatus(answered, live)))
    {
      Observe(now);
      p := CheckBeforeReplay(i, request, answered, live);
    }

    method ReadChallenge(i: Intent, now: Controller, answered: bool) returns (p: Point)
      requires Safe() && at == AwaitStatus(i)
      modifies this
      ensures (p.Idle? || p.AwaitConnection?)
      ensures Safe() && at == p && View() == Take(old(View()), Turn(Some(now), FinalStatus(answered)))
    {
      Observe(now);
      p := AwaitChallenge(i, answered);
    }

    method ReadCredential(i: Intent, now: Controller, answered: bool) returns (p: Point)
      requires Safe() && at == AwaitConnection(i)
      modifies this
      ensures (p.Idle? || p.Removing?) && (p.Removing? ==> p.why.Matched?)
      ensures Safe() && at == p && View() == Take(old(View()), Turn(Some(now), FinalConnection(answered)))
    {
      Observe(now);
      p := ConfirmConnection(i, answered);
    }

    // ---- One pass ----

    /** From the lock to a durable intent checked against the connection. */
    method Enter(installation: string, a: Answers) returns (p: Point)
      requires Safe() && at == Idle && Minted(View(), a.beginId, a.completeId, a.nameId)
      modifies this
      ensures Safe() && at == p && (p.Idle? || p.Connected?)
      ensures View() == TakeAll(old(View()), EnterTurns(installation, a))
    {
      ghost var s, turns := View(), EnterTurns(installation, a);
      p := Open(installation);
      ghost var loaded := View();
      if p.Loaded? {
        Observe(a.controller(0));
        p := GetOrCreate(installation, a);
      }
      assert View() == Take(loaded, turns[1]);
      JoinTwo(s, loaded, View(), turns[0], turns[1]);
    }

    /** To a durable challenge, replaying or submitting setup.begin under its original key. */
    method BeginSetup(i: Intent, conn: Connection, a: Answers) returns (p: Point)
      requires Safe() && at == Connected(i, conn)
      modifies this
      ensures Safe() && at == p && (p.Idle? || p.Challenged?)
      ensures View() == TakeAll(old(View()), BeginTurns(a))
    {
      ghost var s, turns := View(), BeginTurns(a);
      p := ReconcileBegin(i, conn, a.retainedBegin);
      ghost var looked := View();
      if p.BeginReady? {
        p := SendBegin(p.i, p.conn, a.begun);
      }
      ghost var sent := View();
      assert sent == Take(looked, turns[1]);
      if p.Begun? {
        p := KeepChallenge(p.i, p.conn, p.reply, a.live(0), a.write(1));
      }
      assert View() == Take(sent, turns[2]);
      JoinThree(s, looked, sent, View(), turns[0], turns[1], turns[2]);
    }

    /** From the lock to a live challenge, a removal, or an error. */
    method Prepare(installation: string, a: Answers) returns (p: Point)
      requires Safe() && at == Idle && Minted(View(), a.beginId, a.completeId, a.nameId)
      modifies this
      ensures Safe() && at == p && (p.Idle? || p.Live? || p.Removing? || p.Discarding?)
      ensures View() == TakeAll(old(View()), PrepareTurns(installation, a))
      ensures p.Removing? ==> p.why.Matched?
    {
      ghost var s := View();
      ghost var status := Turn(Some(a.controller(1)), ReadStatus(a.answered(1), a.live(1)));
      p := Enter(installation, a);
      ghost var entered := View();
      if p.Connected? {
        p := BeginSetup(p.i, p.conn, a);
      } else {
        BeginSkipped(entered, a);
      }
      ghost var begun := View();
      if p.Challenged? {
        Observe(a.controller(1));
        p := CheckStatus(p.i, p.conn, a.answered(1), a.live(1));
      }
      assert View() == Take(begun, status);
      TakeOne(begun, status);
      Join(s, entered, begun, View(), EnterTurns(installation, a), BeginTurns(a), [status]);
    }

    /** From a live challenge to a durable credential reference. */
    method Capture(i: Intent, conn: Connection, a: Answers) returns (p: Point)
      requires Safe() && at == Live(i, conn)
      modifies this
      ensures Safe() && at == p && (p.Idle? || p.RefSaved?)
      ensures View() == TakeAll(old(View()), CaptureTurns(a))
    {
      ghost var s, turns := View(), CaptureTurns(a);
      p := FindCredential(i, conn, a.answered(2));
      ghost var found := View();
      if p.PutReady? {
        p := WriteCredential(p.i, a.put);
      }
      ghost var written := View();
      assert written == Take(found, turns[1]);
      if p.GotRef? {
        p := KeepRef(p.i, p.ref, a.write(2));
      }
      assert View() == Take(written, turns[2]);
      JoinThree(s, found, written, View(), turns[0], turns[1], turns[2]);
    }

    /** Submits the pinned setup.complete unless the controller already has it. */
    method Submit(i: Intent, request: Request, a: Answers) returns (p: Point)
      requires Safe() && at == Pinned(i, request)
      modifies this
      ensures Safe() && at == p && (p.Idle? || p.AwaitStatus? || p.AwaitConnection?)
      ensures View() == TakeAll(old(View()), SubmitTurns(a))
    {
      ghost var s, turns := View(), SubmitTurns(a);
      p := FindComplete(i, request, a.retainedComplete);
      ghost var found := View();
      if p.Unretained? {
        p := CheckAgain(p.i, p.request, a.controller(2), a.answered(3), a.live(3));
      }
      ghost var checked := View();
      if p.CompleteReady? {
        p := SendComplete(p.i, p.request, a.delivered);
      }
      assert View() == Take(checked, turns[2]);
      JoinThree(s, found, checked, View(), turns[0], turns[1], turns[2]);
    }

    /** Waits for the authoritative challenge and connection. */
    method Await(q: Point, a: Answers) returns (p: Point)
      requires Safe() && at == q && (q.Idle? || q.AwaitStatus? || q.AwaitConnection?)
      modifies this
      ensures Safe() && at == p && (p.Idle? || p.Removing?)
      ensures View() == TakeAll(old(View()), AwaitTurns(a))
      ensures p.Removing? ==> p.why.Matched?
    {
      ghost var s, turns := View(), AwaitTurns(a);
      p := q;
      if p.AwaitStatus? {
        p := ReadChallenge(p.i, a.controller(3), a.answered(4));
      }
      ghost var awaited := View();
      if p.AwaitConnection? {
        p := ReadCredential(p.i, a.controller(4), a.answered(5));
      }
      assert View() == Take(awaited, turns[1]);
      JoinTwo(s, awaited, View(), turns[0], turns[1]);
    }

    /** From a credential reference to a confirmed completion. */
    method Finish(i: Intent, a: Answers) returns (p: Point)
      requires Safe() && at == RefSaved(i)
      modifies this
      ensures Safe() && at == p && (p.Idle? || p.Removing?)
      ensures View() == TakeAll(old(View()), FinishTurns(a))
      ensures p.Removing? ==> p.why.Matched?
    {
      ghost var s, pin := View(), Turn(None, PinComplete(a.key, a.write(3)));
      p := PinRequest(i, a.key, a.write(3));
      ghost var pinned := View();
      TakeOne(s, pin);
      if p.Pinned? {
        p := Submit(p.i, p.request, a);
      } else {
        SubmitSkipped(pinned, a);
      }
      ghost var submitted := View();
      p := Await(p, a);
      Join(s, pinned, submitted, View(), [pin], SubmitTurns(a), AwaitTurns(a));
    }

    /** From the lock to an intent that may be removed, a challenge that has ended, or an error. */
    method Attempt(installation: string, a: Answers) returns (p: Point)
      requires Safe() && at == Idle && Minted(View(), a.beginId, a.completeId, a.nameId)
      modifies this
      ensures Safe() && at == p && (p.Idle? || p.Discarding? || p.Removing?)
      ensures View() == TakeAll(old(View()), AttemptTurns(installation, a))
      ensures p.Removing? ==> p.why.Matched?
    {
      ghost var s := View();
      p := Prepare(installation, a);
      ghost var prepared := View();
      if p.Live? {
        p := Capture(p.i, p.conn, a);
      } else {
        CaptureSkipped(prepared, a);
      }
      ghost var captured := View();
      if p.RefSaved? {
        p := Finish(p.i, a);
      } else {
        FinishSkipped(captured, a);
      }
      Join(s, prepared, captured, View(), PrepareTurns(installation, a), CaptureTurns(a), FinishTurns(a));
    }

    /** Discards the credential of an ended challenge, and removes the intent of a setup that is over. */
    method End(q: Point, a: Answers) returns (cleared: bool)
      requires Safe() && at == q && (q.Idle? || q.Discarding? || q.Removing?)
      modifies this
      ensures Safe() && at == Idle
      ensures View() == TakeAll(old(View()), EndTurns(a))
      ensures q.Removing? ==> (cleared <==> a.write(4).Written?)
      ensures cleared ==> disk == None
    {
      ghost var s, turns := View(), EndTurns(a);
      var p := q;
      if p.Discarding? {
        p := DiscardTerminal(p.i, p.effective, a.answered(6), a.deleted, a.confirmed);
      }
      ghost var discarded := View();
      assert discarded == Take(s, turns[0]);
      cleared := false;
      if p.Removing? {
        cleared := Clear(p.i, p.why, a.write(4));
      }
      assert View() == Take(discarded, turns[1]);
      JoinTwo(s, discarded, View(), turns[0], turns[1]);
    }

    /**
     * One pass of the helper. It reports success exactly when it removed, durably, the intent of a setup that completed
     * with the intent's credential; an ended setup is cleaned up and still reported as an error.
     */
    method RunOnce(installation: string, a: Answers) returns (ok: bool)
      requires Safe() && at == Idle && Minted(View(), a.beginId, a.completeId, a.nameId)
      modifies this
      ensures Safe() && at == Idle
      ensures View() == TakeAll(old(View()), Pass(installation, a))
      ensures View() == Run(old(View()), EventsOfAll(old(View()), Pass(installation, a)))
      ensures var s := TakeAll(old(View()), AttemptTurns(installation, a));
              && (ok <==> s.at.Removing? && a.write(4).Written?)
              && (ok ==> disk == None && s.disk == Some(s.at.i) && Done(s.ctl, s.at.i.challenge)
                         && s.at.i.ref != "" && s.at.i.ref in s.ctl.effective)
    {
      ghost var s := View();
      var p := Attempt(installation, a);
      ghost var attempted := View();
      if p.Removing? {
        RemovalGround(attempted);
      }
      var cleared := End(p, a);
      ok := p.Removing? && cleared;
      TakeAllConcat(s, AttemptTurns(installation, a), EndTurns(a));
      TakeAllIsRun(s, Pass(installation, a));
    }
  }

  lemma NextConnection(s: State, e: Event)
    ensures Next(s, e).connection == s.connection
  {
  }
}
