/**
 * What the helper has just seen of the challenge and the connection whenever it acts, and that a cooperative pass
 * succeeds.
 */
module HelperLive {
  import opened Wrappers
  import opened HelperProtocol
  import opened HelperSafety
  import opened HelperPasses

  /** The controller's challenge is the recorded one, at its recorded version and expiry, and awaits the credential. */
  ghost predicate Awaits(c: Controller, i: Intent) {
    && i.challenge in c.challenges
    && c.challenges[i.challenge].state == ActionRequired
    && c.challenges[i.challenge].version == i.challengeVersion && c.challenges[i.challenge].expires == i.expires
  }

  // ---- Entering a point ----

  lemma EntersComplete(s: State, e: Event)
    requires Next(s, e).at.CompleteReady?
    ensures var p := Next(s, e).at;
            s.at == p
              || (e.RecheckStatus? && e.answered && e.live && s.at == Unretained(p.i, p.request) && Awaits(s.ctl, p.i))
  {
  }

  lemma EntersPut(s: State, e: Event)
    requires Next(s, e).at.PutReady?
    ensures var i := Next(s, e).at.i;
            s.at == PutReady(i)
              || (e.LookupCredential? && e.answered && s.at.Live? && s.at.i == i && i.name !in s.vault && i.ref == "")
  {
  }

  lemma EntersLive(s: State, e: Event)
    requires Next(s, e).at.Live?
    ensures var p := Next(s, e).at;
            || s.at == p
            || (&& e.ReadStatus? && e.answered && e.live && s.at == Challenged(p.i, p.conn) && Awaits(s.ctl, p.i)
                && s.ctl.challenges[p.i.challenge].connection == s.connection
                && p.conn.version == p.i.connectionVersion && p.conn.account == p.i.account)
  {
  }

  lemma EntersBegin(s: State, e: Event)
    requires Next(s, e).at.BeginReady?
    ensures var p := Next(s, e).at;
            || s.at == p
            || (&& e == LookupBegin(NotFound) && s.at == Connected(p.i, p.conn) && p.i.challenge == ""
                && p.conn.version == p.i.connectionVersion
                && (p.conn.account == p.i.account || p.conn.credential == p.i.ref))
  {
  }

  /** Something is submitted only from the two points that were entered so, and it is the intent's own request. */
  lemma SubmitsOnlyReady(s: State, e: Event)
    requires Next(s, e).submitted != s.submitted
    ensures || (e.SubmitBegin? && s.at.BeginReady?
                && Next(s, e).submitted == s.submitted + [Submission(SetupBegin, s.at.i.beginKey, BeginOf(s.at.i))])
            || (e.SubmitComplete? && s.at.CompleteReady?
                && Next(s, e).submitted == s.submitted + [Submission(SetupComplete, s.at.i.completeKey, s.at.request)])
  {
  }

  // ---- Over runs ----

  /**
   * A completion is submitted only after the controller was seen not to retain it and its challenge still to await it.
   */
  lemma {:induction false} CompletesLive(s: State, events: seq<Event>) returns (j: nat)
    requires s.at == Idle && Run(s, events).at.CompleteReady?
    ensures var p := Run(s, events).at;
            && j < |events| && events[j].RecheckStatus? && events[j].answered && events[j].live
            && Run(s, events[..j]).at == Unretained(p.i, p.request) && Awaits(Run(s, events[..j]).ctl, p.i)
  {
    var n := |events| - 1;
    EntersComplete(Run(s, events[..n]), events[n]);
    if Run(s, events[..n]).at == Run(s, events).at {
      j := CompletesLive(s, events[..n]);
      assert events[..n][..j] == events[..j];
    } else {
      j := n;
    }
  }

  /**
   * A challenge is acted on only after it was seen to await the credential of this connection, which had not changed.
   */
  lemma {:induction false} LiveSeen(s: State, events: seq<Event>) returns (j: nat)
    requires s.at == Idle && Run(s, events).at.Live?
    ensures var p := Run(s, events).at; var seen := Run(s, events[..if j < |events| then j else 0]);
            && j < |events| && events[j].ReadStatus? && events[j].answered && events[j].live
            && seen.at == Challenged(p.i, p.conn) && Awaits(seen.ctl, p.i)
            && seen.ctl.challenges[p.i.challenge].connection == seen.connection
            && p.conn.version == p.i.connectionVersion && p.conn.account == p.i.account
  {
    var n := |events| - 1;
    EntersLive(Run(s, events[..n]), events[n]);
    if Run(s, events[..n]).at == Run(s, events).at {
      j := LiveSeen(s, events[..n]);
      assert events[..n][..j] == events[..j];
    } else {
      j := n;
    }
  }

  lemma {:induction false} PutSeen(s: State, events: seq<Event>) returns (j: nat)
    requires s.at == Idle && Run(s, events).at.PutReady?
    ensures j < |events| && events[j].LookupCredential? && events[j].answered
    ensures var seen := Run(s, events[..j]); var i := Run(s, events).at.i;
            seen.at.Live? && seen.at.i == i && i.name !in seen.vault
  {
    var n := |events| - 1;
    EntersPut(Run(s, events[..n]), events[n]);
    if Run(s, events[..n]).at == Run(s, events).at {
      j := PutSeen(s, events[..n]);
      assert events[..n][..j] == events[..j];
    } else {
      j := n;
    }
  }

  /**
   * A credential is written only after its name was looked up and found empty,
     and before that its challenge was seen to
   * await it on a connection that had not changed since the setup began.
   */
  lemma WritesLive(s: State, events: seq<Event>) returns (j: nat, k: nat)
    requires s.at == Idle && Run(s, events).at.PutReady?
    ensures j < k < |events| && events[k].LookupCredential? && events[j].ReadStatus?
    ensures var i := Run(s, events).at.i;
            && i.name !in Run(s, events[..k]).vault && Awaits(Run(s, events[..j]).ctl, i)
            && Run(s, events[..j]).at.Challenged? && Run(s, events[..j]).at.conn.version == i.connectionVersion
            && Run(s, events[..j]).at.conn.account == i.account
  {
    k := PutSeen(s, events);
    j := LiveSeen(s, events[..k]);
    assert events[..k][..j] == events[..j];
  }

  /**
   * setup.begin is submitted only for an unchanged connection and only after the controller was seen not to retain it.
   */
  lemma {:induction false} BeginsUnretained(s: State, events: seq<Event>) returns (j: nat)
    requires s.at == Idle && Run(s, events).at.BeginReady?
    ensures j < |events| && events[j] == LookupBegin(NotFound)
    ensures var p := Run(s, events).at;
            && Run(s, events[..j]).at == Connected(p.i, p.conn)
            && p.i.challenge == "" && p.conn.version == p.i.connectionVersion
            && (p.conn.account == p.i.account || p.conn.credential == p.i.ref)
  {
    var n := |events| - 1;
    EntersBegin(Run(s, events[..n]), events[n]);
    if Run(s, events[..n]).at == Run(s, events).at {
      j := BeginsUnretained(s, events[..n]);
      assert events[..n][..j] == events[..j];
    } else {
      j := n;
    }
  }

  /** Once loaded, a stored intent is known to be of the installation and connection the pass is for. */
  ghost predicate LoadedOwn(s: State) {
    s.at.Loaded? && s.disk.Some? ==>
      s.disk.value.installation == s.at.installation && s.disk.value.connection == s.connection
  }

  lemma LoadedStep(s: State, e: Event)
    requires LoadedOwn(s)
    ensures LoadedOwn(Next(s, e))
  {
  }

  lemma OwnStep(s: State, e: Event)
    requires LoadedOwn(s) && Inv(s) && Next(s, e).at.HasIntent()
    ensures || (s.at.HasIntent() && s.at.i.installation == Next(s, e).at.i.installation)
            || (s.at.Loaded? && s.at.installation == Next(s, e).at.i.installation)
  {
  }

  lemma LoadedFrom(s: State, e: Event)
    requires Next(s, e).at.Loaded?
    ensures s.at == Next(s, e).at || (s.at == Idle && e == Start(Next(s, e).at.installation))
  {
  }

  lemma {:induction false} RunLoadedOwn(s: State, events: seq<Event>)
    requires s.at == Idle
    ensures LoadedOwn(Run(s, events))
  {
    if events != [] {
      RunLoadedOwn(s, events[..|events| - 1]);
      LoadedStep(Run(s, events[..|events| - 1]), events[|events| - 1]);
    }
  }

  /** Which installation a pass works for. */
  function WorksFor(p: Point): Option<string> {
    if p.Idle? then None else if p.Loaded? then Some(p.installation) else Some(p.i.installation)
  }

  /** Whatever is on disk, a pass only ever works on an intent of the installation it was started for. */
  lemma {:induction false} OwnInstallation(s: State, events: seq<Event>) returns (j: nat)
    requires s.at == Idle && Inv(s) && WorksFor(Run(s, events).at).Some?
    ensures j < |events| && events[j] == Start(WorksFor(Run(s, events).at).value) && Run(s, events[..j]).at == Idle
  {
    var n := |events| - 1;
    var before := Run(s, events[..n]);
    RunInv(s, events[..n]);
    RunLoadedOwn(s, events[..n]);
    if Run(s, events).at.Loaded? {
      LoadedFrom(before, events[n]);
    } else {
      OwnStep(before, events[n]);
    }
    if WorksFor(before.at) == WorksFor(Run(s, events).at) {
      j := OwnInstallation(s, events[..n]);
      assert events[..n][..j] == events[..j];
    } else {
      j := n;
    }
  }

  // ---- A cooperative pass ----

  /** The challenge the controller opens. */
  function Opened(a: Answers): BeginReply
    requires a.begun.Some?
  {
    a.begun.value
  }

  /**
   * Everyone answers, nothing is retained, the challenge stays as opened until it completes with the written
   * credential.
   */
  ghost predicate Cooperative(s: State, installation: string, a: Answers) {
    && IdOk(installation) && IdOk(s.connection) && Minted(s, a.beginId, a.completeId, a.nameId)
    && NAME_PREFIX + a.nameId !in s.vault
    && a.connected && 1 <= a.version <= MAX_VERSION && 0 < |a.account| <= 8192
    && (forall k: nat :: a.write(k) == Written && a.live(k) && a.answered(k))
    && a.retainedBegin == NotFound && a.begun.Some? && a.retainedComplete == NotFound && a.delivered && a.key.Some?
    && Opened(a).completed && IdOk(Opened(a).id) && Opened(a).version >= 1 && Opened(a).expires > 0
    && a.put.PutOk? && 0 < |a.put.ref| <= 512
    && Honest(s.ctl, a.controller(0)) && (forall k: nat | k < 4 :: Honest(a.controller(k), a.controller(k + 1)))
    && (forall k: nat | k == 1 || k == 2 ::
          var c := a.controller(k);
          && Opened(a).id in c.challenges
          && c.challenges[Opened(a).id]
             == Challenge(ActionRequired, Opened(a).version, s.connection, Opened(a).expires))
    && Opened(a).id in a.controller(3).challenges
    && a.controller(3).challenges[Opened(a).id].state == Completed
    && a.controller(3).challenges[Opened(a).id].version >= 1
    && a.controller(4).credential == a.put.ref
  }

  ghost function Begun0(s: State, installation: string, a: Answers): Intent {
    NewIntent(s, installation, Connection(a.version, a.account, a.controller(0).credential), a.beginId, a.completeId,
              a.nameId)
  }

  lemma NewIntentValid(s: State, installation: string, a: Answers)
    requires Cooperative(s, installation, a)
    ensures Valid(Begun0(s, installation, a))
  {
    var i := Begun0(s, installation, a);
    assert |i.beginKey| == 49 && |i.completeKey| == 52 && |i.name| == 59;
    assert i.name[|NAME_PREFIX|..] == a.nameId;
    assert i.beginKey[..|BEGIN_PREFIX|] == BEGIN_PREFIX && i.completeKey[..|COMPLETE_PREFIX|] == COMPLETE_PREFIX;
  }

  /** Where a cooperative pass stands after it entered, and what it has made durable. */
  lemma CooperativeEnters(s: State, installation: string, a: Answers)
    requires Cooperative(s, installation, a) && s.at == Idle && s.disk == None
    ensures var t := TakeAll(s, EnterTurns(installation, a)); var i := Begun0(s, installation, a);
            && t.at == Connected(i, Connection(a.version, a.account, a.controller(0).credential))
            && t.disk == Some(i) && t.vault == s.vault && t.ctl == a.controller(0) && t.connection == s.connection
  {
    var turns := EnterTurns(installation, a);
    NewIntentValid(s, installation, a);
    TakeTwo(s, turns[0], turns[1]);
  }

  /** An intent whose setup has just begun on the connection as it was read. */
  ghost predicate Fresh(i: Intent, conn: Connection) {
    && Valid(i) && i.challenge == "" && i.ref == "" && i.completeDigest == None
    && i.beginDigest == Digest(SetupBegin, i.beginKey, BeginOf(i))
    && conn.version == i.connectionVersion && conn.account == i.account
  }

  function WithChallenge(i: Intent, reply: BeginReply): Intent {
    i.(challenge := reply.id, challengeVersion := reply.version, expires := reply.expires)
  }

  lemma CooperativeBegins(s: State, i: Intent, conn: Connection, a: Answers)
    requires s.at == Connected(i, conn) && Fresh(i, conn)
    requires a.retainedBegin == NotFound && a.begun.Some? && a.live(0) && a.write(1) == Written
    requires Opened(a).completed && IdOk(Opened(a).id) && Opened(a).version >= 1 && Opened(a).expires > 0
    ensures var t := TakeAll(s, BeginTurns(a)); var next := WithChallenge(i, Opened(a));
            t.at == Challenged(next, conn) && t.disk == Some(next) && t.vault == s.vault && t.ctl == s.ctl
              && t.connection == s.connection
  {
    var turns := BeginTurns(a);
    TakeThree(s, turns[0], turns[1], turns[2]);
  }

  lemma CooperativeStatus(s: State, i: Intent, conn: Connection, a: Answers)
    requires s.at == Challenged(i, conn) && conn.version == i.connectionVersion && conn.account == i.account
    requires Honest(s.ctl, a.controller(1)) && a.answered(1) && a.live(1) && Awaits(a.controller(1), i)
             && i.challengeVersion >= 1
    requires a.controller(1).challenges[i.challenge].connection == s.connection
    ensures Take(s, Turn(Some(a.controller(1)), ReadStatus(a.answered(1), a.live(1))))
            == s.(ctl := a.controller(1), at := Live(i, conn))
  {
  }

  lemma CooperativeCaptures(s: State, i: Intent, conn: Connection, a: Answers)
    requires s.at == Live(i, conn) && Valid(i) && i.challenge != "" && i.ref == "" && i.name !in s.vault
             && conn.version == i.connectionVersion
    requires a.answered(2) && a.put.PutOk? && 0 < |a.put.ref| <= 512 && a.write(2) == Written
    ensures var t := TakeAll(s, CaptureTurns(a)); var next := i.(ref := a.put.ref);
            t.at == RefSaved(next) && t.disk == Some(next) && t.ctl == s.ctl && t.connection == s.connection
  {
    var turns := CaptureTurns(a);
    TakeThree(s, turns[0], turns[1], turns[2]);
  }

  lemma CooperativePins(s: State, i: Intent, a: Answers)
    requires s.at == RefSaved(i) && Valid(i) && i.ref != "" && i.challenge != "" && i.completeDigest == None
    requires a.key.Some? && a.write(3) == Written
    ensures var t := Take(s, Turn(None, PinComplete(a.key, a.write(3)))); var request := CompleteOf(i, a.key.value);
            var next := i.(completeDigest := Some(Digest(SetupComplete, i.completeKey, request)));
            t.at == Pinned(next, request) && t.disk == Some(next) && t.ctl == s.ctl
  {
  }

  lemma CooperativeSubmits(s: State, i: Intent, request: Request, a: Answers)
    requires s.at == Pinned(i, request) && a.retainedComplete == NotFound && Honest(s.ctl, a.controller(2))
    requires a.answered(3) && a.live(3) && Awaits(a.controller(2), i) && i.challengeVersion >= 1 && a.delivered
    ensures var t := TakeAll(s, SubmitTurns(a));
            && t.at == AwaitStatus(i) && t.disk == s.disk && t.ctl == a.controller(2)
            && t.submitted == s.submitted + [Submission(SetupComplete, i.completeKey, request)]
  {
    var turns := SubmitTurns(a);
    var found := s.(at := Unretained(i, request));
    assert Take(s, turns[0]) == found;
    ChecksAgain(found, i, request, a.controller(2));
    TakeThree(s, turns[0], turns[1], turns[2]);
  }

  lemma ChecksAgain(s: State, i: Intent, request: Request, now: Controller)
    requires s.at == Unretained(i, request) && Honest(s.ctl, now) && Awaits(now, i) && i.challengeVersion >= 1
    ensures Take(s, Turn(Some(now), RecheckStatus(true, true))) == s.(ctl := now, at := CompleteReady(i, request))
  {
  }

  lemma CooperativeConfirms(s: State, i: Intent, a: Answers)
    requires s.at == AwaitStatus(i) && Honest(s.ctl, a.controller(3)) && Honest(a.controller(3), a.controller(4))
    requires a.answered(4) && a.answered(5) && Done(a.controller(3), i.challenge)
             && a.controller(3).challenges[i.challenge].version >= 1
    requires a.controller(4).credential == i.ref
    ensures var t := TakeAll(s, AwaitTurns(a)); t.at == Removing(i, Matched(i.ref)) && t.disk == s.disk
  {
    var turns := AwaitTurns(a);
    AwaitsStatus(s, i, a.controller(3));
    var awaited := s.(ctl := a.controller(3), at := AwaitConnection(i));
    AwaitsConnection(awaited, i, a.controller(4));
    TakeTwo(s, turns[0], turns[1]);
  }

  lemma AwaitsStatus(s: State, i: Intent, now: Controller)
    requires s.at == AwaitStatus(i) && Honest(s.ctl, now) && Done(now, i.challenge)
             && now.challenges[i.challenge].version >= 1
    ensures Take(s, Turn(Some(now), FinalStatus(true))) == s.(ctl := now, at := AwaitConnection(i))
  {
  }

  lemma AwaitsConnection(s: State, i: Intent, now: Controller)
    requires s.at == AwaitConnection(i) && Honest(s.ctl, now) && now.credential == i.ref
    ensures Take(s, Turn(Some(now), FinalConnection(true))) == s.(ctl := now, at := Removing(i, Matched(i.ref)))
  {
  }

  lemma CooperativePrepares(s: State, installation: string, a: Answers)
    requires Cooperative(s, installation, a) && s.at == Idle && s.disk == None
    ensures var t := TakeAll(s, PrepareTurns(installation, a)); var i :=
            WithChallenge(Begun0(s, installation, a), Opened(a));
            && t.at == Live(i, Connection(a.version, a.account, a.controller(0).credential))
            && t.vault == s.vault && t.ctl == a.controller(1)
  {
    var i, conn := Begun0(s, installation, a), Connection(a.version, a.account, a.controller(0).credential);
    var status := Turn(Some(a.controller(1)), ReadStatus(a.answered(1), a.live(1)));
    NewIntentValid(s, installation, a);
    CooperativeEnters(s, installation, a);
    var entered := TakeAll(s, EnterTurns(installation, a));
    CooperativeBegins(entered, i, conn, a);
    var begun := TakeAll(entered, BeginTurns(a));
    CooperativeStatus(begun, WithChallenge(i, Opened(a)), conn, a);
    TakeOne(begun, status);
    Join(s, entered, begun, Take(begun, status), EnterTurns(installation, a), BeginTurns(a), [status]);
  }

  lemma CooperativeFinishes(s: State, i: Intent, a: Answers)
    requires s.at == RefSaved(i) && Valid(i) && i.ref != "" && i.challenge != "" && i.completeDigest == None
    requires a.key.Some? && a.write(3) == Written && a.retainedComplete == NotFound && a.delivered
    requires Honest(s.ctl, a.controller(2)) && Honest(a.controller(2), a.controller(3))
             && Honest(a.controller(3), a.controller(4))
    requires a.answered(3) && a.live(3) && a.answered(4) && a.answered(5)
    requires Awaits(a.controller(2), i) && i.challengeVersion >= 1
    requires Done(a.controller(3), i.challenge) && a.controller(3).challenges[i.challenge].version >= 1
             && a.controller(4).credential == i.ref
    ensures TakeAll(s, FinishTurns(a)).at.Removing? && TakeAll(s, FinishTurns(a)).at.why == Matched(i.ref)
  {
    var pin, request := Turn(None, PinComplete(a.key, a.write(3))), CompleteOf(i, a.key.value);
    var next := i.(completeDigest := Some(Digest(SetupComplete, i.completeKey, request)));
    CooperativePins(s, i, a);
    var pinned := Take(s, pin);
    TakeOne(s, pin);
    CooperativeSubmits(pinned, next, request, a);
    var sent := TakeAll(pinned, SubmitTurns(a));
    CooperativeConfirms(sent, next, a);
    Join(s, pinned, sent, TakeAll(sent, AwaitTurns(a)), [pin], SubmitTurns(a), AwaitTurns(a));
  }

  /**
   * If everyone cooperates, one pass from an untouched connection captures the credential, completes the setup with it
   * and comes to removing its intent; then, by its contract, the pass reports success.
   */
  lemma CooperativePass(s: State, installation: string, a: Answers)
    requires Cooperative(s, installation, a) && s.at == Idle && s.disk == None
    ensures var t := TakeAll(s, AttemptTurns(installation, a)); t.at.Removing? && t.at.why == Matched(a.put.ref)
  {
    var i, conn := WithChallenge(Begun0(s, installation, a), Opened(a)),
      Connection(a.version, a.account, a.controller(0).credential);
    NewIntentValid(s, installation, a);
    CooperativePrepares(s, installation, a);
    var prepared := TakeAll(s, PrepareTurns(installation, a));
    CooperativeCaptures(prepared, i, conn, a);
    var captured := TakeAll(prepared, CaptureTurns(a));
    CooperativeControllers(s, installation, a);
    CooperativeFinishes(captured, i.(ref := a.put.ref), a);
    Join(s, prepared, captured, TakeAll(captured, FinishTurns(a)),
         PrepareTurns(installation, a), CaptureTurns(a), FinishTurns(a));
  }

  lemma CooperativeControllers(s: State, installation: string, a: Answers)
    requires Cooperative(s, installation, a)
    ensures Honest(a.controller(1), a.controller(2)) && Honest(a.controller(2), a.controller(3))
            && Honest(a.controller(3), a.controller(4))
  {
    assert forall k: nat | k < 4 :: Honest(a.controller(k), a.controller(k + 1));
    assert Honest(a.controller(1), a.controller(1 + 1)) && Honest(a.controller(2), a.controller(2 + 1));
    assert Honest(a.controller(3), a.controller(3 + 1));
  }
}
