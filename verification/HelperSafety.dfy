/** What the helper keeps across any number of crashes and resumes. */
module HelperSafety {
  import opened Wrappers
  import opened HelperProtocol

  // ---- The invariant ----

  ghost predicate IntentOk(s: State) {
    s.disk.Some? ==>
      var i := s.disk.value;
      && Valid(i) && i.connection == s.connection
      && i.beginDigest == Digest(SetupBegin, i.beginKey, BeginOf(i))
      && i.beginKey in s.used && i.completeKey in s.used && i.name in s.used
  }

  /** One key carries one request, and the pending intent pins what its keys carried. */
  ghost predicate SubmissionsOk(s: State) {
    && (forall x | x in s.submitted :: x.key in s.used)
    && (forall x, y | x in s.submitted && y in s.submitted && x.key == y.key :: x == y)
    && (s.disk.Some? ==> forall x | x in s.submitted ::
          && (x.key == s.disk.value.beginKey ==> x == Submission(SetupBegin, x.key, BeginOf(s.disk.value)))
          && (x.key == s.disk.value.completeKey ==>
                x.operation == SetupComplete
                  && s.disk.value.completeDigest == Some(Digest(SetupComplete, x.key, x.request))))
  }

  ghost predicate Distinct(names: seq<string>) {
    forall j, k | 0 <= j < k < |names| :: names[j] != names[k]
  }

  /**
   * The credential of the pending intent is still in the vault once written, unless its challenge has ended for good.
   */
  ghost predicate PutsOk(s: State) {
    && (forall n | n in s.puts :: n in s.used)
    && Distinct(s.puts)
    && (s.disk.Some? && s.disk.value.name in s.puts && s.disk.value.name !in s.vault ==>
        Ended(s.ctl, s.disk.value.challenge))
    && (s.disk.Some? && s.disk.value.challenge == "" ==> s.disk.value.name !in s.puts)
  }

  ghost predicate PointOk(s: State) {
    && s.ctl.credential in s.ctl.effective
    && (s.at.HasIntent() ==> s.disk == Some(s.at.i))
    && (match s.at
        case Connected(_, conn) => conn.credential in s.ctl.effective
        case BeginReady(i, conn) => conn.credential in s.ctl.effective && i.challenge == ""
        case Begun(i, conn, _) => conn.credential in s.ctl.effective && i.challenge == ""
        case Challenged(_, conn) => conn.credential in s.ctl.effective
        case Live(i, _) => i.challenge != "" && (i.name in s.puts ==> i.name in s.vault)
        case PutReady(i) => i.challenge != "" && i.name !in s.puts && i.ref == ""
        case GotRef(i, _) => i.challenge != "" && i.ref == ""
        case RefSaved(i) => i.ref != "" && i.challenge != ""
        case Pinned(i, request) =>
          i.ref != "" && i.completeDigest == Some(Digest(SetupComplete, i.completeKey, request))
        case Unretained(i, request) =>
          i.ref != "" && i.completeDigest == Some(Digest(SetupComplete, i.completeKey, request))
        case CompleteReady(i, request) =>
          i.ref != "" && i.completeDigest == Some(Digest(SetupComplete, i.completeKey, request))
        case AwaitStatus(i) => i.ref != ""
        case AwaitConnection(i) => i.ref != "" && Done(s.ctl, i.challenge)
        case Discarding(i, _) => Ended(s.ctl, i.challenge)
        case Removing(i, Matched(c)) => i.ref == c && c != "" && c in s.ctl.effective && Done(s.ctl, i.challenge)
        case Removing(i, Terminal) => Ended(s.ctl, i.challenge)
        case _ => true)
  }

  ghost predicate Inv(s: State) {
    IntentOk(s) && SubmissionsOk(s) && PutsOk(s) && PointOk(s)
  }

  // ---- Stages ----

  /** What a setup is bound to never changes; each later field is filled in at most once. */
  ghost predicate Advances(i: Intent, i': Intent) {
    && i'.installation == i.installation && i'.connection == i.connection && i'.connectionVersion == i.connectionVersion
    && i'.account == i.account && i'.beginKey == i.beginKey && i'.beginDigest == i.beginDigest
    && i'.name == i.name && i'.completeKey == i.completeKey
    && (i.challenge != "" ==>
          i'.challenge == i.challenge && i'.challengeVersion == i.challengeVersion && i'.expires == i.expires)
    && (i.ref != "" ==> i'.ref == i.ref)
    && (i.completeDigest.Some? ==> i'.completeDigest == i.completeDigest)
  }

  /** The step removes an intent only when its setup is over. */
  ghost predicate Over(s: State, i: Intent) {
    (Done(s.ctl, i.challenge) && i.ref != "" && i.ref in s.ctl.effective) || Ended(s.ctl, i.challenge)
  }

  ghost predicate DiskMoves(s: State, s': State) {
    match (s.disk, s'.disk)
    case (Some(i), Some(i')) => Advances(i, i')
    case (Some(i), None) => Over(s, i)
    case (None, Some(i')) => i'.challenge == "" && i'.name !in s.used && i'.beginKey !in s.used
      && i'.completeKey !in s.used
    case (None, None) => true
  }

  // ---- Preservation ----

  /** An event that changes nothing but where the helper stands, and perhaps the controller. */
  lemma OnlyMoves(s: State, s': State)
    requires Inv(s) && PointOk(s') && s' == s.(at := s'.at)
    ensures Inv(s') && DiskMoves(s, s')
  {
  }

  /** A durable write that advances the pending intent. */
  lemma Saves(s: State, next: Intent, w: Write, at: Point)
    requires Inv(s) && s.disk.Some? && Advances(s.disk.value, next)
    requires s.disk.value.completeDigest.None? || next.completeDigest == s.disk.value.completeDigest
    requires s.disk.value.name in s.puts && s.disk.value.name !in s.vault ==> next.challenge == s.disk.value.challenge
    requires forall x | x in s.submitted && x.key == s.disk.value.completeKey ::
               next.completeDigest == s.disk.value.completeDigest
    requires PointOk(s.(disk := Some(next), at := at))
    ensures Inv(Save(s, next, w, at)) && DiskMoves(s, Save(s, next, w, at))
  {
  }

  lemma EvolveInv(s: State, ctl: Controller)
    requires Inv(s) && Honest(s.ctl, ctl)
    ensures Inv(s.(ctl := ctl))
  {
  }

  lemma NewIntentInv(s: State, i: Intent, conn: Connection, w: Write)
    requires Inv(s) && s.disk.None? && conn.credential in s.ctl.effective
    requires i.connection == s.connection && i.beginDigest == Digest(SetupBegin, i.beginKey, BeginOf(i))
    requires i.beginKey !in s.used && i.completeKey !in s.used && i.name !in s.used && i.challenge == ""
    ensures var s' := Save(s.(used := s.used + {i.beginKey, i.completeKey, i.name}), i, w, Connected(i, conn));
            Inv(s') && DiskMoves(s, s')
  {
  }

  lemma ConnectInv(s: State, e: Event)
    requires Inv(s) && s.at.Loaded? && e.GetConnection?
    ensures Inv(Connect(s, e)) && DiskMoves(s, Connect(s, e))
  {
    var conn := ReadConnection(s, e.version, e.account);
    if e.answered && e.version >= 1 && s.disk.None? && Minted(s, e.beginId, e.completeId, e.nameId) {
      NewIntentInv(s, NewIntent(s, s.at.installation, conn, e.beginId, e.completeId, e.nameId), conn, e.w);
    } else {
      OnlyMoves(s, Connect(s, e));
    }
  }

  lemma BeginInv(s: State, acknowledged: Option<BeginReply>)
    requires Inv(s) && s.at.BeginReady?
    ensures Inv(Begin(s, acknowledged)) && DiskMoves(s, Begin(s, acknowledged))
  {
    var s', i := Begin(s, acknowledged), s.at.i;
    var x := Submission(SetupBegin, i.beginKey, BeginOf(i));
    assert forall y | y in s'.submitted :: y in s.submitted || y == x;
    assert i.beginKey != i.completeKey;
  }

  lemma CompleteInv(s: State, delivered: bool)
    requires Inv(s) && s.at.CompleteReady?
    ensures Inv(Complete(s, delivered)) && DiskMoves(s, Complete(s, delivered))
  {
    var s', i := Complete(s, delivered), s.at.i;
    var x := Submission(SetupComplete, i.completeKey, s.at.request);
    assert forall y | y in s'.submitted :: y in s.submitted || y == x;
    assert i.beginKey != i.completeKey;
  }

  lemma ChallengeInv(s: State, live: bool, w: Write)
    requires Inv(s) && s.at.Begun?
    ensures Inv(RecordChallenge(s, live, w)) && DiskMoves(s, RecordChallenge(s, live, w))
  {
    var i, reply := s.at.i, s.at.reply;
    if !reply.completed || !IdOk(reply.id) || reply.version < 1 || !live || reply.expires <= 0 {
      OnlyMoves(s, RecordChallenge(s, live, w));
    } else {
      var next := i.(challenge := reply.id, challengeVersion := reply.version, expires := reply.expires);
      Saves(s, next, w, Challenged(next, s.at.conn));
    }
  }

  lemma RefInv(s: State, w: Write)
    requires Inv(s) && s.at.GotRef?
    ensures Inv(RecordRef(s, w)) && DiskMoves(s, RecordRef(s, w))
  {
    var next := s.at.i.(ref := s.at.ref);
    Saves(s, next, w, if next.ref == "" then Idle else RefSaved(next));
  }

  lemma PinInv(s: State, key: Option<string>, w: Write)
    requires Inv(s) && s.at.RefSaved?
    ensures Inv(Pin(s, key, w)) && DiskMoves(s, Pin(s, key, w))
  {
    var i := s.at.i;
    if key.Some? && i.completeDigest.None? {
      var request := CompleteOf(i, key.value);
      var next := i.(completeDigest := Some(Digest(SetupComplete, i.completeKey, request)));
      Saves(s, next, w, Pinned(next, request));
    } else {
      OnlyMoves(s, Pin(s, key, w));
    }
  }

  lemma PutInv(s: State, outcome: PutOutcome)
    requires Inv(s) && s.at.PutReady?
    ensures Inv(Put(s, outcome)) && DiskMoves(s, Put(s, outcome))
  {
    var i := s.at.i;
    if outcome.PutFailed? {
      OnlyMoves(s, Put(s, outcome));
    } else {
      assert forall n | n in s.puts + [i.name] :: n in s.puts || n == i.name;
    }
  }

  lemma StatusInv(s: State, answered: bool, live: bool)
    requires Inv(s) && s.at.Challenged?
    ensures Inv(Status(s, answered, live)) && DiskMoves(s, Status(s, answered, live))
  {
    OnlyMoves(s, Status(s, answered, live));
  }

  /** Credentials may go once the pending setup's challenge has ended. */
  lemma VaultShrinks(s: State, s': State)
    requires Inv(s) && s.disk.Some? && Ended(s.ctl, s.disk.value.challenge)
    requires s' == s.(vault := s'.vault, at := s'.at) && PointOk(s')
    ensures Inv(s') && DiskMoves(s, s')
  {
  }

  lemma DiscardInv(s: State, answered: bool, deleted: bool, confirmed: bool)
    requires Inv(s) && s.at.Discarding?
    ensures Inv(DiscardCredential(s, answered, deleted, confirmed))
            && DiskMoves(s, DiscardCredential(s, answered, deleted, confirmed))
  {
    VaultShrinks(s, DiscardCredential(s, answered, deleted, confirmed));
  }

  lemma RemoveInv(s: State, w: Write)
    requires Inv(s) && s.at.Removing?
    ensures Inv(RemoveIntent(s, w)) && DiskMoves(s, RemoveIntent(s, w))
  {
  }

  /** Reads and crashes only change where the helper stands. */
  lemma ReadInv(s: State, e: Event)
    requires Inv(s) && (e.Crash? || e.Start? || e.LookupBegin? || e.LookupCredential? || e.LookupComplete?)
    ensures Inv(Next(s, e)) && DiskMoves(s, Next(s, e))
  {
    OnlyMoves(s, Next(s, e));
  }

  lemma ConfirmInv(s: State, e: Event)
    requires Inv(s) && (e.RecheckStatus? || e.FinalStatus? || e.FinalConnection?)
    ensures Inv(Next(s, e)) && DiskMoves(s, Next(s, e))
  {
    OnlyMoves(s, Next(s, e));
  }

  /** A durable write, a submission, a change to the vault or to the controller. */
  lemma ActInv(s: State, e: Event)
    requires Inv(s) && !e.Crash? && !e.Start? && !e.LookupBegin? && !e.LookupCredential? && !e.LookupComplete?
    requires !e.RecheckStatus? && !e.FinalStatus? && !e.FinalConnection?
    ensures Inv(Next(s, e)) && DiskMoves(s, Next(s, e))
  {
    if e.Evolve? && Honest(s.ctl, e.ctl) {
      EvolveInv(s, e.ctl);
    } else if e.GetConnection? && s.at.Loaded? {
      ConnectInv(s, e);
    } else if e.SubmitBegin? && s.at.BeginReady? {
      BeginInv(s, e.acknowledged);
    } else if e.SaveChallenge? && s.at.Begun? {
      ChallengeInv(s, e.live, e.w);
    } else if e.ReadStatus? && s.at.Challenged? {
      StatusInv(s, e.answered, e.live);
    } else if e.PutCredential? && s.at.PutReady? {
      PutInv(s, e.outcome);
    } else if e.SaveRef? && s.at.GotRef? {
      RefInv(s, e.w);
    } else if e.PinComplete? && s.at.RefSaved? {
      PinInv(s, e.key, e.w);
    } else if e.SubmitComplete? && s.at.CompleteReady? {
      CompleteInv(s, e.delivered);
    } else if e.Discard? && s.at.Discarding? {
      DiscardInv(s, e.answered, e.deleted, e.confirmed);
    } else if e.Remove? && s.at.Removing? {
      RemoveInv(s, e.w);
    }
  }

  lemma StepInv(s: State, e: Event)
    requires Inv(s)
    ensures Inv(Next(s, e)) && DiskMoves(s, Next(s, e))
  {
    if e.Crash? || e.Start? || e.LookupBegin? || e.LookupCredential? || e.LookupComplete? {
      ReadInv(s, e);
    } else if e.RecheckStatus? || e.FinalStatus? || e.FinalConnection? {
      ConfirmInv(s, e);
    } else {
      ActInv(s, e);
    }
  }

  lemma {:induction false} RunInv(s: State, events: seq<Event>)
    requires Inv(s)
    ensures Inv(Run(s, events))
  {
    if events != [] {
      RunInv(s, events[..|events| - 1]);
      StepInv(Run(s, events[..|events| - 1]), events[|events| - 1]);
    }
  }

  /** The invariant holds now and after anything that may follow. */
  ghost predicate Secure(s: State) {
    forall events :: Inv(Run(s, events))
  }

  lemma SecureNow(s: State)
    requires Secure(s)
    ensures Inv(s)
  {
    assert Run(s, []) == s;
  }

  lemma SecureAlways(s: State)
    requires Inv(s)
    ensures Secure(s)
  {
    forall events ensures Inv(Run(s, events)) {
      RunInv(s, events);
    }
  }

  // ---- Whole histories ----

  /**
   * However often the helper crashes, loses replies and resumes, no intent's credential is effectively written twice.
   */
  lemma WrittenOnce(s: State, events: seq<Event>)
    requires Initial(s)
    ensures Distinct(Run(s, events).puts)
  {
    RunInv(s, events);
  }

  /** Everything ever submitted under one key is one and the same request. */
  lemma OneRequestPerKey(s: State, events: seq<Event>, x: Submission, y: Submission)
    requires Initial(s) && x in Run(s, events).submitted && y in Run(s, events).submitted && x.key == y.key
    ensures x == y
  {
    RunInv(s, events);
  }

  /** The durable intent is valid in every reachable state. */
  lemma AlwaysValid(s: State, events: seq<Event>)
    requires Initial(s) && Run(s, events).disk.Some?
    ensures Valid(Run(s, events).disk.value)
  {
    RunInv(s, events);
  }

  /**
   * A reachable step fills in the intent's fields in order and removes it only when its setup completed with its
   * credential or ended.
   */
  lemma OnlyForward(s: State, events: seq<Event>, e: Event)
    requires Initial(s)
    ensures DiskMoves(Run(s, events), Next(Run(s, events), e))
  {
    RunInv(s, events);
    StepInv(Run(s, events), e);
  }

  lemma AdvancesTransitive(a: Intent, b: Intent, c: Intent)
    requires Advances(a, b) && Advances(b, c)
    ensures Advances(a, c)
  {
  }

  /** While an intent is pending it only ever advances, over any run that does not remove it. */
  lemma {:induction false} PendingAdvances(s: State, events: seq<Event>)
    requires Inv(s) && s.disk.Some? && forall k | 0 <= k <= |events| :: Run(s, events[..k]).disk.Some?
    ensures Run(s, events).disk.Some? && Advances(s.disk.value, Run(s, events).disk.value)
  {
    assert events[..|events|] == events;
    if events != [] {
      var before := events[..|events| - 1];
      forall k | 0 <= k <= |before| ensures Run(s, before[..k]).disk.Some? {
        assert before[..k] == events[..k];
      }
      PendingAdvances(s, before);
      RunInv(s, before);
      StepInv(Run(s, before), events[|events| - 1]);
      AdvancesTransitive(s.disk.value, Run(s, before).disk.value, Run(s, events).disk.value);
    }
  }

  /** A challenge that has ended stays ended, so what justified a removal is never taken back. */
  lemma {:induction false} OverForever(s: State, events: seq<Event>, i: Intent)
    requires Over(s, i)
    ensures Over(Run(s, events), i)
  {
    if events != [] {
      OverForever(s, events[..|events| - 1], i);
    }
  }
}
