/** What the helper ever deletes from the secret store, and that it leaves no unused credential behind. */
module HelperVault {
  import opened Wrappers
  import opened HelperProtocol
  import opened HelperSafety
  import opened HelperPasses

  /** The reference a setup captured: its own, or the one stored under its name. */
  function Captured(s: State, i: Intent): string {
    if i.ref != "" then i.ref else if i.name in s.vault then s.vault[i.name] else ""
  }

  // ---- The invariant ----

  /** What is stored under a name has been effective, or carries no reference. */
  ghost predicate Settled(s: State, n: string) {
    n in s.vault ==> s.vault[n] == "" || s.vault[n] in s.ctl.effective
  }

  /** Every credential ever written belongs to the pending setup, is gone, or has been effective. */
  ghost predicate NoOrphans(s: State) {
    forall n | n in s.puts :: Settled(s, n) || (s.disk.Some? && s.disk.value.name == n)
  }

  /** The pending setup's reference is what is stored under its name. */
  ghost predicate RefStored(s: State) {
    s.disk.Some? && s.disk.value.ref != "" && s.disk.value.name in s.vault ==>
      s.vault[s.disk.value.name] == s.disk.value.ref
  }

  ghost predicate PointKnows(s: State) {
    match s.at
    case PutReady(i) => i.name !in s.vault
    case GotRef(i, ref) => i.name in s.vault ==> s.vault[i.name] == ref
    case Discarding(i, effective) => effective in s.ctl.effective
    case Removing(i, Terminal) => Settled(s, i.name)
    case _ => true
  }

  ghost predicate VaultInv(s: State) {
    Inv(s) && NoOrphans(s) && RefStored(s) && PointKnows(s)
  }

  // ---- Preservation ----

  /** A step that leaves disk, secret store and controller alone. */
  lemma MovesKeep(s: State, s': State)
    requires VaultInv(s) && Inv(s') && PointKnows(s')
    requires s'.disk == s.disk && s'.vault == s.vault && s'.puts == s.puts && s'.ctl == s.ctl
    ensures VaultInv(s')
  {
  }

  lemma EvolveKeeps(s: State, ctl: Controller)
    requires VaultInv(s) && Honest(s.ctl, ctl) && Inv(s.(ctl := ctl))
    ensures VaultInv(s.(ctl := ctl))
  {
  }

  /** A durable write that keeps the name, and the reference if there is one or the stored one if there is none. */
  lemma SaveKeeps(s: State, next: Intent, w: Write, at: Point)
    requires VaultInv(s) && Inv(Save(s, next, w, at))
    requires s.disk.Some? ==> s.disk.value.name == next.name
    requires next.ref != "" && next.name in s.vault ==> s.vault[next.name] == next.ref
    requires PointKnows(s.(disk := Some(next), at := at))
    ensures VaultInv(Save(s, next, w, at))
  {
  }

  lemma ConnectKeeps(s: State, e: Event)
    requires VaultInv(s) && s.at.Loaded? && e.GetConnection?
    ensures VaultInv(Connect(s, e))
  {
    ConnectInv(s, e);
    var conn := ReadConnection(s, e.version, e.account);
    if e.answered && e.version >= 1 && s.disk.None? && Minted(s, e.beginId, e.completeId, e.nameId) {
      var i := NewIntent(s, s.at.installation, conn, e.beginId, e.completeId, e.nameId);
      NewKeeps(s, i, conn, e.w);
    }
  }

  lemma NewKeeps(s: State, i: Intent, conn: Connection, w: Write)
    requires VaultInv(s) && s.disk.None? && i.ref == ""
    requires Inv(Save(s.(used := s.used + {i.beginKey, i.completeKey, i.name}), i, w, Connected(i, conn)))
    ensures VaultInv(Save(s.(used := s.used + {i.beginKey, i.completeKey, i.name}), i, w, Connected(i, conn)))
  {
  }

  lemma PutKeeps(s: State, outcome: PutOutcome)
    requires VaultInv(s) && s.at.PutReady?
    ensures VaultInv(Put(s, outcome))
  {
    PutInv(s, outcome);
    assert forall n | n in Put(s, outcome).puts :: n in s.puts || n == s.at.i.name;
  }

  lemma RefKeeps(s: State, w: Write)
    requires VaultInv(s) && s.at.GotRef?
    ensures VaultInv(RecordRef(s, w))
  {
    RefInv(s, w);
    var next := s.at.i.(ref := s.at.ref);
    SaveKeeps(s, next, w, if next.ref == "" then Idle else RefSaved(next));
  }

  lemma PinKeeps(s: State, key: Option<string>, w: Write)
    requires VaultInv(s) && s.at.RefSaved?
    ensures VaultInv(Pin(s, key, w))
  {
    PinInv(s, key, w);
    var i := s.at.i;
    if key.Some? && i.completeDigest.None? {
      var request := CompleteOf(i, key.value);
      var next := i.(completeDigest := Some(Digest(SetupComplete, i.completeKey, request)));
      SaveKeeps(s, next, w, Pinned(next, request));
    }
  }

  lemma ChallengeKeeps(s: State, live: bool, w: Write)
    requires VaultInv(s) && s.at.Begun?
    ensures VaultInv(RecordChallenge(s, live, w))
  {
    ChallengeInv(s, live, w);
    var i, reply := s.at.i, s.at.reply;
    if reply.completed && IdOk(reply.id) && reply.version >= 1 && live && reply.expires > 0 {
      var next := i.(challenge := reply.id, challengeVersion := reply.version, expires := reply.expires);
      SaveKeeps(s, next, w, Challenged(next, s.at.conn));
    }
  }

  lemma StatusKeeps(s: State, answered: bool, live: bool)
    requires VaultInv(s) && s.at.Challenged?
    ensures VaultInv(Status(s, answered, live))
  {
    StatusInv(s, answered, live);
    MovesKeep(s, Status(s, answered, live));
  }

  /** Entries may go; those that stay keep their value. */
  ghost predicate Shrinks(s: State, s': State) {
    forall n | n in s'.vault :: n in s.vault && s'.vault[n] == s.vault[n]
  }

  lemma ShrinkKeeps(s: State, s': State)
    requires VaultInv(s) && Inv(s') && PointKnows(s') && Shrinks(s, s')
    requires s'.disk == s.disk && s'.puts == s.puts && s'.ctl == s.ctl
    ensures VaultInv(s')
  {
  }

  /** A discard that lets the intent go leaves nothing under its name but what has been effective. */
  lemma DiscardPoint(s: State, answered: bool, deleted: bool, confirmed: bool)
    requires VaultInv(s) && s.at.Discarding?
    ensures var s' := DiscardCredential(s, answered, deleted, confirmed); PointKnows(s') && Shrinks(s, s')
  {
    assert s.disk == Some(s.at.i);
  }

  lemma DiscardKeeps(s: State, answered: bool, deleted: bool, confirmed: bool)
    requires VaultInv(s) && s.at.Discarding?
    ensures VaultInv(DiscardCredential(s, answered, deleted, confirmed))
  {
    DiscardInv(s, answered, deleted, confirmed);
    DiscardPoint(s, answered, deleted, confirmed);
    ShrinkKeeps(s, DiscardCredential(s, answered, deleted, confirmed));
  }

  lemma RemoveKeeps(s: State, w: Write)
    requires VaultInv(s) && s.at.Removing?
    ensures VaultInv(RemoveIntent(s, w))
  {
    RemoveInv(s, w);
    var i := s.at.i;
    assert Settled(s, i.name);
  }

  /** Reads, submissions and crashes only move the helper. */
  predicate OnlyReads(e: Event) {
    || e.Crash? || e.Start? || e.LookupBegin? || e.SubmitBegin? || e.LookupCredential? || e.LookupComplete?
    || e.RecheckStatus? || e.SubmitComplete? || e.FinalStatus? || e.FinalConnection?
  }

  lemma ReadFrame(s: State, e: Event)
    requires OnlyReads(e)
    ensures var s' := Next(s, e); s'.disk == s.disk && s'.vault == s.vault && s'.puts == s.puts && s'.ctl == s.ctl
  {
  }

  lemma ReadKnows(s: State, e: Event)
    requires OnlyReads(e) && PointKnows(s)
    ensures PointKnows(Next(s, e))
  {
  }

  lemma ReadKeeps(s: State, e: Event)
    requires VaultInv(s) && OnlyReads(e)
    ensures VaultInv(Next(s, e))
  {
    StepInv(s, e);
    ReadFrame(s, e);
    ReadKnows(s, e);
    MovesKeep(s, Next(s, e));
  }

  lemma ActKeeps(s: State, e: Event)
    requires VaultInv(s) && !OnlyReads(e)
    ensures VaultInv(Next(s, e))
  {
    if e.Evolve? && Honest(s.ctl, e.ctl) {
      EvolveInv(s, e.ctl);
      EvolveKeeps(s, e.ctl);
    } else if e.GetConnection? && s.at.Loaded? {
      ConnectKeeps(s, e);
    } else if e.SaveChallenge? && s.at.Begun? {
      ChallengeKeeps(s, e.live, e.w);
    } else if e.ReadStatus? && s.at.Challenged? {
      StatusKeeps(s, e.answered, e.live);
    } else if e.PutCredential? && s.at.PutReady? {
      PutKeeps(s, e.outcome);
    } else if e.SaveRef? && s.at.GotRef? {
      RefKeeps(s, e.w);
    } else if e.PinComplete? && s.at.RefSaved? {
      PinKeeps(s, e.key, e.w);
    } else if e.Discard? && s.at.Discarding? {
      DiscardKeeps(s, e.answered, e.deleted, e.confirmed);
    } else if e.Remove? && s.at.Removing? {
      RemoveKeeps(s, e.w);
    }
  }

  lemma StepVault(s: State, e: Event)
    requires VaultInv(s)
    ensures VaultInv(Next(s, e))
  {
    if OnlyReads(e) {
      ReadKeeps(s, e);
    } else {
      ActKeeps(s, e);
    }
  }

  lemma {:induction false} RunVault(s: State, events: seq<Event>)
    requires VaultInv(s)
    ensures VaultInv(Run(s, events))
  {
    if events != [] {
      RunVault(s, events[..|events| - 1]);
      StepVault(Run(s, events[..|events| - 1]), events[|events| - 1]);
    }
  }

  lemma InitialVault(s: State)
    requires Initial(s)
    ensures VaultInv(s)
  {
  }

  // ---- What a step does to the secret store ----

  /**
   * An entry leaves the secret store or changes only in a discard,
     only if it holds the reference the ended setup captured,
   * and never if it holds the reference that was read as effective for that discard.
   */
  lemma LeavesOnlyDiscarded(s: State, e: Event, n: string)
    requires VaultInv(s) && n in s.vault && !(n in Next(s, e).vault && Next(s, e).vault[n] == s.vault[n])
    ensures e.Discard? && s.at.Discarding? && s.vault[n] == Captured(s, s.at.i) && s.vault[n] != s.at.effective
    ensures Ended(s.ctl, s.at.i.challenge)
  {
  }

  /** An entry appears only by writing the credential of the pending setup under its name. */
  lemma AppearsOnlyPut(s: State, e: Event, n: string)
    requires VaultInv(s) && n !in s.vault && n in Next(s, e).vault
    ensures e.PutCredential? && s.at.PutReady? && s.at.i.name == n && s.disk == Some(s.at.i) && !e.outcome.PutFailed?
    ensures Next(s, e).vault[n] == e.outcome.ref
  {
  }

  /**
   * A discard that lets its intent go leaves no entry that holds the captured reference, unless that one is effective.
   */
  lemma DiscardCleans(s: State, e: Event, n: string)
    requires VaultInv(s) && e.Discard? && s.at.Discarding? && Next(s, e).at.Removing?
    ensures Next(s, e).at == Removing(s.at.i, Terminal)
    ensures var ref := Captured(s, s.at.i);
            ref != "" && ref != s.at.effective && n in Next(s, e).vault ==> Next(s, e).vault[n] != ref
  {
  }

  /**
   * A discard lets its intent go if and only if it knows the captured reference and that one is empty, effective,
     or deleted
   * and confirmed.
   */
  lemma DiscardExactly(s: State, answered: bool, deleted: bool, confirmed: bool)
    requires s.at.Discarding?
    ensures var ref := Captured(s, s.at.i);
            Next(s, Discard(answered, deleted, confirmed)).at.Removing? <==>
            (s.at.i.ref != "" || answered) && (ref == "" || ref == s.at.effective || (deleted && confirmed))
  {
  }

  // ---- Whole histories ----

  /** In every reachable state, every credential ever written is the pending setup's, is gone, or has been effective. */
  lemma NeverOrphaned(s: State, events: seq<Event>)
    requires Initial(s)
    ensures NoOrphans(Run(s, events))
  {
    InitialVault(s);
    RunVault(s, events);
  }

  /** The effective reference the helper carries, read with the connection. */
  function Carried(p: Point): Option<string> {
    match p
    case Connected(_, conn) => Some(conn.credential)
    case BeginReady(_, conn) => Some(conn.credential)
    case Begun(_, conn, _) => Some(conn.credential)
    case Challenged(_, conn) => Some(conn.credential)
    case Live(_, conn) => Some(conn.credential)
    case Discarding(_, effective) => Some(effective)
    case _ => None
  }

  lemma CarriedStep(s: State, e: Event)
    requires Carried(Next(s, e).at).Some?
    ensures Carried(Next(s, e).at) == Carried(s.at)
            || (e.GetConnection? && s.at.Loaded? && e.answered && Carried(Next(s, e).at) == Some(s.ctl.credential))
  {
  }

  /** What a discard spares is the credential of the connection as this pass read it from the controller. */
  lemma {:induction false} CarriedWasRead(s: State, events: seq<Event>) returns (j: nat)
    requires s.at == Idle && Carried(Run(s, events).at).Some?
    ensures j < |events| && events[j].GetConnection? && events[j].answered && Run(s, events[..j]).at.Loaded?
    ensures Carried(Run(s, events).at) == Some(Run(s, events[..j]).ctl.credential)
  {
    var n := |events| - 1;
    var before := Run(s, events[..n]);
    CarriedStep(before, events[n]);
    if Carried(before.at) == Carried(Run(s, events).at) {
      j := CarriedWasRead(s, events[..n]);
      assert events[..n][..j] == events[..j];
    } else {
      j := n;
    }
  }

  /**
   * At every point of every history an entry is only lost as the captured reference of an ended setup, never the
   * effective one.
   */
  lemma LostOnlyDiscarded(s: State, events: seq<Event>, k: nat, n: string)
    requires Initial(s) && k < |events| && n in Run(s, events[..k]).vault
    requires var next := Run(s, events[..k + 1]); !(n in next.vault && next.vault[n] == Run(s, events[..k]).vault[n])
    ensures var at := Run(s, events[..k]);
            && events[k].Discard? && at.at.Discarding? && Ended(at.ctl, at.at.i.challenge)
            && at.vault[n] == Captured(at, at.at.i) && at.vault[n] != at.at.effective
  {
    InitialVault(s);
    RunVault(s, events[..k]);
    assert events[..k + 1][..k] == events[..k];
    LeavesOnlyDiscarded(Run(s, events[..k]), events[k], n);
  }

  // ---- Sessions ----

  /** The events of a sequence of passes, each ended by its crash. */
  function SessionEvents(s: State, xs: seq<Session>): seq<Event>
    decreases |xs|
  {
    if xs == [] then []
    else
      var played := EventsOfAll(s, Played(xs[0])) + [Crash];
      played + SessionEvents(Next(TakeAll(s, Played(xs[0])), Crash), xs[1..])
  }

  /** Any sequence of passes is a run, so what holds at every point of every run holds throughout the passes. */
  lemma {:induction false} SessionsAreRun(s: State, xs: seq<Session>)
    ensures Sessions(s, xs) == Run(s, SessionEvents(s, xs))
    decreases |xs|
  {
    if xs != [] {
      var turns := Played(xs[0]);
      var after := Next(TakeAll(s, turns), Crash);
      TakeAllIsRun(s, turns);
      RunConcat(s, EventsOfAll(s, turns), [Crash]);
      RunOne(TakeAll(s, turns), Crash);
      SessionsAreRun(after, xs[1..]);
      RunConcat(s, EventsOfAll(s, turns) + [Crash], SessionEvents(after, xs[1..]));
    }
  }

  /**
   * However many passes are made and wherever each is killed, no unused credential is left behind without its intent.
   */
  lemma SessionsLeaveNoOrphans(s: State, xs: seq<Session>)
    requires Initial(s)
    ensures NoOrphans(Sessions(s, xs))
  {
    SessionsAreRun(s, xs);
    NeverOrphaned(s, SessionEvents(s, xs));
  }

  /** And no pass loses an entry but the captured reference of an ended setup, never the one it read as effective. */
  lemma SessionsLoseOnlyDiscarded(s: State, xs: seq<Session>, k: nat, n: string)
    requires Initial(s) && k < |SessionEvents(s, xs)| && n in Run(s, SessionEvents(s, xs)[..k]).vault
    requires var next := Run(s, SessionEvents(s, xs)[..k + 1]);
             !(n in next.vault && next.vault[n] == Run(s, SessionEvents(s, xs)[..k]).vault[n])
    ensures Sessions(s, xs) == Run(s, SessionEvents(s, xs))
    ensures var at := Run(s, SessionEvents(s, xs)[..k]);
            at.at.Discarding? && at.vault[n] == Captured(at, at.at.i) && at.vault[n] != at.at.effective
  {
    SessionsAreRun(s, xs);
    LostOnlyDiscarded(s, SessionEvents(s, xs), k, n);
  }
}
