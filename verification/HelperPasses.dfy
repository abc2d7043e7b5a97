/** One pass of the helper as the protocol steps it takes, and sequences of passes cut short by crashes. */
module HelperPasses {
  import opened Wrappers
  import opened HelperProtocol
  import opened HelperSafety

  /**
   * What the outside answers during one pass: the controller's state at each remote read, replies, write outcomes and
   * new identities.
   */
  datatype Answers = Answers(controller: nat -> Controller, connected: bool, version: int, account: string,
                             beginId: string, completeId: string, nameId: string, retainedBegin: Lookup<BeginReply>,
                             begun: Option<BeginReply>, live: nat -> bool, answered: nat -> bool, put: PutOutcome,
                             key: Option<string>, retainedComplete: Lookup<bool>, delivered: bool,
                             deleted: bool, confirmed: bool, write: nat -> Write)

  /** One action of a pass, preceded by the controller as the action finds it. */
  datatype Turn = Turn(now: Option<Controller>, act: Event)

  /** Whether the helper, standing at `p`, takes the action. */
  predicate Fits(p: Point, act: Event) {
    match act
    case Evolve(_) => true
    case Crash => true
    case Start(_) => p.Idle?
    case GetConnection(_, _, _, _, _, _, _) => p.Loaded?
    case LookupBegin(_) => p.Connected?
    case SubmitBegin(_) => p.BeginReady?
    case SaveChallenge(_, _) => p.Begun?
    case ReadStatus(_, _) => p.Challenged?
    case LookupCredential(_) => p.Live?
    case PutCredential(_) => p.PutReady?
    case SaveRef(_) => p.GotRef?
    case PinComplete(_, _) => p.RefSaved?
    case LookupComplete(_) => p.Pinned?
    case RecheckStatus(_, _) => p.Unretained?
    case SubmitComplete(_) => p.CompleteReady?
    case FinalStatus(_) => p.AwaitStatus?
    case FinalConnection(_) => p.AwaitConnection?
    case Discard(_, _, _) => p.Discarding?
    case Remove(_) => p.Removing?
  }

  /** The protocol events of a turn: none when the helper is past it or stopped before it. */
  function EventsOf(s: State, t: Turn): seq<Event> {
    if !Fits(s.at, t.act) then [] else if t.now.Some? then [Evolve(t.now.value), t.act] else [t.act]
  }

  function Take(s: State, t: Turn): State {
    if !Fits(s.at, t.act) then s
    else Next(if t.now.Some? then Next(s, Evolve(t.now.value)) else s, t.act)
  }

  function TakeAll(s: State, turns: seq<Turn>): State
    decreases |turns|
  {
    if turns == [] then s else TakeAll(Take(s, turns[0]), turns[1..])
  }

  function EventsOfAll(s: State, turns: seq<Turn>): seq<Event>
    decreases |turns|
  {
    if turns == [] then [] else EventsOf(s, turns[0]) + EventsOfAll(Take(s, turns[0]), turns[1..])
  }

  // ---- A pass ----

  function EnterTurns(installation: string, a: Answers): seq<Turn> {
    [Turn(None, Start(installation)),
     Turn(Some(a.controller(0)),
          GetConnection(a.connected, a.version, a.account, a.beginId, a.completeId, a.nameId, a.write(0)))]
  }

  function BeginTurns(a: Answers): seq<Turn> {
    [Turn(None, LookupBegin(a.retainedBegin)), Turn(None, SubmitBegin(a.begun)),
     Turn(None, SaveChallenge(a.live(0), a.write(1)))]
  }

  function PrepareTurns(installation: string, a: Answers): seq<Turn> {
    EnterTurns(installation, a) + BeginTurns(a) + [Turn(Some(a.controller(1)), ReadStatus(a.answered(1), a.live(1)))]
  }

  function CaptureTurns(a: Answers): seq<Turn> {
    [Turn(None, LookupCredential(a.answered(2))), Turn(None, PutCredential(a.put)), Turn(None, SaveRef(a.write(2)))]
  }

  function SubmitTurns(a: Answers): seq<Turn> {
    [Turn(None, LookupComplete(a.retainedComplete)),
     Turn(Some(a.controller(2)), RecheckStatus(a.answered(3), a.live(3))), Turn(None, SubmitComplete(a.delivered))]
  }

  function AwaitTurns(a: Answers): seq<Turn> {
    [Turn(Some(a.controller(3)), FinalStatus(a.answered(4))),
     Turn(Some(a.controller(4)), FinalConnection(a.answered(5)))]
  }

  function FinishTurns(a: Answers): seq<Turn> {
    [Turn(None, PinComplete(a.key, a.write(3)))] + SubmitTurns(a) + AwaitTurns(a)
  }

  /** Everything a pass does before it may remove the intent of a completed setup. */
  function AttemptTurns(installation: string, a: Answers): seq<Turn> {
    PrepareTurns(installation, a) + CaptureTurns(a) + FinishTurns(a)
  }

  function EndTurns(a: Answers): seq<Turn> {
    [Turn(None, Discard(a.answered(6), a.deleted, a.confirmed)), Turn(None, Remove(a.write(4)))]
  }

  function Pass(installation: string, a: Answers): seq<Turn> {
    AttemptTurns(installation, a) + EndTurns(a)
  }

  // ---- Turns are events ----

  lemma {:induction false} RunConcat(s: State, xs: seq<Event>, ys: seq<Event>)
    ensures Run(s, xs + ys) == Run(Run(s, xs), ys)
  {
    if ys == [] {
      assert xs + ys == xs;
    } else {
      RunConcat(s, xs, ys[..|ys| - 1]);
      assert (xs + ys)[..|xs + ys| - 1] == xs + ys[..|ys| - 1];
    }
  }

  lemma RunOne(s: State, e: Event)
    ensures Run(s, [e]) == Next(s, e)
  {
    assert [e][..0] == [];
  }

  lemma TakeIsRun(s: State, t: Turn)
    ensures Take(s, t) == Run(s, EventsOf(s, t))
  {
    if Fits(s.at, t.act) {
      RunOne(s, t.act);
      if t.now.Some? {
        var before := Evolve(t.now.value);
        RunOne(s, before);
        RunConcat(s, [before], [t.act]);
        RunOne(Next(s, before), t.act);
        assert [before] + [t.act] == [before, t.act];
      }
    }
  }

  /** What the turns of a pass do is what the protocol does with the events they amount to. */
  lemma {:induction false} TakeAllIsRun(s: State, turns: seq<Turn>)
    ensures TakeAll(s, turns) == Run(s, EventsOfAll(s, turns))
    decreases |turns|
  {
    if turns != [] {
      TakeIsRun(s, turns[0]);
      TakeAllIsRun(Take(s, turns[0]), turns[1..]);
      RunConcat(s, EventsOf(s, turns[0]), EventsOfAll(Take(s, turns[0]), turns[1..]));
    }
  }

  lemma {:induction false} TakeAllConcat(s: State, xs: seq<Turn>, ys: seq<Turn>)
    ensures TakeAll(s, xs + ys) == TakeAll(TakeAll(s, xs), ys)
    decreases |xs|
  {
    if xs == [] {
      assert xs + ys == ys;
    } else {
      TakeAllConcat(Take(s, xs[0]), xs[1..], ys);
      assert (xs + ys)[1..] == xs[1..] + ys;
    }
  }

  lemma TakeOne(s: State, t: Turn)
    ensures TakeAll(s, [t]) == Take(s, t)
  {
    assert [t][1..] == [];
    assert TakeAll(Take(s, t), []) == Take(s, t);
  }

  lemma TakeTwo(s: State, t: Turn, u: Turn)
    ensures TakeAll(s, [t, u]) == Take(Take(s, t), u)
  {
    TakeOne(s, t);
    TakeOne(Take(s, t), u);
    TakeAllConcat(s, [t], [u]);
    assert [t] + [u] == [t, u];
  }

  lemma TakeThree(s: State, t: Turn, u: Turn, v: Turn)
    ensures TakeAll(s, [t, u, v]) == Take(Take(Take(s, t), u), v)
  {
    TakeTwo(s, t, u);
    TakeOne(Take(Take(s, t), u), v);
    TakeAllConcat(s, [t, u], [v]);
    assert [t, u] + [v] == [t, u, v];
  }

  /** A helper past all the given turns is not moved by them. */
  lemma {:induction false} NoneFits(s: State, turns: seq<Turn>)
    requires forall t | t in turns :: !Fits(s.at, t.act)
    ensures TakeAll(s, turns) == s
  {
    if turns != [] {
      assert Take(s, turns[0]) == s;
      NoneFits(s, turns[1..]);
    }
  }

  // ---- Stages of a pass ----

  lemma JoinTwo(s: State, m: State, r: State, t: Turn, u: Turn)
    requires m == Take(s, t) && r == Take(m, u)
    ensures r == TakeAll(s, [t, u])
  {
    TakeTwo(s, t, u);
  }

  lemma JoinThree(s: State, m: State, n: State, r: State, t: Turn, u: Turn, v: Turn)
    requires m == Take(s, t) && n == Take(m, u) && r == Take(n, v)
    ensures r == TakeAll(s, [t, u, v])
  {
    TakeThree(s, t, u, v);
  }

  lemma Join(s: State, m: State, n: State, r: State, xs: seq<Turn>, ys: seq<Turn>, zs: seq<Turn>)
    requires m == TakeAll(s, xs) && n == TakeAll(m, ys) && r == TakeAll(n, zs)
    ensures r == TakeAll(s, xs + ys + zs)
  {
    TakeAllConcat(s, xs, ys);
    TakeAllConcat(s, xs + ys, zs);
  }

  lemma BeginSkipped(s: State, a: Answers)
    requires s.at.Idle?
    ensures TakeAll(s, BeginTurns(a)) == s
  {
    NoneFits(s, BeginTurns(a));
  }

  lemma CaptureSkipped(s: State, a: Answers)
    requires s.at.Idle? || s.at.Removing? || s.at.Discarding?
    ensures TakeAll(s, CaptureTurns(a)) == s
  {
    NoneFits(s, CaptureTurns(a));
  }

  lemma SubmitSkipped(s: State, a: Answers)
    requires s.at.Idle? || s.at.Removing? || s.at.Discarding?
    ensures TakeAll(s, SubmitTurns(a)) == s
  {
    NoneFits(s, SubmitTurns(a));
  }

  lemma FinishSkipped(s: State, a: Answers)
    requires s.at.Idle? || s.at.Removing? || s.at.Discarding?
    ensures TakeAll(s, FinishTurns(a)) == s
  {
    NoneFits(s, FinishTurns(a));
  }

  /** A setup that a pass may end with success has completed with the intent's own credential. */
  lemma RemovalGround(s: State)
    requires Secure(s) && s.at.Removing? && s.at.why.Matched?
    ensures s.disk == Some(s.at.i) && Done(s.ctl, s.at.i.challenge)
    ensures s.at.i.ref != "" && s.at.i.ref in s.ctl.effective
  {
    SecureNow(s);
  }

  // ---- Many passes ----

  /** One start of the program: the pass it makes, and how many turns it gets to before it is killed. */
  datatype Session = Session(installation: string, answers: Answers, turns: nat)

  function Played(x: Session): seq<Turn> {
    var pass := Pass(x.installation, x.answers);
    pass[..if x.turns < |pass| then x.turns else |pass|]
  }

  /** Any number of passes in turn, each ending or killed anywhere. */
  function Sessions(s: State, xs: seq<Session>): State
    decreases |xs|
  {
    if xs == [] then s else Sessions(Next(TakeAll(s, Played(xs[0])), Crash), xs[1..])
  }

  /** A pass that is not killed is a session like any other. */
  lemma WholePass(s: State, installation: string, a: Answers)
    requires TakeAll(s, Pass(installation, a)).at.Idle?
    ensures Sessions(s, [Session(installation, a, |Pass(installation, a)|)]) == TakeAll(s, Pass(installation, a))
  {
    var x, pass := Session(installation, a, |Pass(installation, a)|), Pass(installation, a);
    assert pass[..|pass|] == pass;
    assert Played(x) == pass;
    assert [x][1..] == [];
    assert Next(TakeAll(s, pass), Crash) == TakeAll(s, pass);
  }

  lemma {:induction false} SessionsInv(s: State, xs: seq<Session>)
    requires Inv(s)
    ensures Inv(Sessions(s, xs))
    decreases |xs|
  {
    if xs != [] {
      var turns := Played(xs[0]);
      TakeAllIsRun(s, turns);
      RunInv(s, EventsOfAll(s, turns));
      StepInv(TakeAll(s, turns), Crash);
      SessionsInv(Next(TakeAll(s, turns), Crash), xs[1..]);
    }
  }

  /** However many passes are made and wherever each is killed, no credential name is effectively written twice. */
  lemma SessionsWriteOnce(s: State, xs: seq<Session>)
    requires Initial(s)
    ensures Distinct(Sessions(s, xs).puts)
  {
    SessionsInv(s, xs);
  }

  /** Over all passes, a submission key carries one request. */
  lemma SessionsSubmitOneRequest(s: State, xs: seq<Session>, x: Submission, y: Submission)
    requires Initial(s) && x in Sessions(s, xs).submitted && y in Sessions(s, xs).submitted && x.key == y.key
    ensures x == y
  {
    SessionsInv(s, xs);
  }
}
