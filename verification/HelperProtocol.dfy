/**
 * The credential helper's recovery protocol for one connection: a durable intent, a secret store and a controller whose
 * replies may be lost. One helper runs at a time under the connection's lock, and it may crash after any step.
 */
module HelperProtocol {
  import opened Wrappers

  // ---- Requests and receipts ----

  datatype Operation = SetupBegin | SetupComplete

  /** The opaque receipt binds the credential reference to one challenge under the local receipt key. */
  datatype Receipt = Receipt(key: string, challenge: string, ref: string, account: string, expires: int)

  datatype Request =
    | BeginRequest(installation: string, connection: string, expectedVersion: int)
    | CompleteRequest(installation: string, challenge: string, expectedVersion: int, receipt: Receipt)

  /** An injective tag over the operation, its submission key and the exact request. */
  datatype Digest = Digest(operation: Operation, key: string, request: Request)

  // ---- The durable intent ----

  datatype Intent = Intent(installation: string, connection: string, connectionVersion: int, account: string,
                           beginKey: string, beginDigest: Digest, challenge: string, challengeVersion: int,
                           expires: int,
                           name: string, ref: string, completeKey: string, completeDigest: Option<Digest>)

  const NAME_PREFIX := "connections/credential/"
  const BEGIN_PREFIX := "helper-begin/"
  const COMPLETE_PREFIX := "helper-complete/"
  const MAX_VERSION := 0x20_0000_0000_0000

  predicate IsHex(c: char) {
    '0' <= c <= '9' || 'a' <= c <= 'f'
  }

  /** Lower-case hexadecimal in groups of 8, 4, 4, 4 and 12. */
  predicate IdOk(s: string) {
    |s| == 36 && forall i | 0 <= i < 36 :: if i in {8, 13, 18, 23} then s[i] == '-' else IsHex(s[i])
  }

  predicate KeyOk(k: string) {
    0 < |k| <= 256 && forall i | 0 <= i < |k| :: k[i] != '\r' && k[i] != '\n' && k[i] != '\0'
  }

  predicate Valid(i: Intent) {
    && IdOk(i.installation) && IdOk(i.connection)
    && 1 <= i.connectionVersion <= MAX_VERSION
    && 0 < |i.account| <= 8192
    && KeyOk(i.beginKey) && KeyOk(i.completeKey) && i.beginKey != i.completeKey
    && NAME_PREFIX <= i.name && |i.name| <= 256 && IdOk(i.name[|NAME_PREFIX|..])
    && |i.ref| <= 512
    && (if i.challenge == "" then i.challengeVersion == 0 && i.expires == 0 && i.ref == "" && i.completeDigest == None
        else
          && IdOk(i.challenge) && i.challengeVersion >= 1 && i.expires != 0
          && (i.completeDigest.Some? ==> i.ref != ""))
  }

  function BeginOf(i: Intent): Request {
    BeginRequest(i.installation, i.connection, i.connectionVersion)
  }

  function CompleteOf(i: Intent, key: string): Request {
    CompleteRequest(i.installation, i.challenge, i.challengeVersion,
                    Receipt(key, i.challenge, i.ref, i.account, i.expires))
  }

  // ---- The controller ----

  datatype ChallengeState = ActionRequired | Completed | Cancelled | Expired | SetupFailed | OtherState

  predicate Dead(c: ChallengeState) {
    c == Cancelled || c == Expired || c == SetupFailed
  }

  datatype Challenge = Challenge(state: ChallengeState, version: int, connection: string, expires: int)

  /**
   * The authoritative record: challenges, the connection's effective credential, and every credential that ever was
   * effective.
   */
  datatype Controller = Controller(challenges: map<string, Challenge>, credential: string, effective: set<string>)

  /** A challenge that has ended keeps its state; everything else may change. */
  predicate Honest(c: Controller, c': Controller) {
    && (forall id | id in c.challenges && (c.challenges[id].state == Completed || Dead(c.challenges[id].state)) ::
          id in c'.challenges && c'.challenges[id].state == c.challenges[id].state)
    && c.effective <= c'.effective && c'.credential in c'.effective
  }

  ghost predicate Ended(c: Controller, id: string) {
    id in c.challenges && Dead(c.challenges[id].state)
  }

  ghost predicate Done(c: Controller, id: string) {
    id in c.challenges && c.challenges[id].state == Completed
  }

  // ---- The helper ----

  datatype Connection = Connection(version: int, account: string, credential: string)

  datatype Why = Matched(credential: string) | Terminal

  datatype BeginReply = BeginReply(completed: bool, id: string, version: int, expires: int)

  /** Where the running helper stands between two durable or remote actions. */
  datatype Point =
    | Idle
    | Loaded(installation: string)
    | Connected(i: Intent, conn: Connection)
    | BeginReady(i: Intent, conn: Connection)
    | Begun(i: Intent, conn: Connection, reply: BeginReply)
    | Challenged(i: Intent, conn: Connection)
    | Live(i: Intent, conn: Connection)
    | PutReady(i: Intent)
    | GotRef(i: Intent, ref: string)
    | RefSaved(i: Intent)
    | Pinned(i: Intent, request: Request)
    | Unretained(i: Intent, request: Request)
    | CompleteReady(i: Intent, request: Request)
    | AwaitStatus(i: Intent)
    | AwaitConnection(i: Intent)
    | Discarding(i: Intent, effective: string)
    | Removing(i: Intent, why: Why)
  {
    predicate HasIntent() {
      !Idle? && !Loaded?
    }
  }

  datatype Submission = Submission(operation: Operation, key: string, request: Request)

  datatype State = State(connection: string, disk: Option<Intent>, vault: map<string, string>, puts: seq<string>,
                         submitted: seq<Submission>, used: set<string>, ctl: Controller, at: Point)

  /** How a durable write ends; an unsynced one has changed the disk and still reports an error. */
  datatype Write = Written | Unsynced | NotWritten

  datatype Lookup<T> = Found(value: T) | NotFound | Unanswered

  datatype PutOutcome = PutOk(ref: string) | PutLost(ref: string) | PutFailed

  datatype Event =
    | Evolve(ctl: Controller)
    | Crash
    | Start(installation: string)
    | GetConnection(answered: bool, version: int, account: string, beginId: string, completeId: string, nameId: string,
                    w: Write)
    | LookupBegin(retained: Lookup<BeginReply>)
    | SubmitBegin(acknowledged: Option<BeginReply>)
    | SaveChallenge(live: bool, w: Write)
    | ReadStatus(answered: bool, live: bool)
    | LookupCredential(answered: bool)
    | PutCredential(outcome: PutOutcome)
    | SaveRef(w: Write)
    | PinComplete(key: Option<string>, w: Write)
    | LookupComplete(outcomeRetained: Lookup<bool>)
    | RecheckStatus(answered: bool, live: bool)
    | SubmitComplete(delivered: bool)
    | FinalStatus(answered: bool)
    | FinalConnection(answered: bool)
    | Discard(answered: bool, deleted: bool, confirmed: bool)
    | Remove(w: Write)

  /** Writing refuses an invalid intent; otherwise the outcome is the storage's. */
  function Save(s: State, i: Intent, w: Write, next: Point): State {
    if !Valid(i) || w.NotWritten? then s.(at := Idle)
    else s.(disk := Some(i), at := if w.Written? then next else Idle)
  }

  /** New identities are valid, distinct and never seen before. */
  predicate Minted(s: State, beginId: string, completeId: string, nameId: string) {
    && IdOk(beginId) && IdOk(completeId) && IdOk(nameId)
    && BEGIN_PREFIX + beginId !in s.used && COMPLETE_PREFIX + completeId !in s.used && NAME_PREFIX + nameId !in s.used
  }

  function NewIntent(s: State, installation: string, conn: Connection, beginId: string, completeId: string,
                     nameId: string): Intent {
    var key := BEGIN_PREFIX + beginId;
    Intent(installation, s.connection, conn.version, conn.account,
           key, Digest(SetupBegin, key, BeginRequest(installation, s.connection, conn.version)), "", 0, 0,
           NAME_PREFIX + nameId, "", COMPLETE_PREFIX + completeId, None)
  }

  // ---- Preparation ----

  function Load(s: State, installation: string): State {
    if s.disk.Some?
       && (!Valid(s.disk.value) || s.disk.value.connection != s.connection || s.disk.value.installation != installation)
    then s
    else s.(at := Loaded(installation))
  }

  function ReadConnection(s: State, version: int, account: string): Connection {
    Connection(version, account, s.ctl.credential)
  }

  function Connect(s: State, e: Event): State
    requires s.at.Loaded? && e.GetConnection?
  {
    var conn := ReadConnection(s, e.version, e.account);
    if !e.answered || e.version < 1 then s.(at := Idle)
    else if s.disk.Some? then s.(at := Connected(s.disk.value, conn))
    else if !Minted(s, e.beginId, e.completeId, e.nameId) then s
    else
      var i := NewIntent(s, s.at.installation, conn, e.beginId, e.completeId, e.nameId);
      Save(s.(used := s.used + {i.beginKey, i.completeKey, i.name}), i, e.w, Connected(i, conn))
  }

  function Reconcile(s: State, retained: Lookup<BeginReply>): State
    requires s.at.Connected?
  {
    var i, conn := s.at.i, s.at.conn;
    if Digest(SetupBegin, i.beginKey, BeginOf(i)) != i.beginDigest then s.(at := Idle)
    else if i.account != conn.account && conn.credential != i.ref then s.(at := Idle)
    else if i.challenge != "" then s.(at := Challenged(i, conn))
    else match retained
      case Unanswered => s.(at := Idle)
      case Found(reply) => s.(at := Begun(i, conn, reply))
      case NotFound => s.(at := if conn.version != i.connectionVersion then Idle else BeginReady(i, conn))
  }

  function Begin(s: State, acknowledged: Option<BeginReply>): State
    requires s.at.BeginReady?
  {
    var i := s.at.i;
    s.(submitted := s.submitted + [Submission(SetupBegin, i.beginKey, BeginOf(i))],
       at := if acknowledged.None? then Idle else Begun(i, s.at.conn, acknowledged.value))
  }

  function RecordChallenge(s: State, live: bool, w: Write): State
    requires s.at.Begun?
  {
    var i, reply := s.at.i, s.at.reply;
    if !reply.completed || !IdOk(reply.id) || reply.version < 1 || !live || reply.expires <= 0 then s.(at := Idle)
    else
      var next := i.(challenge := reply.id, challengeVersion := reply.version, expires := reply.expires);
      Save(s, next, w, Challenged(next, s.at.conn))
  }

  /** A challenge that is still the one recorded, unexpired, and awaiting the credential. */
  predicate StillLive(i: Intent, c: Challenge, live: bool) {
    c.state == ActionRequired && c.version == i.challengeVersion && c.expires == i.expires && live
  }

  function Status(s: State, answered: bool, live: bool): State
    requires s.at.Challenged?
  {
    var i, conn := s.at.i, s.at.conn;
    if !answered || i.challenge !in s.ctl.challenges then s.(at := Idle)
    else
      var c := s.ctl.challenges[i.challenge];
      if c.version < 1 || c.connection != s.connection then s.(at := Idle)
      else if c.state == Completed then
        s.(at := if i.ref != "" && conn.credential == i.ref then Removing(i, Matched(conn.credential)) else Idle)
      else if Dead(c.state) then s.(at := Discarding(i, conn.credential))
      else
        s.(at := if StillLive(i, c, live) && conn.version == i.connectionVersion && conn.account == i.account
                 then Live(i, conn) else Idle)
  }

  // ---- Capture and completion ----

  function Find(s: State, answered: bool): State
    requires s.at.Live?
  {
    var i := s.at.i;
    if i.ref != "" then s.(at := RefSaved(i))
    else if !answered then s.(at := Idle)
    else if i.name in s.vault then s.(at := GotRef(i, s.vault[i.name]))
    else s.(at := if s.at.conn.version != i.connectionVersion then Idle else PutReady(i))
  }

  function Put(s: State, outcome: PutOutcome): State
    requires s.at.PutReady?
  {
    var i := s.at.i;
    match outcome
    case PutFailed => s.(at := Idle)
    case PutLost(ref) => s.(vault := s.vault[i.name := ref], puts := s.puts + [i.name], at := Idle)
    case PutOk(ref) => s.(vault := s.vault[i.name := ref], puts := s.puts + [i.name], at := GotRef(i, ref))
  }

  function RecordRef(s: State, w: Write): State
    requires s.at.GotRef?
  {
    var next := s.at.i.(ref := s.at.ref);
    Save(s, next, w, if next.ref == "" then Idle else RefSaved(next))
  }

  function Pin(s: State, key: Option<string>, w: Write): State
    requires s.at.RefSaved?
  {
    if key.None? then s.(at := Idle)
    else
      var i := s.at.i;
      var request := CompleteOf(i, key.value);
      var digest := Digest(SetupComplete, i.completeKey, request);
      if i.completeDigest.None? then
        var next := i.(completeDigest := Some(digest));
        Save(s, next, w, Pinned(next, request))
      else s.(at := if i.completeDigest == Some(digest) then Pinned(i, request) else Idle)
  }

  function ReconcileComplete(s: State, retained: Lookup<bool>): State
    requires s.at.Pinned?
  {
    match retained
    case Unanswered => s.(at := Idle)
    case Found(completed) => s.(at := if completed then AwaitStatus(s.at.i) else Idle)
    case NotFound => s.(at := Unretained(s.at.i, s.at.request))
  }

  function Recheck(s: State, answered: bool, live: bool): State
    requires s.at.Unretained?
  {
    var i := s.at.i;
    if !answered || i.challenge !in s.ctl.challenges then s.(at := Idle)
    else
      var c := s.ctl.challenges[i.challenge];
      if c.version < 1 then s.(at := Idle)
      else if c.state == Completed then s.(at := AwaitConnection(i))
      else s.(at := if StillLive(i, c, live) then CompleteReady(i, s.at.request) else Idle)
  }

  function Complete(s: State, delivered: bool): State
    requires s.at.CompleteReady?
  {
    var i := s.at.i;
    s.(submitted := s.submitted + [Submission(SetupComplete, i.completeKey, s.at.request)],
       at := if delivered then AwaitStatus(i) else Idle)
  }

  function AwaitCompletion(s: State, answered: bool): State
    requires s.at.AwaitStatus?
  {
    var i := s.at.i;
    var completed := answered && i.challenge in s.ctl.challenges && s.ctl.challenges[i.challenge].version >= 1
                     && s.ctl.challenges[i.challenge].state == Completed;
    s.(at := if completed then AwaitConnection(i) else Idle)
  }

  function Confirm(s: State, answered: bool): State
    requires s.at.AwaitConnection?
  {
    s.(at := if answered && s.ctl.credential == s.at.i.ref then Removing(s.at.i, Matched(s.ctl.credential)) else Idle)
  }

  // ---- Ending ----

  /** Deletes a credential that never became effective; a deletion may take effect without being confirmed. */
  function DiscardCredential(s: State, answered: bool, deleted: bool, confirmed: bool): State
    requires s.at.Discarding?
  {
    var i := s.at.i;
    if i.ref == "" && !answered then s.(at := Idle)
    else
      var ref := if i.ref != "" then i.ref else if i.name in s.vault then s.vault[i.name] else "";
      if ref == "" || ref == s.at.effective then s.(at := Removing(i, Terminal))
      else
        s.(vault := if deleted then map n | n in s.vault && s.vault[n] != ref :: s.vault[n] else s.vault,
           at := if deleted && confirmed then Removing(i, Terminal) else Idle)
  }

  function RemoveIntent(s: State, w: Write): State
    requires s.at.Removing?
  {
    s.(disk := if w.NotWritten? then s.disk else None, at := Idle)
  }

  /** One event; an event that does not fit where the helper stands changes nothing. */
  function Next(s: State, e: Event): State {
    match e
    case Evolve(ctl) => if Honest(s.ctl, ctl) then s.(ctl := ctl) else s
    case Crash => s.(at := Idle)
    case Start(installation) => if s.at.Idle? then Load(s, installation) else s
    case GetConnection(_, _, _, _, _, _, _) => if s.at.Loaded? then Connect(s, e) else s
    case LookupBegin(retained) => if s.at.Connected? then Reconcile(s, retained) else s
    case SubmitBegin(acknowledged) => if s.at.BeginReady? then Begin(s, acknowledged) else s
    case SaveChallenge(live, w) => if s.at.Begun? then RecordChallenge(s, live, w) else s
    case ReadStatus(answered, live) => if s.at.Challenged? then Status(s, answered, live) else s
    case LookupCredential(answered) => if s.at.Live? then Find(s, answered) else s
    case PutCredential(outcome) => if s.at.PutReady? then Put(s, outcome) else s
    case SaveRef(w) => if s.at.GotRef? then RecordRef(s, w) else s
    case PinComplete(key, w) => if s.at.RefSaved? then Pin(s, key, w) else s
    case LookupComplete(retained) => if s.at.Pinned? then ReconcileComplete(s, retained) else s
    case RecheckStatus(answered, live) => if s.at.Unretained? then Recheck(s, answered, live) else s
    case SubmitComplete(delivered) => if s.at.CompleteReady? then Complete(s, delivered) else s
    case FinalStatus(answered) => if s.at.AwaitStatus? then AwaitCompletion(s, answered) else s
    case FinalConnection(answered) => if s.at.AwaitConnection? then Confirm(s, answered) else s
    case Discard(answered, deleted, confirmed) =>
      if s.at.Discarding? then DiscardCredential(s, answered, deleted, confirmed) else s
    case Remove(w) => if s.at.Removing? then RemoveIntent(s, w) else s
  }

  function Run(s: State, events: seq<Event>): State {
    if events == [] then s else Next(Run(s, events[..|events| - 1]), events[|events| - 1])
  }

  /** A connection that has never been set up by a helper. */
  ghost predicate Initial(s: State) {
    && s.disk == None && s.puts == [] && s.submitted == [] && s.at == Idle
    && s.ctl.credential in s.ctl.effective
  }
}
