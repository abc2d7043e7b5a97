/**
 * The evidence owner's durable command records: acquire or join an identity, finish it, replace a pending disposition
 * once.
 */
module Evidence {
  import opened Wrappers

  type ID = string

  datatype Code =
    | InvalidInput | PermissionDenied | StaleVersion | Conflict | PrerequisiteMissing | ExternalActionRequired
    | CapabilityUnsupported | VerificationFailed | ArtifactFault
    | NotFound | SubmissionConflict | ReviewRequired | BudgetUnavailable | ControllerUnavailable | InternalError

  datatype Fault = Fault(code: Code, message: string, details: string)

  function Internal(message: string): Fault {
    Fault(InternalError, message, "")
  }

  type Outcome<+T> = Fallible<T, Fault>

  datatype Status = Completed | Accepted | Failed

  datatype Payload = Payload(status: Status, data: string, error: Option<Fault>, cursor: Option<string>)

  /** A result envelope; the retained one replays verbatim. */
  datatype Envelope = Envelope(command: ID, payload: Payload)

  /** Command identity within the installation. */
  datatype Identity = Identity(principal: ID, operation: string, version: int, key: string)

  /**
   * One command row. The disposition count is zero inside the transaction that created it, then one, then at most two.
   * The first result is history: the table overwrites it, and no operation reads it.
   */
  datatype Row = Row(id: ID, identity: Identity, digest: string, status: Status, result: Envelope, dispositions: nat,
                     first: Envelope)
  {
    predicate Replaceable() {
      dispositions == 1 && status == Accepted
    }
  }

  const NO_RESULT := Envelope("", Payload(Completed, "", None, None))

  function FindIdentity(rows: seq<Row>, identity: Identity): (r: Option<nat>)
    ensures r.Some? ==> r.value < |rows| && rows[r.value].identity == identity
    ensures r.None? ==> forall i | 0 <= i < |rows| :: rows[i].identity != identity
  {
    if |rows| == 0 then None
    else if rows[|rows| - 1].identity == identity then Some(|rows| - 1)
    else FindIdentity(rows[..|rows| - 1], identity)
  }

  function FindId(rows: seq<Row>, id: ID): (r: Option<nat>)
    ensures r.Some? ==> r.value < |rows| && rows[r.value].id == id
    ensures r.None? ==> forall i | 0 <= i < |rows| :: rows[i].id != id
  {
    if |rows| == 0 then None
    else if rows[|rows| - 1].id == id then Some(|rows| - 1)
    else FindId(rows[..|rows| - 1], id)
  }

  /** A begin either joins an existing command or inserts a fresh unfinished row under a newly minted id. */
  datatype Begun = Existing(index: nat) | Fresh(rows: seq<Row>)

  function Begin(rows: seq<Row>, identity: Identity, digest: string, newId: ID): (r: Outcome<Begun>)
    ensures r.Ok? && r.value.Existing? ==>
      r.value.index < |rows| && rows[r.value.index].identity == identity && rows[r.value.index].digest == digest
  {
    var found := FindIdentity(rows, identity);
    if found.Some? then
      var row := rows[found.value];
      if row.dispositions == 0 then Err(Internal("identity is already reserved by an in-flight attempt"))
      else if row.digest != digest
              then Err(Fault(SubmissionConflict, "submission key is bound to a different input", ""))
      else Ok(Existing(found.value))
    else if newId == "" || FindId(rows, newId).Some? then Err(Internal("command begin returned no command identity"))
    else Ok(Fresh(rows + [Row(newId, identity, digest, Completed, NO_RESULT, 0, NO_RESULT)]))
  }

  /** The agreement a finished envelope must show between its status and its error. */
  predicate Coherent(p: Payload) {
    p.error.Some? <==> p.status == Failed
  }

  function Finish(rows: seq<Row>, id: ID, result: Envelope): Outcome<seq<Row>> {
    if result.command != id then Err(Fault(InvalidInput, "result command id does not match", ""))
    else if !Coherent(result.payload)
            then Err(Fault(InvalidInput, "result status disagrees with its error presence", ""))
    else
      var found := FindId(rows, id);
      if found.None? then Err(Fault(NotFound, "command not found", ""))
      else
        var row := rows[found.value];
        if row.dispositions > 0 && !row.Replaceable() then Err(Internal("command is already finished"))
        else Ok(rows[found.value := row.(status := result.payload.status, result := result,
                                         dispositions := if row.dispositions > 0 then 2 else 1,
                                         first := if row.dispositions > 0 then row.first else result)])
  }

  /** The envelope a retained command replays, or the defect of a record that disagrees with itself. */
  function Replay(row: Row): Outcome<Envelope> {
    if row.result.command != row.id then Err(Internal("retained command carries another command's result"))
    else if row.result.payload.status != row.status then Err(Internal("retained status disagrees with its result"))
    else if row.result.payload.error.None? == (row.status == Failed)
            then Err(Internal("retained envelope disagrees with its status"))
    else Ok(row.result)
  }
}
