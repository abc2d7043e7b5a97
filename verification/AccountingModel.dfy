/** The accounting owner's values: wire documents and stored rows. Canonical JSON columns are the values they encode. */
module AccountingModel {
  import opened Wrappers
  import opened Int64

  type ID = string

  /** The currency sentinel of an installation that has not selected one. */
  const UNCONFIGURED := "XXX"

  datatype Scope = Scope(install: ID, organization: ID, project: ID, worker: ID, task: ID) {
    predicate Dimensions() {
      organization != "" || project != "" || worker != "" || task != ""
    }
  }

  datatype Money = Money(currency: string, micro: int64)

  /** Instants are integers; zero is the unset instant. */
  datatype WireLimits = WireLimits(
    currency: string, spend: int64, concurrency: int64, modelSteps: int64, childCount: int64,
    delegationDepth: int64, attemptSeconds: int64, rootDeadline: int)

  datatype Usage = Usage(
    currency: string, spent: int64, reserved: int64, estimated: int64, unknown: int64, advisory: bool)
  {
    /** The bounds the settle input schema puts on a usage report. */
    predicate Schema() {
      0 <= spent && 0 <= reserved && 0 <= estimated && 0 <= unknown
    }

    predicate Nonzero() {
      spent != 0 || estimated != 0 || unknown != 0
    }
  }

  datatype PositionKind = KInstallation | KOrganization | KProject | KWorker | KRootTask

  /** One charged dimension of a reservation. */
  datatype LevelRef = LevelRef(kind: PositionKind, ref: ID)

  datatype State = Reserved | Settled | Unknown | Released {
    predicate Terminal() {
      Settled? || Released?
    }
  }

  /** The replay fingerprint of a reservation request. */
  datatype Request = Request(scope: Scope, rootTask: Option<ID>, amount: Money, limits: WireLimits)

  datatype Reservation = Reservation(
    id: ID, version: int, install: ID, organization: ID, project: ID, worker: ID, rootTask: ID,
    operation: ID, currency: string, amount: int64, limits: WireLimits, request: Request,
    charged: seq<LevelRef>, state: State, report: Option<Usage>)

  datatype EntryKind = EReserved | ESpent | EEstimated | EUnknown | EReleased

  datatype Entry = Entry(
    reservation: ID, install: ID, kind: EntryKind, currency: string, amount: int64, advisory: bool)

  datatype ReserveInput = ReserveInput(
    scope: Scope, rootTask: Option<ID>, operation: ID, amount: Money, limits: WireLimits)
  {
    function Fingerprint(): Request {
      Request(scope, rootTask, amount, limits)
    }
  }

  datatype SettleInput = SettleInput(reservation: ID, expectedVersion: int64, usage: Usage, nonexecution: bool)

  /** The five counters a position row aggregates; also a vector of changes to them. */
  datatype Counters = Counters(spent: int, reserved: int, unknown: int, estimated: int, concurrency: int) {
    function Plus(o: Counters): Counters {
      Counters(spent + o.spent, reserved + o.reserved, unknown + o.unknown,
               estimated + o.estimated, concurrency + o.concurrency)
    }

    predicate Fits() {
      && 0 <= spent <= MAX && 0 <= reserved <= MAX && 0 <= unknown <= MAX
      && 0 <= estimated <= MAX && 0 <= concurrency <= MAX
    }

    /** Every component is an int64, so the vector can be passed as five Go arguments. */
    predicate Words() {
      && MIN <= spent <= MAX && MIN <= reserved <= MAX && MIN <= unknown <= MAX
      && MIN <= estimated <= MAX && MIN <= concurrency <= MAX
    }

    predicate NonNegative() {
      0 <= spent && 0 <= reserved && 0 <= unknown && 0 <= estimated && 0 <= concurrency
    }

    predicate ZeroAmounts() {
      spent == 0 && reserved == 0 && unknown == 0 && estimated == 0
    }

    /** Enforceable exposure: what a spend cap bounds. */
    function Exposure(): int {
      spent + reserved + unknown
    }
  }

  const ZERO := Counters(0, 0, 0, 0, 0)

  datatype Position = Position(install: ID, currency: string, counters: Counters, version: int)

  type Positions = map<LevelRef, Position>

  datatype Budget = Budget(version: int, install: ID, limits: WireLimits, active: bool)

  type Budgets = map<ID, Budget>

  datatype SnapOrg = SnapOrg(id: ID, limits: Option<WireLimits>)

  /** A project or worker of the configuration snapshot, with the organization it belongs to. */
  datatype SnapMember = SnapMember(id: ID, organization: ID, limits: Option<WireLimits>)

  datatype Snapshot = Snapshot(ancestors: seq<SnapOrg>, project: Option<SnapMember>, worker: Option<SnapMember>)

  const EMPTY_SNAPSHOT := Snapshot([], None, None)
}
