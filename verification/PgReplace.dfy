/**
 * PIN replacement on Postgres (src/store/pg/device-auth.ts:110-144, 366-396):
 * a transaction of several statements under READ COMMITTED.
 *
 * Each statement scans its own snapshot of what was committed when it began;
 * a row found there is taken one at a time, waiting for any transaction that
 * holds it and checking it again as it stands then. An INSERT waits for
 * whoever might hold a conflicting row, and aborts its transaction if one is
 * committed. A row written but not committed stays locked, so its new version
 * is a function of the committed one: a transaction is represented by the keys
 * it has written.
 */
module PgReplace {
  import opened Basics
  import opened PinCredential
  import opened Tables

  /** One call of `replaceCredential`. */
  datatype Job = Job(pin: NewPin, resetGuard: bool, revokeOthers: Option<Option<DeviceId>>)

  datatype Stage =
    | Idle
    | Locked
    | ScanningDevices(devicesLeft: set<DeviceId>)
    | ScanningPins(pinsLeft: set<CredentialId>)
    | Inserted
    | GuardCleared
    | Committed(outcome: Replacement)
    | Violated   // 23505: the whole transaction is undone

  datatype Tx = Tx(stage: Stage, devices: set<DeviceId>, pins: set<CredentialId>)

  const Fresh := Tx(Idle, {}, {})

  /** `order`: the transactions that took the advisory lock, in that order; `log`: those that committed. */
  datatype PgState = PgState(committed: Tables, txs: map<nat, Tx>, order: seq<nat>, log: seq<nat>)

  datatype Step =
    | TakeLock(id: nat)
    | ScanDevices(id: nat)
    | TakeDevice(id: nat, device: DeviceId)
    | ScanPins(id: nat)
    | TakePin(id: nat, pin: CredentialId)
    | InsertPin(id: nat)
    | ClearGuard(id: nat)
    | Commit(id: nat)

  /**
   * `lockOf` is `hashtextextended(...)`: two accounts may share a key. `locking` says whether the
   * lock statement is there.
   */
  datatype Setup = Setup(jobs: map<nat, Job>, lockOf: AccountId -> int, locking: bool)

  predicate Running(tx: Tx) { !tx.stage.Idle? && !tx.stage.Committed? && !tx.stage.Violated? }

  predicate HasInserted(tx: Tx) { tx.stage.Inserted? || tx.stage.GuardCleared? }

  ghost predicate WellFormed(u: Setup, s: PgState) {
    s.txs.Keys == u.jobs.Keys
  }

  function Account(u: Setup, id: nat): AccountId requires id in u.jobs { u.jobs[id].pin.accountId }

  function KeyOf(u: Setup, id: nat): int requires id in u.jobs { u.lockOf(u.jobs[id].pin.accountId) }

  /** Some other running transaction has written what `p` asks about. */
  ghost predicate Held(u: Setup, s: PgState, id: nat, p: (Job, Tx) -> bool)
    requires WellFormed(u, s)
  {
    exists j :: j in s.txs && j != id && Running(s.txs[j]) && p(u.jobs[j], s.txs[j])
  }

  /** The live PINs of the account as this transaction sees them: committed, less those it revoked itself. */
  function SeenPins(s: PgState, tx: Tx, account: AccountId): set<CredentialId> {
    LivePins(s.committed.credentials, account) - tx.pins
  }

  /** What the device statement's own snapshot selects. */
  function DevicesToRevoke(t: Tables, job: Job): set<DeviceId> {
    if job.revokeOthers.Some? && LivePins(t.credentials, job.pin.accountId) != {}
    then Revocable(t.devices, job.pin.accountId, job.revokeOthers.value) else {}
  }

  predicate DevicesScanned(job: Job, stage: Stage) {
    if job.revokeOthers.Some? then stage.ScanningDevices? && stage.devicesLeft == {} else stage.Locked?
  }

  predicate ReadyToCommit(job: Job, stage: Stage) {
    if job.resetGuard then stage.GuardCleared? else stage.Inserted?
  }

  ghost predicate Enabled(u: Setup, s: PgState, step: Step) {
    WellFormed(u, s) && step.id in u.jobs &&
    var id, job, tx := step.id, u.jobs[step.id], s.txs[step.id];
    match step
    case TakeLock(_) =>
      tx.stage.Idle? && (u.locking ==> !Held(u, s, id, (j: Job, t: Tx) => u.lockOf(j.pin.accountId) == KeyOf(u, id)))
    case ScanDevices(_) => tx.stage.Locked? && job.revokeOthers.Some?
    case TakeDevice(_, d) =>
      tx.stage.ScanningDevices? && d in tx.stage.devicesLeft && !Held(u, s, id, (j: Job, t: Tx) => d in t.devices)
    case ScanPins(_) => DevicesScanned(job, tx.stage)
    case TakePin(_, c) =>
      tx.stage.ScanningPins? && c in tx.stage.pinsLeft && !Held(u, s, id, (j: Job, t: Tx) => c in t.pins)
    case InsertPin(_) =>
      tx.stage.ScanningPins? && tx.stage.pinsLeft == {}
      && !Held(u, s, id, (j: Job, t: Tx) =>
           HasInserted(t) && (j.pin.accountId == job.pin.accountId || j.pin.credentialId == job.pin.credentialId))
      && !Held(u, s, id, (j: Job, t: Tx) => t.pins * SeenPins(s, tx, job.pin.accountId) != {})
    case ClearGuard(_) =>
      tx.stage.Inserted? && job.resetGuard
      && !Held(u, s, id, (j: Job, t: Tx) => t.stage.GuardCleared? && j.pin.accountId == job.pin.accountId)
    case Commit(_) => ReadyToCommit(job, tx.stage)
  }

  /** A row taken after a wait is checked again as it is now. */
  function TakeDeviceRow(t: Tables, tx: Tx, job: Job, d: DeviceId): Tx
    requires tx.stage.ScanningDevices?
  {
    var left := tx.stage.devicesLeft - {d};
    var except := if job.revokeOthers.Some? then job.revokeOthers.value else None;
    if d in Revocable(t.devices, job.pin.accountId, except)
    then Tx(ScanningDevices(left), tx.devices + {d}, tx.pins) else Tx(ScanningDevices(left), tx.devices, tx.pins)
  }

  function TakePinRow(t: Tables, tx: Tx, job: Job, c: CredentialId): Tx
    requires tx.stage.ScanningPins?
  {
    var left := tx.stage.pinsLeft - {c};
    if c in LivePins(t.credentials, job.pin.accountId)
    then Tx(ScanningPins(left), tx.devices, tx.pins + {c}) else Tx(ScanningPins(left), tx.devices, tx.pins)
  }

  /** A second live PIN, or a used credential id. */
  predicate Conflicts(s: PgState, tx: Tx, job: Job) {
    SeenPins(s, tx, job.pin.accountId) != {} || job.pin.credentialId in s.committed.credentials
  }

  function RevokeThesePins(credentials: map<CredentialId, CredentialRow>, which: set<CredentialId>, now: Time)
    : map<CredentialId, CredentialRow>
  {
    map c | c in credentials ::
      if c in which then credentials[c].(revokedAt := Some(now), updatedAt := now) else credentials[c]
  }

  /** What committing makes visible, all at once. */
  function CommitTables(t: Tables, job: Job, tx: Tx): Tables {
    var r := job.pin;
    t.(devices := RevokeDevices(t.devices, tx.devices, r.updatedAt),
       credentials := RevokeThesePins(t.credentials, tx.pins, r.updatedAt)[r.credentialId := NewPinRow(r)],
       guards := if tx.stage.GuardCleared? then ClearedGuards(t.guards, r.accountId, r.updatedAt) else t.guards)
  }

  ghost function StepTx(u: Setup, s: PgState, step: Step): Tx
    requires Enabled(u, s, step)
  {
    var job, tx := u.jobs[step.id], s.txs[step.id];
    match step
    case TakeLock(_) => tx.(stage := Locked)
    case ScanDevices(_) => tx.(stage := ScanningDevices(DevicesToRevoke(s.committed, job)))
    case TakeDevice(_, d) => TakeDeviceRow(s.committed, tx, job, d)
    case ScanPins(_) => tx.(stage := ScanningPins(LivePins(s.committed.credentials, job.pin.accountId)))
    case TakePin(_, c) => TakePinRow(s.committed, tx, job, c)
    case InsertPin(_) => if Conflicts(s, tx, job) then tx.(stage := Violated) else tx.(stage := Inserted)
    case ClearGuard(_) => tx.(stage := GuardCleared)
    case Commit(_) =>
      tx.(stage := Committed(Replacement(tx.pins != {}, if job.revokeOthers.Some? then |tx.devices| else 0)))
  }

  ghost function Next(u: Setup, s: PgState, step: Step): PgState
    requires Enabled(u, s, step)
  {
    var id := step.id;
    PgState(if step.Commit? then CommitTables(s.committed, u.jobs[id], s.txs[id]) else s.committed,
            s.txs[id := StepTx(u, s, step)],
            if step.TakeLock? then s.order + [id] else s.order,
            if step.Commit? then s.log + [id] else s.log)
  }

  ghost predicate IsRun(u: Setup, s: PgState, steps: seq<Step>)
    decreases |steps|
  {
    steps == [] || (Enabled(u, s, steps[0]) && IsRun(u, Next(u, s, steps[0]), steps[1..]))
  }

  ghost function After(u: Setup, s: PgState, steps: seq<Step>): PgState
    requires IsRun(u, s, steps)
    decreases |steps|
  {
    if steps == [] then s else After(u, Next(u, s, steps[0]), steps[1..])
  }

  function Begin(u: Setup, t: Tables): PgState {
    PgState(t, map id | id in u.jobs :: Fresh, [], [])
  }
}
