/** Every run of PIN replacements on Postgres: it ends, in lock order, with nothing refused. */
module PgOrder {
  import opened Basics
  import opened PinCredential
  import opened Tables
  import opened PgReplace
  import opened PgSerial

  // ----- lock order -----

  /** The transactions of one advisory-lock key, in the order of `ids`. */
  function ByKey(u: Setup, ids: seq<nat>, key: int): seq<nat> {
    if ids == [] then []
    else
      var last := ids[|ids| - 1];
      ByKey(u, ids[..|ids| - 1], key) + (if last in u.jobs && KeyOf(u, last) == key then [last] else [])
  }

  lemma ByKeyAppend(u: Setup, ids: seq<nat>, id: nat, key: int)
    ensures ByKey(u, ids + [id], key) == ByKey(u, ids, key) + (if id in u.jobs && KeyOf(u, id) == key then [id] else [])
  {
    assert (ids + [id])[..|ids|] == ids;
  }

  predicate HoldsKey(u: Setup, s: PgState, i: nat, key: int) {
    i in s.txs && i in u.jobs && Running(s.txs[i]) && KeyOf(u, i) == key
  }

  /** The holder of a key is the last to have taken it; all before it have committed. */
  ghost predicate HolderLast(u: Setup, s: PgState) {
    forall i, key :: HoldsKey(u, s, i, key) ==> ByKey(u, s.order, key) == ByKey(u, s.log, key) + [i]
  }

  ghost predicate FreeSettled(u: Setup, s: PgState) {
    forall key :: ByKey(u, s.order, key) == ByKey(u, s.log, key) || (exists i :: HoldsKey(u, s, i, key))
  }

  /** Per key, what took the lock is what committed, then whoever holds it now. */
  ghost predicate InLockOrder(u: Setup, s: PgState) { HolderLast(u, s) && FreeSettled(u, s) }

  lemma OrderStep(u: Setup, t: Tables, s: PgState, step: Step)
    requires PgInv(u, t, s) && InLockOrder(u, s) && Enabled(u, s, step)
    ensures InLockOrder(u, Next(u, s, step))
  {
    match step
    case TakeLock(id) =>
      KeyIsFree(u, s, id);
      LockOrderStep(u, s, id);
    case Commit(id) =>
      OneHolder(u, t, s, id);
      CommitOrderStep(u, s, id);
    case _ =>
      OwnTxStep(u, t, s, step);
      RunsOn(u, s, step);
      SameHolders(u, s, Next(u, s, step), step.id);
  }

  /** The same transactions run, and nothing was locked or committed. */
  lemma SameHolders(u: Setup, s: PgState, s': PgState, id: nat)
    requires InLockOrder(u, s) && s'.order == s.order && s'.log == s.log && id in s.txs && id in s'.txs
    requires s'.txs == s.txs[id := s'.txs[id]] && Running(s.txs[id]) && Running(s'.txs[id])
    ensures InLockOrder(u, s')
  {
    forall i, key ensures HoldsKey(u, s', i, key) <==> HoldsKey(u, s, i, key) {}
  }

  lemma RunsOn(u: Setup, s: PgState, step: Step)
    requires Enabled(u, s, step) && !step.TakeLock? && !step.Commit?
    ensures Running(s.txs[step.id]) && (!StepTx(u, s, step).stage.Violated? ==> Running(StepTx(u, s, step)))
  {}

  lemma KeyIsFree(u: Setup, s: PgState, id: nat)
    requires u.locking && Enabled(u, s, TakeLock(id))
    ensures forall i :: !HoldsKey(u, s, i, KeyOf(u, id))
  {
    var p := (job: Job, tx: Tx) => u.lockOf(job.pin.accountId) == KeyOf(u, id);
    forall i ensures !HoldsKey(u, s, i, KeyOf(u, id)) {
      assert i in s.txs && i != id && Running(s.txs[i]) ==> !p(u.jobs[i], s.txs[i]);
    }
  }

  lemma OneHolder(u: Setup, t: Tables, s: PgState, id: nat)
    requires PgInv(u, t, s) && Enabled(u, s, Commit(id))
    ensures HoldsKey(u, s, id, KeyOf(u, id)) && forall i :: HoldsKey(u, s, i, KeyOf(u, id)) ==> i == id
  {}

  lemma LockOrderStep(u: Setup, s: PgState, id: nat)
    requires InLockOrder(u, s) && Enabled(u, s, TakeLock(id)) && forall i :: !HoldsKey(u, s, i, KeyOf(u, id))
    ensures InLockOrder(u, Next(u, s, TakeLock(id)))
  {
    var s', mine := Next(u, s, TakeLock(id)), KeyOf(u, id);
    forall key ensures ByKey(u, s'.order, key) == ByKey(u, s.order, key) + (if mine == key then [id] else []) {
      ByKeyAppend(u, s.order, id, key);
    }
    forall i, key ensures HoldsKey(u, s', i, key) <==> HoldsKey(u, s, i, key) || (i == id && key == mine) {}
    forall key ensures ByKey(u, s'.order, key) == ByKey(u, s'.log, key) || (exists i :: HoldsKey(u, s', i, key)) {
      assert key == mine ==> HoldsKey(u, s', id, key);
    }
  }

  lemma CommitOrderStep(u: Setup, s: PgState, id: nat)
    requires InLockOrder(u, s) && Enabled(u, s, Commit(id)) && HoldsKey(u, s, id, KeyOf(u, id))
    requires forall i :: HoldsKey(u, s, i, KeyOf(u, id)) ==> i == id
    ensures InLockOrder(u, Next(u, s, Commit(id)))
  {
    var s', mine := Next(u, s, Commit(id)), KeyOf(u, id);
    forall key ensures ByKey(u, s'.log, key) == ByKey(u, s.log, key) + (if mine == key then [id] else []) {
      ByKeyAppend(u, s.log, id, key);
    }
    forall i, key ensures HoldsKey(u, s', i, key) <==> HoldsKey(u, s, i, key) && i != id {}
    forall key ensures ByKey(u, s'.order, key) == ByKey(u, s'.log, key) || (exists i :: HoldsKey(u, s', i, key)) {
      if key != mine && ByKey(u, s.order, key) != ByKey(u, s.log, key) {
        var i :| HoldsKey(u, s, i, key);
        assert HoldsKey(u, s', i, key);
      }
    }
  }

  lemma {:induction false} OrderRun(u: Setup, t: Tables, s: PgState, steps: seq<Step>)
    requires PgInv(u, t, s) && InLockOrder(u, s) && IsRun(u, s, steps)
    ensures PgInv(u, t, After(u, s, steps)) && InLockOrder(u, After(u, s, steps))
    decreases |steps|
  {
    if steps != [] {
      PgStep(u, t, s, steps[0]);
      OrderStep(u, t, s, steps[0]);
      OrderRun(u, t, Next(u, s, steps[0]), steps[1..]);
    }
  }

  // ----- progress -----

  /** Nobody else holds anything of a running transaction's account. */
  lemma OthersElsewhere(u: Setup, t: Tables, s: PgState, i: nat, j: nat)
    requires PgInv(u, t, s) && i in s.txs && j in s.txs && i != j && Running(s.txs[i]) && Running(s.txs[j])
    ensures Account(u, i) != Account(u, j)
    ensures s.txs[j].devices !! DevicesToRevoke(s.committed, u.jobs[i])
    ensures s.txs[j].pins !! LivePins(s.committed.credentials, Account(u, i))
  {
    assert KeyOf(u, i) != KeyOf(u, j);
    assert TxInv(s.committed, u.jobs[j], s.txs[j]);
  }

  /** The statement a running transaction sends next. */
  function NextOf(job: Job, tx: Tx, id: nat, d: DeviceId, c: CredentialId): Step {
    match tx.stage
    case Locked => if job.revokeOthers.Some? then ScanDevices(id) else ScanPins(id)
    case ScanningDevices(left) => if left == {} then ScanPins(id) else TakeDevice(id, d)
    case ScanningPins(left) => if left == {} then InsertPin(id) else TakePin(id, c)
    case Inserted => if job.resetGuard then ClearGuard(id) else Commit(id)
    case _ => Commit(id)
  }

  /** Whoever holds the lock never waits again: any row it has left to take is free. */
  lemma HolderNeverWaits(u: Setup, t: Tables, s: PgState, id: nat, d: DeviceId, c: CredentialId)
    requires PgInv(u, t, s) && id in s.txs && Running(s.txs[id])
    requires s.txs[id].stage.ScanningDevices? && s.txs[id].stage.devicesLeft != {} ==> d in s.txs[id].stage.devicesLeft
    requires s.txs[id].stage.ScanningPins? && s.txs[id].stage.pinsLeft != {} ==> c in s.txs[id].stage.pinsLeft
    ensures Enabled(u, s, NextOf(u.jobs[id], s.txs[id], id, d, c))
  {
    var job, tx := u.jobs[id], s.txs[id];
    assert TxInv(s.committed, job, tx);
    forall j | j in s.txs && j != id && Running(s.txs[j])
      ensures Account(u, j) != Account(u, id) && u.jobs[j].pin.credentialId != job.pin.credentialId
      ensures s.txs[j].devices !! DevicesToRevoke(s.committed, job)
      ensures s.txs[j].pins !! LivePins(s.committed.credentials, Account(u, id))
    {
      OthersElsewhere(u, t, s, id, j);
    }
    if tx.stage.ScanningPins? { assert SeenPins(s, tx, job.pin.accountId) <= LivePins(s.committed.credentials, job.pin.accountId); }
  }

  /** No deadlock: while a replacement is not committed, some statement can go ahead. */
  lemma NeverStuck(u: Setup, t: Tables, s: PgState, id: nat)
    requires PgInv(u, t, s) && id in s.txs && !s.txs[id].stage.Committed?
    ensures exists step :: Enabled(u, s, step)
  {
    assert TxInv(s.committed, u.jobs[id], s.txs[id]);
    if i :| i in s.txs && Running(s.txs[i]) {
      var tx := s.txs[i];
      var d := if tx.stage.ScanningDevices? && tx.stage.devicesLeft != {} then Pick(tx.stage.devicesLeft) else "";
      var c := if tx.stage.ScanningPins? && tx.stage.pinsLeft != {} then Pick(tx.stage.pinsLeft) else "";
      HolderNeverWaits(u, t, s, i, d, c);
    } else {
      assert Enabled(u, s, TakeLock(id));
    }
  }

  ghost function Pick<T>(s: set<T>): T requires s != {} { var x :| x in s; x }

  function Place(stage: Stage): nat {
    match stage
    case Idle => 0 case Locked => 1 case ScanningDevices(_) => 2 case ScanningPins(_) => 3
    case Inserted => 4 case GuardCleared => 5 case Committed(_) => 6 case Violated => 6
  }

  function RowsLeft(stage: Stage): nat {
    match stage case ScanningDevices(left) => |left| case ScanningPins(left) => |left| case _ => 0
  }

  /** Every statement takes its transaction further, and no other back: runs are finite. */
  lemma StepsAdvance(u: Setup, s: PgState, step: Step)
    requires Enabled(u, s, step)
    ensures var tx, s' := s.txs[step.id], Next(u, s, step);
      && (Place(s'.txs[step.id].stage) > Place(tx.stage)
          || (Place(s'.txs[step.id].stage) == Place(tx.stage) && RowsLeft(s'.txs[step.id].stage) < RowsLeft(tx.stage)))
      && (forall j :: j in s.txs && j != step.id ==> s'.txs[j] == s.txs[j])
  {
    hide LivePins, Revocable, Conflicts, CommitTables, SeenPins, Held, TakeDeviceRow, TakePinRow;
    var job, tx := u.jobs[step.id], s.txs[step.id];
    match step
    case TakeDevice(_, d) => DeviceTaken(s.committed, tx, job, d);
    case TakePin(_, c) => PinTaken(s.committed, tx, job, c);
    case _ =>
  }

  lemma DeviceTaken(t: Tables, tx: Tx, job: Job, d: DeviceId)
    requires tx.stage.ScanningDevices? && d in tx.stage.devicesLeft
    ensures var stage := TakeDeviceRow(t, tx, job, d).stage; Place(stage) == Place(tx.stage) && RowsLeft(stage) < RowsLeft(tx.stage)
  {
    hide Revocable;
    OneFewer(tx.stage.devicesLeft, d);
  }

  lemma PinTaken(t: Tables, tx: Tx, job: Job, c: CredentialId)
    requires tx.stage.ScanningPins? && c in tx.stage.pinsLeft
    ensures var stage := TakePinRow(t, tx, job, c).stage; Place(stage) == Place(tx.stage) && RowsLeft(stage) < RowsLeft(tx.stage)
  {
    hide LivePins;
    OneFewer(tx.stage.pinsLeft, c);
  }

  lemma OneFewer<T>(s: set<T>, x: T)
    requires x in s
    ensures |s - {x}| == |s| - 1
  {
    assert s == (s - {x}) + {x};
  }

  ghost predicate Maximal(u: Setup, s: PgState) { forall step :: !Enabled(u, s, step) }

  lemma PgBegins(u: Setup, t: Tables)
    requires u.locking && OwnIds(u.jobs, t) && OneLivePin(t.credentials)
    ensures PgInv(u, t, Begin(u, t)) && InLockOrder(u, Begin(u, t))
  {}

  /**
   * For any number of replacements, on any accounts, under any interleaving of
   * their statements: every committed state is D1's batches run one after
   * another in the order of `log`, with at most one live PIN per account and
   * the answers D1 would give; per lock key that order is the order in which
   * the lock was taken; no insert is refused; and when nothing more can move,
   * everything has committed.
   */
  lemma PgReplacesInLockOrder(u: Setup, t: Tables, steps: seq<Step>)
    requires u.locking && OwnIds(u.jobs, t) && OneLivePin(t.credentials) && IsRun(u, Begin(u, t), steps)
    ensures var s := After(u, Begin(u, t), steps);
      && WellFormed(u, s)
      && s.committed == Serial(u.jobs, t, s.log) && OneLivePin(s.committed.credentials) && Answered(u, t, s)
      && (forall i :: i in s.txs ==> !s.txs[i].stage.Violated?)
      && (forall key :: ByKey(u, s.log, key) <= ByKey(u, s.order, key))
      && (Maximal(u, s) ==> forall i :: i in s.txs ==> s.txs[i].stage.Committed?)
  {
    PgBegins(u, t);
    OrderRun(u, t, Begin(u, t), steps);
    var s := After(u, Begin(u, t), steps);
    NothingRefused(u, t, s);
    forall key ensures ByKey(u, s.log, key) <= ByKey(u, s.order, key) {
      if i :| HoldsKey(u, s, i, key) {}
    }
    if Maximal(u, s) {
      forall i | i in s.txs ensures s.txs[i].stage.Committed? {
        if !s.txs[i].stage.Committed? { NeverStuck(u, t, s, i); }
      }
    }
  }

  lemma NothingRefused(u: Setup, t: Tables, s: PgState)
    requires PgInv(u, t, s)
    ensures forall i :: i in s.txs ==> !s.txs[i].stage.Violated?
  {
    forall i | i in s.txs ensures !s.txs[i].stage.Violated? {
      assert TxInv(s.committed, u.jobs[i], s.txs[i]);
    }
  }
}
