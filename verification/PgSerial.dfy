/** With the advisory lock, Postgres replaces PINs as D1's batch would, one after another in lock order. */
module PgSerial {
  import opened Basics
  import opened PinCredential
  import opened Tables
  import opened PgReplace

  /** D1: one batch after another. */
  ghost function Serial(jobs: map<nat, Job>, t: Tables, ids: seq<nat>): Tables
    decreases |ids|
  {
    if ids == [] || ids[|ids| - 1] !in jobs then t
    else
      var job := jobs[ids[|ids| - 1]];
      ReplacePin(Serial(jobs, t, ids[..|ids| - 1]), job.pin, job.resetGuard, job.revokeOthers)
  }

  /** How far a running transaction is with its batch, against what is committed now. */
  ghost predicate TxInv(t: Tables, job: Job, tx: Tx) {
    var which, live := DevicesToRevoke(t, job), LivePins(t.credentials, job.pin.accountId);
    match tx.stage
    case Idle => tx == Fresh
    case Locked => tx.devices == {} && tx.pins == {}
    case ScanningDevices(left) =>
      tx.devices + left == which && tx.devices !! left && tx.pins == {} && job.revokeOthers.Some?
    case ScanningPins(left) => tx.devices == which && tx.pins + left == live && tx.pins !! left
    case Inserted => tx.devices == which && tx.pins == live
    case GuardCleared => tx.devices == which && tx.pins == live && job.resetGuard
    case Committed(_) => true
    case Violated => false
  }

  /** Transactions that hold the lock at the same time have different keys. */
  ghost predicate Exclusive(u: Setup, s: PgState)
    requires WellFormed(u, s)
  {
    forall i, j :: i in s.txs && j in s.txs && i != j && Running(s.txs[i]) && Running(s.txs[j]) ==> KeyOf(u, i) != KeyOf(u, j)
  }

  /** Credential ids are drawn at random: never twice, never one already stored. */
  ghost predicate OwnIds(jobs: map<nat, Job>, t: Tables) {
    && (forall i, j :: i in jobs && j in jobs && i != j ==> jobs[i].pin.credentialId != jobs[j].pin.credentialId)
    && (forall i :: i in jobs ==> jobs[i].pin.credentialId !in t.credentials)
  }

  ghost predicate NotYetStored(u: Setup, s: PgState)
    requires WellFormed(u, s)
  {
    forall i :: i in s.txs && !s.txs[i].stage.Committed? ==> u.jobs[i].pin.credentialId !in s.committed.credentials
  }

  /** Each committed transaction answered what D1's batch answers at its place in the order. */
  ghost predicate Answered(u: Setup, t: Tables, s: PgState) {
    && (forall k :: 0 <= k < |s.log| ==>
          s.log[k] in u.jobs && s.log[k] in s.txs && s.txs[s.log[k]].stage == Committed(SerialAnswer(u.jobs, t, s.log, k)))
    && (forall i :: i in s.txs && s.txs[i].stage.Committed? ==> i in s.log)
  }

  ghost function SerialAnswer(jobs: map<nat, Job>, t: Tables, ids: seq<nat>, k: nat): Replacement
    requires k < |ids| && ids[k] in jobs
  {
    ReplacePinResult(Serial(jobs, t, ids[..k]), jobs[ids[k]].pin, jobs[ids[k]].revokeOthers)
  }

  ghost predicate PgInv(u: Setup, t: Tables, s: PgState) {
    && u.locking && WellFormed(u, s) && OwnIds(u.jobs, t)
    && (forall i :: i in s.txs ==> TxInv(s.committed, u.jobs[i], s.txs[i]))
    && Exclusive(u, s) && NotYetStored(u, s)
    && s.committed == Serial(u.jobs, t, s.log) && Answered(u, t, s)
    && OneLivePin(s.committed.credentials)
  }

  // ----- one transaction -----

  /** A finished transaction writes exactly what the batch writes, and reports what the batch reports. */
  lemma CommitIsBatch(t: Tables, job: Job, tx: Tx)
    requires TxInv(t, job, tx) && ReadyToCommit(job, tx.stage)
    ensures CommitTables(t, job, tx) == ReplacePin(t, job.pin, job.resetGuard, job.revokeOthers)
    ensures Replacement(tx.pins != {}, if job.revokeOthers.Some? then |tx.devices| else 0)
            == ReplacePinResult(t, job.pin, job.revokeOthers)
  {
    var a, now := job.pin.accountId, job.pin.updatedAt;
    assert RevokeThesePins(t.credentials, tx.pins, now) == RevokePins(t.credentials, a, now);
    if DevicesToRevoke(t, job) == {} { assert RevokeDevices(t.devices, {}, now) == t.devices; }
  }

  /** What is committed for an account, as far as its replacement looks. */
  ghost predicate SameForAccount(t: Tables, t': Tables, a: AccountId) {
    && LivePins(t'.credentials, a) == LivePins(t.credentials, a)
    && (forall except :: Revocable(t'.devices, a, except) == Revocable(t.devices, a, except))
  }

  lemma BatchLeavesOthers(t: Tables, job: Job, a: AccountId)
    requires job.pin.accountId != a && job.pin.credentialId !in t.credentials
    ensures SameForAccount(t, ReplacePin(t, job.pin, job.resetGuard, job.revokeOthers), a)
  {
    var t' := ReplacePin(t, job.pin, job.resetGuard, job.revokeOthers);
    forall except ensures Revocable(t'.devices, a, except) == Revocable(t.devices, a, except) {}
  }

  lemma BatchKeepsOneLive(t: Tables, job: Job)
    requires OneLivePin(t.credentials) && job.pin.credentialId !in t.credentials
    ensures OneLivePin(ReplacePin(t, job.pin, job.resetGuard, job.revokeOthers).credentials)
    ensures LivePins(ReplacePin(t, job.pin, job.resetGuard, job.revokeOthers).credentials, job.pin.accountId)
            == {job.pin.credentialId}
  {
    var t' := ReplacePin(t, job.pin, job.resetGuard, job.revokeOthers);
    var a0 := job.pin.accountId;
    assert LivePins(t'.credentials, a0) == {job.pin.credentialId};
    forall a | a != a0 ensures LivePins(t'.credentials, a) == LivePins(t.credentials, a) {}
  }

  lemma SameKeepsTx(t: Tables, t': Tables, job: Job, tx: Tx)
    requires TxInv(t, job, tx) && SameForAccount(t, t', job.pin.accountId)
    ensures TxInv(t', job, tx)
  {}

  // ----- steps -----

  lemma OwnTxStep(u: Setup, t: Tables, s: PgState, step: Step)
    requires PgInv(u, t, s) && Enabled(u, s, step) && !step.Commit?
    ensures TxInv(s.committed, u.jobs[step.id], StepTx(u, s, step))
  {
    var job, tx := u.jobs[step.id], s.txs[step.id];
    assert TxInv(s.committed, job, tx) && (Running(tx) ==> job.pin.credentialId !in s.committed.credentials);
    match step
    case TakeDevice(_, d) => TakesDevice(s.committed, job, tx, d);
    case TakePin(_, c) => TakesPin(s.committed, job, tx, c);
    case InsertPin(_) => assert SeenPins(s, tx, job.pin.accountId) == {};
    case _ =>
  }

  lemma TakesDevice(t: Tables, job: Job, tx: Tx, d: DeviceId)
    requires TxInv(t, job, tx) && tx.stage.ScanningDevices? && d in tx.stage.devicesLeft
    ensures TxInv(t, job, TakeDeviceRow(t, tx, job, d))
  {}

  lemma TakesPin(t: Tables, job: Job, tx: Tx, c: CredentialId)
    requires TxInv(t, job, tx) && tx.stage.ScanningPins? && c in tx.stage.pinsLeft
    ensures TxInv(t, job, TakePinRow(t, tx, job, c))
  {}

  lemma StillExclusive(u: Setup, t: Tables, s: PgState, step: Step)
    requires PgInv(u, t, s) && Enabled(u, s, step)
    ensures Exclusive(u, Next(u, s, step))
  {
    var s' := Next(u, s, step);
    forall j | j in s'.txs && j != step.id && Running(s'.txs[j]) && Running(s'.txs[step.id])
      ensures KeyOf(u, step.id) != KeyOf(u, j)
    {
      if step.TakeLock? {
        var p := (job: Job, tx: Tx) => u.lockOf(job.pin.accountId) == KeyOf(u, step.id);
        assert !p(u.jobs[j], s.txs[j]);
      }
    }
  }

  ghost predicate AllTxInv(u: Setup, s: PgState)
    requires WellFormed(u, s)
  {
    forall i :: i in s.txs ==> TxInv(s.committed, u.jobs[i], s.txs[i])
  }

  lemma OthersKeepTheirPlace(u: Setup, t: Tables, s: PgState, id: nat, i: nat)
    requires PgInv(u, t, s) && Enabled(u, s, Commit(id)) && i in s.txs && i != id
    ensures TxInv(ReplacePin(s.committed, u.jobs[id].pin, u.jobs[id].resetGuard, u.jobs[id].revokeOthers), u.jobs[i], s.txs[i])
  {
    assert TxInv(s.committed, u.jobs[i], s.txs[i]);
    if Running(s.txs[i]) {
      assert KeyOf(u, i) != KeyOf(u, id);
      BatchLeavesOthers(s.committed, u.jobs[id], Account(u, i));
      SameKeepsTx(s.committed, ReplacePin(s.committed, u.jobs[id].pin, u.jobs[id].resetGuard, u.jobs[id].revokeOthers),
                  u.jobs[i], s.txs[i]);
    }
  }

  /** Committing is one more batch on the serial state. */
  lemma CommitTablesAre(u: Setup, t: Tables, s: PgState, id: nat)
    requires PgInv(u, t, s) && Enabled(u, s, Commit(id))
    ensures var job, s' := u.jobs[id], Next(u, s, Commit(id));
      && s'.committed == ReplacePin(s.committed, job.pin, job.resetGuard, job.revokeOthers)
      && s'.committed == Serial(u.jobs, t, s'.log) && OneLivePin(s'.committed.credentials)
  {
    var job, s' := u.jobs[id], Next(u, s, Commit(id));
    assert TxInv(s.committed, job, s.txs[id]) && job.pin.credentialId !in s.committed.credentials;
    CommitIsBatch(s.committed, job, s.txs[id]);
    BatchKeepsOneLive(s.committed, job);
    assert s'.log[..|s.log|] == s.log;
  }

  lemma CommitTxs(u: Setup, t: Tables, s: PgState, id: nat)
    requires PgInv(u, t, s) && Enabled(u, s, Commit(id))
    ensures AllTxInv(u, Next(u, s, Commit(id)))
  {
    hide ReplacePin, CommitTables, DevicesToRevoke, LivePins, Serial, OneLivePin;
    var s' := Next(u, s, Commit(id));
    CommitTablesAre(u, t, s, id);
    forall i | i in s'.txs ensures TxInv(s'.committed, u.jobs[i], s'.txs[i]) {
      if i != id { OthersKeepTheirPlace(u, t, s, id, i); }
    }
  }

  lemma CommitAdds(t: Tables, job: Job, tx: Tx)
    ensures CommitTables(t, job, tx).credentials.Keys == t.credentials.Keys + {job.pin.credentialId}
  {}

  /** One transaction commits, and stores its own credential. */
  lemma OneStored(u: Setup, s: PgState, s': PgState, id: nat, c: CredentialId)
    requires WellFormed(u, s) && WellFormed(u, s') && NotYetStored(u, s) && id in s.txs
    requires s'.txs == s.txs[id := s'.txs[id]] && s'.txs[id].stage.Committed?
    requires s'.committed.credentials.Keys == s.committed.credentials.Keys + {c}
    requires forall i :: i in u.jobs && i != id ==> u.jobs[i].pin.credentialId != c
    ensures NotYetStored(u, s')
  {}

  lemma CommitStored(u: Setup, t: Tables, s: PgState, id: nat)
    requires PgInv(u, t, s) && Enabled(u, s, Commit(id))
    ensures NotYetStored(u, Next(u, s, Commit(id)))
  {
    hide TxInv, Serial, OneLivePin, CommitTables, Exclusive, Answered, NotYetStored;
    CommitAdds(s.committed, u.jobs[id], s.txs[id]);
    OneStored(u, s, Next(u, s, Commit(id)), id, u.jobs[id].pin.credentialId);
  }

  lemma CommitStep(u: Setup, t: Tables, s: PgState, id: nat)
    requires PgInv(u, t, s) && Enabled(u, s, Commit(id))
    ensures PgInv(u, t, Next(u, s, Commit(id)))
  {
    hide TxInv, Serial, ReplacePin, CommitTables, OneLivePin;
    CommitTablesAre(u, t, s, id);
    CommitTxs(u, t, s, id);
    CommitStored(u, t, s, id);
    StillExclusive(u, t, s, Commit(id));
    AnswersStay(u, t, s, id);
  }

  /** Any other statement only moves its own transaction. */
  lemma QuietStep(u: Setup, t: Tables, s: PgState, step: Step)
    requires PgInv(u, t, s) && Enabled(u, s, step) && !step.Commit?
    ensures PgInv(u, t, Next(u, s, step))
  {
    hide Serial, OneLivePin, StepTx, TxInv;
    OwnTxStep(u, t, s, step);
    StillExclusive(u, t, s, step);
    QuietStage(u, s, step);
    var s' := Next(u, s, step);
    assert s' == PgState(s.committed, s.txs[step.id := s'.txs[step.id]], s'.order, s.log);
  }

  lemma QuietStage(u: Setup, s: PgState, step: Step)
    requires Enabled(u, s, step) && !step.Commit?
    ensures !s.txs[step.id].stage.Committed? && !StepTx(u, s, step).stage.Committed?
  {}

  lemma AnswersStay(u: Setup, t: Tables, s: PgState, id: nat)
    requires PgInv(u, t, s) && Enabled(u, s, Commit(id))
    ensures Answered(u, t, Next(u, s, Commit(id)))
  {
    var s' := Next(u, s, Commit(id));
    CommitIsBatch(s.committed, u.jobs[id], s.txs[id]);
    assert s'.log == s.log + [id] && s'.log[..|s.log|] == s.log;
    hide Serial, ReplacePinResult, CommitTables, TxInv, OneLivePin, Answered;
    OneAnswered(u, t, s, s', id);
  }

  /** One more transaction has committed, with its answer; those before it keep theirs. */
  lemma OneAnswered(u: Setup, t: Tables, s: PgState, s': PgState, id: nat)
    requires Answered(u, t, s) && id in u.jobs && id in s.txs && !s.txs[id].stage.Committed?
    requires s'.log == s.log + [id] && id in s'.txs && s'.txs == s.txs[id := s'.txs[id]]
    requires s'.txs[id].stage == Committed(SerialAnswer(u.jobs, t, s'.log, |s.log|))
    ensures Answered(u, t, s')
  {
    hide Serial, ReplacePinResult;
    forall k | 0 <= k < |s'.log|
      ensures s'.log[k] in u.jobs && s'.log[k] in s'.txs
      ensures s'.txs[s'.log[k]].stage == Committed(SerialAnswer(u.jobs, t, s'.log, k))
    {
      if k < |s.log| { assert s'.log[..k] == s.log[..k] && s'.log[k] == s.log[k]; }
    }
    forall i | i in s'.txs && s'.txs[i].stage.Committed? ensures i in s'.log {
      if i == id { assert s'.log[|s.log|] == id; }
    }
  }

  lemma PgStep(u: Setup, t: Tables, s: PgState, step: Step)
    requires PgInv(u, t, s) && Enabled(u, s, step)
    ensures PgInv(u, t, Next(u, s, step))
  {
    if step.Commit? {
      CommitStep(u, t, s, step.id);
    } else {
      QuietStep(u, t, s, step);
    }
  }

  lemma {:induction false} PgRun(u: Setup, t: Tables, s: PgState, steps: seq<Step>)
    requires PgInv(u, t, s) && IsRun(u, s, steps)
    ensures PgInv(u, t, After(u, s, steps))
    decreases |steps|
  {
    if steps != [] {
      PgStep(u, t, s, steps[0]);
      PgRun(u, t, Next(u, s, steps[0]), steps[1..]);
    }
  }
}
