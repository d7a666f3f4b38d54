/**
 * The same transactions without their lock statement (src/store/pg/device-auth.ts:110-144):
 * when two replacements on one account can go wrong, exactly.
 */
module PgRace {
  import opened Basics
  import opened PinCredential
  import opened Tables
  import opened PgReplace
  import opened PgSerial

  /** Two calls of `replaceCredential` on one account; every other call is on another account. */
  ghost predicate Rivals(u: Setup, t: Tables, i: nat, j: nat) {
    && !u.locking && OwnIds(u.jobs, t) && OneLivePin(t.credentials)
    && i in u.jobs && j in u.jobs && i != j && Account(u, i) == Account(u, j)
  }

  ghost predicate OnlyRivals(u: Setup, i: nat, j: nat)
    requires i in u.jobs
  {
    forall k :: k in u.jobs && Account(u, k) == Account(u, i) ==> k == i || k == j
  }

  // ----- building a run -----

  ghost predicate Leads(u: Setup, s: PgState, steps: seq<Step>, s': PgState) {
    IsRun(u, s, steps) && After(u, s, steps) == s'
  }

  ghost predicate Reaches(u: Setup, s: PgState, s': PgState) { exists steps :: Leads(u, s, steps, s') }

  lemma ReachesSelf(u: Setup, s: PgState)
    ensures Reaches(u, s, s)
  {
    assert Leads(u, s, [], s);
  }

  lemma {:induction false} LeadsOn(u: Setup, s: PgState, first: seq<Step>, mid: PgState, rest: seq<Step>, s': PgState)
    requires Leads(u, s, first, mid) && Leads(u, mid, rest, s')
    ensures Leads(u, s, first + rest, s')
    decreases |first|
  {
    hide Enabled, Next;
    if first == [] {
      assert first + rest == rest;
    } else {
      LeadsOn(u, Next(u, s, first[0]), first[1..], mid, rest, s');
      assert (first + rest)[1..] == first[1..] + rest;
    }
  }

  lemma ReachesOn(u: Setup, s: PgState, mid: PgState, s': PgState)
    requires Reaches(u, s, mid) && Reaches(u, mid, s')
    ensures Reaches(u, s, s')
  {
    var first :| Leads(u, s, first, mid);
    var rest :| Leads(u, mid, rest, s');
    LeadsOn(u, s, first, mid, rest, s');
  }

  lemma ReachesNext(u: Setup, s: PgState, mid: PgState, step: Step)
    requires Reaches(u, s, mid) && Enabled(u, mid, step)
    ensures Reaches(u, s, Next(u, mid, step))
  {
    var s' := Next(u, mid, step);
    assert [step][1..] == [] && IsRun(u, s', []) && After(u, s', []) == s';
    assert Leads(u, mid, [step], s');
    ReachesOn(u, s, mid, s');
  }

  /** Only transaction `i` has moved, to `tx`. */
  predicate Moved(s: PgState, s': PgState, i: nat, tx: Tx) {
    s'.committed == s.committed && s'.txs == s.txs[i := tx]
  }

  /** Of the others, only `j` is under way. */
  ghost predicate Quiet(u: Setup, s: PgState, i: nat, j: nat) {
    WellFormed(u, s) && i in s.txs && j in s.txs && i != j
    && forall k :: k in s.txs && k != i && k != j ==> !Running(s.txs[k])
  }

  lemma TakesOneDevice(u: Setup, s: PgState, i: nat, j: nat, left: set<DeviceId>, got: set<DeviceId>, d: DeviceId)
    returns (s': PgState)
    requires Quiet(u, s, i, j) && s.txs[i] == Tx(ScanningDevices(left), got, {}) && s.txs[j].devices !! left
    requires d in left && left <= DevicesToRevoke(s.committed, u.jobs[i])
    ensures Reaches(u, s, s') && Moved(s, s', i, Tx(ScanningDevices(left - {d}), got + {d}, {}))
  {
    hide Reaches;
    ReachesSelf(u, s);
    ReachesNext(u, s, s, TakeDevice(i, d));
    s' := Next(u, s, TakeDevice(i, d));
  }

  lemma {:induction false} TakesAllDevices(u: Setup, s: PgState, i: nat, j: nat, left: set<DeviceId>, got: set<DeviceId>)
    returns (s': PgState)
    requires Quiet(u, s, i, j) && s.txs[i] == Tx(ScanningDevices(left), got, {}) && s.txs[j].devices !! left
    requires left <= DevicesToRevoke(s.committed, u.jobs[i])
    ensures Reaches(u, s, s') && Moved(s, s', i, Tx(ScanningDevices({}), got + left, {}))
    decreases left
  {
    if left == {} {
      assert got + left == got;
      s' := s;
      ReachesSelf(u, s);
    } else {
      hide Reaches;
      var d :| d in left;
      var s1 := TakesOneDevice(u, s, i, j, left, got, d);
      s' := TakesAllDevices(u, s1, i, j, left - {d}, got + {d});
      assert got + {d} + (left - {d}) == got + left;
      ReachesOn(u, s, s1, s');
    }
  }

  /** The device statement, if asked for: every row it selects is taken. */
  lemma DevicesDone(u: Setup, s: PgState, i: nat, j: nat) returns (s': PgState)
    requires Quiet(u, s, i, j) && s.txs[i] == Tx(Locked, {}, {})
    requires s.txs[j].devices !! DevicesToRevoke(s.committed, u.jobs[i])
    ensures Reaches(u, s, s') && i in s'.txs && Moved(s, s', i, s'.txs[i])
    ensures DevicesScanned(u.jobs[i], s'.txs[i].stage)
    ensures s'.txs[i].devices == DevicesToRevoke(s.committed, u.jobs[i]) && s'.txs[i].pins == {}
  {
    hide Revocable, LivePins, Reaches;
    var which := DevicesToRevoke(s.committed, u.jobs[i]);
    ReachesSelf(u, s);
    s' := s;
    if u.jobs[i].revokeOthers.Some? {
      var scanned := Next(u, s, ScanDevices(i));
      ReachesNext(u, s, s, ScanDevices(i));
      s' := TakesAllDevices(u, scanned, i, j, which, {});
      assert {} + which == which;
      ReachesOn(u, s, scanned, s');
    }
  }

  /** From the lock to the scan of the PINs, over every device row. */
  lemma ToPinScan(u: Setup, s: PgState, i: nat, j: nat) returns (s': PgState)
    requires Quiet(u, s, i, j) && !u.locking && s.txs[i] == Fresh
    requires s.txs[j].devices !! DevicesToRevoke(s.committed, u.jobs[i])
    ensures Reaches(u, s, s')
    ensures Moved(s, s', i, Tx(ScanningPins(LivePins(s.committed.credentials, Account(u, i))),
                               DevicesToRevoke(s.committed, u.jobs[i]), {}))
  {
    hide DevicesToRevoke, LivePins, Reaches;
    var s1 := Next(u, s, TakeLock(i));
    ReachesSelf(u, s);
    ReachesNext(u, s, s, TakeLock(i));
    var s2 := DevicesDone(u, s1, i, j);
    ReachesOn(u, s, s1, s2);
    s' := Next(u, s2, ScanPins(i));
    ReachesNext(u, s, s2, ScanPins(i));
  }

  /** Taking PIN rows one at a time: those still live are revoked, the others skipped. */
  lemma {:induction false} TakesAllPins(u: Setup, s: PgState, i: nat, j: nat, left: set<CredentialId>, got: set<CredentialId>)
    returns (s': PgState)
    requires Quiet(u, s, i, j) && s.txs[i].stage == ScanningPins(left) && s.txs[i].pins == got
    requires Running(s.txs[j]) ==> s.txs[j].pins == {}
    ensures Reaches(u, s, s')
    ensures Moved(s, s', i, Tx(ScanningPins({}), s.txs[i].devices,
                               got + left * LivePins(s.committed.credentials, Account(u, i))))
    decreases left
  {
    hide LivePins, Reaches, DevicesToRevoke;
    var live := LivePins(s.committed.credentials, Account(u, i));
    ReachesSelf(u, s);
    if left == {} {
      assert got + left * live == got;
      s' := s;
    } else {
      var c :| c in left;
      var s1 := Next(u, s, TakePin(i, c));
      ReachesNext(u, s, s, TakePin(i, c));
      var got' := got + {c} * live;
      assert s1.txs[i] == Tx(ScanningPins(left - {c}), s.txs[i].devices, got');
      s' := TakesAllPins(u, s1, i, j, left - {c}, got');
      assert got' + (left - {c}) * live == got + left * live;
      ReachesOn(u, s, s1, s');
    }
  }

  // ----- disjoint devices: one of the two can be refused -----

  /** Both have scanned their PINs and nothing has been committed. */
  ghost predicate BothScanned(u: Setup, t: Tables, s: PgState, i: nat, j: nat) {
    Quiet(u, s, i, j) && s.committed == t && PinsScanned(u, t, s, i) && PinsScanned(u, t, s, j)
  }

  predicate PinsScanned(u: Setup, t: Tables, s: PgState, i: nat) requires i in s.txs && i in u.jobs {
    s.txs[i] == Tx(ScanningPins(LivePins(t.credentials, Account(u, i))), DevicesToRevoke(t, u.jobs[i]), {})
  }

  lemma BothScan(u: Setup, t: Tables, i: nat, j: nat) returns (s: PgState)
    requires Rivals(u, t, i, j) && DevicesToRevoke(t, u.jobs[i]) !! DevicesToRevoke(t, u.jobs[j])
    ensures Reaches(u, Begin(u, t), s) && BothScanned(u, t, s, i, j)
  {
    hide DevicesToRevoke, LivePins, Reaches, OwnIds, OneLivePin;
    var s0 := Begin(u, t);
    var s1 := ToPinScan(u, s0, i, j);
    assert Quiet(u, s1, j, i);
    s := ToPinScan(u, s1, j, i);
    ReachesOn(u, s0, s1, s);
  }

  /** Every row taken: the new PIN goes in, and the guard is cleared if asked. */
  lemma InsertsAndClears(u: Setup, s: PgState, i: nat, j: nat) returns (s': PgState)
    requires Quiet(u, s, i, j) && s.txs[i].stage == ScanningPins({})
    requires s.txs[j].stage.ScanningPins? && s.txs[j].pins == {}
    requires !Conflicts(s, s.txs[i], u.jobs[i])
    ensures Reaches(u, s, s') && i in s'.txs && Moved(s, s', i, s'.txs[i])
    ensures ReadyToCommit(u.jobs[i], s'.txs[i].stage) && s'.txs[i].pins == s.txs[i].pins
  {
    hide Conflicts, SeenPins, Reaches;
    ReachesSelf(u, s);
    forall k | k in s.txs && k != i && Running(s.txs[k])
      ensures !HasInserted(s.txs[k]) && s.txs[k].pins * SeenPins(s, s.txs[i], Account(u, i)) == {}
    {}
    ReachesNext(u, s, s, InsertPin(i));
    s' := Next(u, s, InsertPin(i));
    if u.jobs[i].resetGuard {
      ReachesNext(u, s, s', ClearGuard(i));
      s' := Next(u, s', ClearGuard(i));
    }
  }

  /** Every PIN row taken, and the new PIN in. */
  lemma TakesAndInserts(u: Setup, t: Tables, s: PgState, i: nat, j: nat) returns (s': PgState)
    requires Rivals(u, t, i, j) && BothScanned(u, t, s, i, j)
    ensures Reaches(u, s, s') && i in s'.txs && Moved(s, s', i, s'.txs[i]) && Quiet(u, s, i, j) && s.committed == t
    ensures ReadyToCommit(u.jobs[i], s'.txs[i].stage) && s'.txs[i].pins == LivePins(t.credentials, Account(u, i))
    ensures u.jobs[i].pin.credentialId !in t.credentials
  {
    hide DevicesToRevoke, LivePins, Reaches, OneLivePin, ReadyToCommit;
    var live := LivePins(t.credentials, Account(u, i));
    var s1 := TakesAllPins(u, s, i, j, live, {});
    assert {} + live * live == live;
    assert SeenPins(s1, s1.txs[i], Account(u, i)) == {};
    s' := InsertsAndClears(u, s1, i, j);
    ReachesOn(u, s, s1, s');
  }

  /** The first goes through: the PIN both had found is revoked, and its own is live. */
  lemma FirstCommits(u: Setup, t: Tables, s: PgState, i: nat, j: nat) returns (s': PgState)
    requires Rivals(u, t, i, j) && BothScanned(u, t, s, i, j)
    ensures Reaches(u, s, s') && Quiet(u, s', i, j) && s'.txs[j] == s.txs[j] && !Running(s'.txs[i])
    ensures LivePins(s'.committed.credentials, Account(u, i)) == {u.jobs[i].pin.credentialId}
  {
    hide DevicesToRevoke, LivePins, Reaches, CommitTables, OneLivePin, ReadyToCommit;
    var s2 := TakesAndInserts(u, t, s, i, j);
    hide Rivals, BothScanned;
    s' := Next(u, s2, Commit(i));
    ReachesNext(u, s, s2, Commit(i));
    NewPinAlone(t, u.jobs[i], s2.txs[i]);
  }

  lemma NewPinAlone(t: Tables, job: Job, tx: Tx)
    requires tx.pins == LivePins(t.credentials, job.pin.accountId) && job.pin.credentialId !in t.credentials
    ensures LivePins(CommitTables(t, job, tx).credentials, job.pin.accountId) == {job.pin.credentialId}
  {}

  /** The second skips the PIN it had found as revoked, never saw the new one, and is refused. */
  lemma SecondRefused(u: Setup, s: PgState, i: nat, j: nat, found: set<CredentialId>) returns (s': PgState)
    requires Quiet(u, s, i, j) && !Running(s.txs[i]) && Account(u, i) == Account(u, j)
    requires s.txs[j].stage == ScanningPins(found) && s.txs[j].pins == {}
    requires LivePins(s.committed.credentials, Account(u, i)) == {u.jobs[i].pin.credentialId}
    requires u.jobs[i].pin.credentialId !in found
    ensures Reaches(u, s, s') && j in s'.txs && s'.txs[j].stage.Violated?
  {
    var s1 := TakesAllPins(u, s, j, i, found, {});
    assert {} + found * {u.jobs[i].pin.credentialId} == {};
    assert u.jobs[i].pin.credentialId in SeenPins(s1, s1.txs[j], Account(u, j));
    s' := Next(u, s1, InsertPin(j));
    ReachesNext(u, s, s1, InsertPin(j));
  }

  ghost predicate CanBeRefused(u: Setup, t: Tables, j: nat) {
    exists s :: Reaches(u, Begin(u, t), s) && j in s.txs && s.txs[j].stage.Violated?
  }

  /** Whatever other calls there are, on this account or another: they may all be idle. */
  lemma DisjointMayBeRefused(u: Setup, t: Tables, i: nat, j: nat)
    requires Rivals(u, t, i, j) && DevicesToRevoke(t, u.jobs[i]) !! DevicesToRevoke(t, u.jobs[j])
    ensures CanBeRefused(u, t, j)
  {
    var s1 := BothScan(u, t, i, j);
    var s2 := FirstCommits(u, t, s1, i, j);
    var s3 := SecondRefused(u, s2, i, j, LivePins(t.credentials, Account(u, i)));
    ReachesOn(u, Begin(u, t), s1, s2);
    ReachesOn(u, Begin(u, t), s2, s3);
  }

  // ----- a device row in common: the two take turns -----

  /** A transaction writes rows of its own account only. */
  predicate OwnRows(t: Tables, a: AccountId, tx: Tx) {
    && (forall d :: d in tx.devices ==> d in t.devices && t.devices[d].accountId == a)
    && (forall c :: c in tx.pins ==> c in t.credentials && t.credentials[c].accountId == a)
  }

  /** Whatever PINs it has scanned are still the live ones. */
  predicate PinsCurrent(live: set<CredentialId>, tx: Tx) {
    match tx.stage
    case Idle => tx.pins == {}
    case Locked => tx.pins == {}
    case ScanningDevices(_) => tx.pins == {}
    case ScanningPins(left) => tx.pins + left == live && tx.pins !! left
    case Inserted => tx.pins == live
    case GuardCleared => tx.pins == live
    case Committed(_) => true
    case Violated => false
  }

  /** It has taken the common row, or has yet to. */
  predicate AtTurn(tx: Tx, d: DeviceId) {
    if d in tx.devices then Running(tx)
    else tx.stage.Idle? || tx.stage.Locked? || (tx.stage.ScanningDevices? && d in tx.stage.devicesLeft)
  }

  predicate MustTake(t: Tables, job: Job, d: DeviceId) {
    job.revokeOthers.Some? && d in Revocable(t.devices, job.pin.accountId, job.revokeOthers.value)
  }

  /** Before either commits: both must take the row, one at most has it, and the PIN is still there. */
  ghost predicate TakingTurns(u: Setup, s: PgState, i: nat, j: nat, d: DeviceId)
    requires WellFormed(u, s) && i in u.jobs && j in u.jobs
  {
    !s.txs[i].stage.Committed? && !s.txs[j].stage.Committed? ==>
      && MustTake(s.committed, u.jobs[i], d) && MustTake(s.committed, u.jobs[j], d)
      && LivePins(s.committed.credentials, Account(u, i)) != {}
      && AtTurn(s.txs[i], d) && AtTurn(s.txs[j], d) && !(d in s.txs[i].devices && d in s.txs[j].devices)
  }

  ghost predicate AllOwnRows(u: Setup, s: PgState)
    requires WellFormed(u, s)
  {
    forall k :: k in s.txs ==> OwnRows(s.committed, Account(u, k), s.txs[k])
  }

  ghost predicate RaceInv(u: Setup, s: PgState, i: nat, j: nat, d: DeviceId) {
    && WellFormed(u, s) && i in u.jobs && j in u.jobs && i != j && Account(u, i) == Account(u, j)
    && (forall k, l :: k in u.jobs && l in u.jobs && k != l ==> u.jobs[k].pin.credentialId != u.jobs[l].pin.credentialId)
    && OnlyRivals(u, i, j) && NotYetStored(u, s) && AllOwnRows(u, s) && TakingTurns(u, s, i, j, d)
    && PinsCurrent(LivePins(s.committed.credentials, Account(u, i)), s.txs[i])
    && PinsCurrent(LivePins(s.committed.credentials, Account(u, i)), s.txs[j])
  }

  lemma Symmetric(u: Setup, s: PgState, i: nat, j: nat, d: DeviceId)
    requires RaceInv(u, s, i, j, d)
    ensures RaceInv(u, s, j, i, d)
  {}

  /** Where a step leaves one of the two. */
  ghost predicate RivalStands(u: Setup, s: PgState, id: nat, j: nat, d: DeviceId, tx: Tx)
    requires WellFormed(u, s) && id in u.jobs && j in u.jobs
  {
    && PinsCurrent(LivePins(s.committed.credentials, Account(u, id)), tx)
    && OwnRows(s.committed, Account(u, id), tx) && !tx.stage.Committed?
    && (!s.txs[id].stage.Committed? && !s.txs[j].stage.Committed? ==>
          AtTurn(tx, d) && !(d in tx.devices && d in s.txs[j].devices))
  }

  /** A step of one of the two, other than a commit. */
  lemma RivalMoves(u: Setup, s: PgState, step: Step, j: nat, d: DeviceId)
    requires RaceInv(u, s, step.id, j, d) && Enabled(u, s, step) && !step.Commit?
    ensures RivalStands(u, s, step.id, j, d, StepTx(u, s, step))
  {
    hide RivalStands, RaceInv, StepTx;
    match step
    case TakeDevice(id, e) => RivalTakesDevice(u, s, id, e, j, d);
    case InsertPin(id) => RivalInserts(u, s, id, j, d);
    case TakePin(id, c) => RivalTakesPin(u, s, id, c, j, d);
    case _ => RivalGoesOn(u, s, step, j, d);
  }

  lemma RivalTakesDevice(u: Setup, s: PgState, id: nat, e: DeviceId, j: nat, d: DeviceId)
    requires RaceInv(u, s, id, j, d) && Enabled(u, s, TakeDevice(id, e))
    ensures RivalStands(u, s, id, j, d, StepTx(u, s, TakeDevice(id, e)))
  {
    RowIsFree(u, s, id, j, e);
    assert OwnRows(s.committed, Account(u, id), s.txs[id]);
    hide Held, NotYetStored, OnlyRivals, AllOwnRows, LivePins;
  }

  lemma RivalTakesPin(u: Setup, s: PgState, id: nat, c: CredentialId, j: nat, d: DeviceId)
    requires RaceInv(u, s, id, j, d) && Enabled(u, s, TakePin(id, c))
    ensures RivalStands(u, s, id, j, d, StepTx(u, s, TakePin(id, c)))
  {
    assert OwnRows(s.committed, Account(u, id), s.txs[id]);
    hide Held, NotYetStored, OnlyRivals, AllOwnRows, MustTake;
  }

  lemma RivalInserts(u: Setup, s: PgState, id: nat, j: nat, d: DeviceId)
    requires RaceInv(u, s, id, j, d) && Enabled(u, s, InsertPin(id))
    ensures RivalStands(u, s, id, j, d, StepTx(u, s, InsertPin(id)))
  {
    assert OwnRows(s.committed, Account(u, id), s.txs[id]) && u.jobs[id].pin.credentialId !in s.committed.credentials;
    hide Held, NotYetStored, OnlyRivals, AllOwnRows, MustTake, LivePins;
    assert SeenPins(s, s.txs[id], Account(u, id)) == {};
  }

  lemma RivalGoesOn(u: Setup, s: PgState, step: Step, j: nat, d: DeviceId)
    requires RaceInv(u, s, step.id, j, d) && Enabled(u, s, step)
    requires step.TakeLock? || step.ScanDevices? || step.ScanPins? || step.ClearGuard?
    ensures RivalStands(u, s, step.id, j, d, StepTx(u, s, step))
  {
    assert OwnRows(s.committed, Account(u, step.id), s.txs[step.id]);
    hide Held, NotYetStored, OnlyRivals, AllOwnRows;
  }

  lemma RowIsFree(u: Setup, s: PgState, id: nat, j: nat, e: DeviceId)
    requires Enabled(u, s, TakeDevice(id, e)) && j in s.txs && j != id
    ensures Running(s.txs[j]) ==> e !in s.txs[j].devices
  {
    var p := (j: Job, t: Tx) => e in t.devices;
    assert Running(s.txs[j]) ==> !p(u.jobs[j], s.txs[j]);
  }

  /** A step of anyone, other than a commit, keeps to its own account's rows. */
  lemma AnyoneMoves(u: Setup, s: PgState, step: Step)
    requires Enabled(u, s, step) && !step.Commit? && OwnRows(s.committed, Account(u, step.id), s.txs[step.id])
    ensures OwnRows(s.committed, Account(u, step.id), StepTx(u, s, step))
    ensures !StepTx(u, s, step).stage.Committed? && !s.txs[step.id].stage.Committed?
  {}

  lemma MovesKeep(u: Setup, s: PgState, step: Step, i: nat, j: nat, d: DeviceId)
    requires RaceInv(u, s, i, j, d) && Enabled(u, s, step) && !step.Commit?
    ensures RaceInv(u, Next(u, s, step), i, j, d)
  {
    hide StepTx, LivePins, PinsCurrent, AtTurn, MustTake, OwnRows;
    AnyoneMoves(u, s, step);
    if step.id == i {
      RivalMoves(u, s, step, j, d);
    } else if step.id == j {
      Symmetric(u, s, i, j, d);
      RivalMoves(u, s, step, i, d);
    }
    RowsStay(u, s, step);
    hide Enabled, AllOwnRows, NotYetStored, OnlyRivals;
    var s' := Next(u, s, step);
    assert s' == PgState(s.committed, s.txs[step.id := s'.txs[step.id]], s'.order, s.log);
  }

  lemma RowsStay(u: Setup, s: PgState, step: Step)
    requires Enabled(u, s, step) && !step.Commit? && AllOwnRows(u, s) && NotYetStored(u, s)
    ensures AllOwnRows(u, Next(u, s, step)) && NotYetStored(u, Next(u, s, step))
  {
    AnyoneMoves(u, s, step);
    hide StepTx, OwnRows;
  }

  // ----- commits -----

  predicate SameRows(t: Tables, t': Tables, a: AccountId) {
    && LivePins(t'.credentials, a) == LivePins(t.credentials, a)
    && (forall d :: d in t.devices && t.devices[d].accountId == a ==> d in t'.devices && t'.devices[d] == t.devices[d])
    && (forall d :: d in t'.devices ==> d in t.devices && t'.devices[d].accountId == t.devices[d].accountId)
  }

  /** A commit changes rows of its own account only, and nobody's account. */
  lemma CommitElsewhere(t: Tables, job: Job, tx: Tx, a: AccountId)
    requires OwnRows(t, job.pin.accountId, tx) && job.pin.accountId != a && job.pin.credentialId !in t.credentials
    ensures SameRows(t, CommitTables(t, job, tx), a)
  {
    forall c ensures c in LivePins(CommitTables(t, job, tx).credentials, a) <==> c in LivePins(t.credentials, a) {}
  }

  lemma CommitKeepsOwners(t: Tables, job: Job, tx: Tx, a: AccountId, other: Tx)
    requires OwnRows(t, a, other) && job.pin.credentialId !in t.credentials
    ensures OwnRows(CommitTables(t, job, tx), a, other)
  {}

  lemma CommitKeepsRows(u: Setup, s: PgState, i: nat, j: nat, d: DeviceId, id: nat)
    requires RaceInv(u, s, i, j, d) && Enabled(u, s, Commit(id))
    ensures AllOwnRows(u, Next(u, s, Commit(id))) && NotYetStored(u, Next(u, s, Commit(id)))
  {
    assert id in s.txs && u.jobs[id].pin.credentialId !in s.committed.credentials;
    hide LivePins, PinsCurrent, TakingTurns, OwnRows, CommitTables, Enabled;
    CommitAdds(s.committed, u.jobs[id], s.txs[id]);
    var s' := Next(u, s, Commit(id));
    forall k | k in s'.txs ensures OwnRows(s'.committed, Account(u, k), s'.txs[k]) {
      CommitKeepsOwners(s.committed, u.jobs[id], s.txs[id], Account(u, k), s.txs[k]);
      assert s'.txs[k].devices == s.txs[k].devices && s'.txs[k].pins == s.txs[k].pins;
      SameRowsOwned(s'.committed, Account(u, k), s.txs[k], s'.txs[k]);
    }
    OneStored(u, s, s', id, u.jobs[id].pin.credentialId);
  }

  lemma SameRowsOwned(t: Tables, a: AccountId, tx: Tx, tx': Tx)
    requires OwnRows(t, a, tx) && tx'.devices == tx.devices && tx'.pins == tx.pins
    ensures OwnRows(t, a, tx')
  {}

  /** Someone of another account commits. */
  lemma OtherCommits(u: Setup, s: PgState, i: nat, j: nat, d: DeviceId, id: nat)
    requires RaceInv(u, s, i, j, d) && Enabled(u, s, Commit(id)) && id != i && id != j
    ensures RaceInv(u, Next(u, s, Commit(id)), i, j, d)
  {
    assert id in s.txs && OwnRows(s.committed, Account(u, id), s.txs[id]) && Account(u, id) != Account(u, i);
    assert u.jobs[id].pin.credentialId !in s.committed.credentials;
    hide RaceInv, CommitTables, SameRows, Enabled, StepTx, OwnRows;
    CommitKeepsRows(u, s, i, j, d, id);
    CommitElsewhere(s.committed, u.jobs[id], s.txs[id], Account(u, i));
    SameRace(u, s, Next(u, s, Commit(id)), i, j, d);
  }

  /** The two stand as they did, and the rows of their account with them. */
  lemma SameRace(u: Setup, s: PgState, s': PgState, i: nat, j: nat, d: DeviceId)
    requires RaceInv(u, s, i, j, d) && WellFormed(u, s') && AllOwnRows(u, s') && NotYetStored(u, s')
    requires s'.txs[i] == s.txs[i] && s'.txs[j] == s.txs[j] && SameRows(s.committed, s'.committed, Account(u, i))
    ensures RaceInv(u, s', i, j, d)
  {
    hide PinsCurrent, AtTurn, MustTake, AllOwnRows, NotYetStored, OnlyRivals, LivePins;
    if MustTake(s.committed, u.jobs[i], d) { MustTakeStays(s.committed, s'.committed, u.jobs[i], d); }
    if MustTake(s.committed, u.jobs[j], d) { MustTakeStays(s.committed, s'.committed, u.jobs[j], d); }
  }

  lemma MustTakeStays(t: Tables, t': Tables, job: Job, d: DeviceId)
    requires MustTake(t, job, d) && SameRows(t, t', job.pin.accountId)
    ensures MustTake(t', job, d)
  {}

  /** The first of the two commits: the other has scanned no PIN yet. */
  lemma RivalCommits(u: Setup, s: PgState, i: nat, j: nat, d: DeviceId)
    requires RaceInv(u, s, i, j, d) && Enabled(u, s, Commit(i))
    ensures RaceInv(u, Next(u, s, Commit(i)), i, j, d)
  {
    hide LivePins, CommitTables, MustTake, AllOwnRows, NotYetStored, OnlyRivals;
    CommitKeepsRows(u, s, i, j, d, i);
    assert !s.txs[i].stage.Committed?;
    assert s.txs[j].stage.Committed? || !(d in s.txs[j].devices);
  }

  lemma RaceStep(u: Setup, s: PgState, step: Step, i: nat, j: nat, d: DeviceId)
    requires RaceInv(u, s, i, j, d) && Enabled(u, s, step)
    ensures RaceInv(u, Next(u, s, step), i, j, d)
  {
    hide RaceInv, Next;
    if !step.Commit? {
      MovesKeep(u, s, step, i, j, d);
    } else if step.id == i {
      RivalCommits(u, s, i, j, d);
    } else if step.id == j {
      Symmetric(u, s, i, j, d);
      RivalCommits(u, s, j, i, d);
      Symmetric(u, Next(u, s, step), j, i, d);
    } else {
      OtherCommits(u, s, i, j, d, step.id);
    }
  }

  lemma {:induction false} RaceRun(u: Setup, s: PgState, steps: seq<Step>, i: nat, j: nat, d: DeviceId)
    requires RaceInv(u, s, i, j, d) && IsRun(u, s, steps)
    ensures RaceInv(u, After(u, s, steps), i, j, d)
    decreases |steps|
  {
    hide RaceInv, Next, Enabled;
    if steps != [] {
      RaceStep(u, s, steps[0], i, j, d);
      RaceRun(u, Next(u, s, steps[0]), steps[1..], i, j, d);
    }
  }

  lemma RaceBegins(u: Setup, t: Tables, i: nat, j: nat, d: DeviceId)
    requires Rivals(u, t, i, j) && OnlyRivals(u, i, j)
    requires d in DevicesToRevoke(t, u.jobs[i]) && d in DevicesToRevoke(t, u.jobs[j])
    ensures RaceInv(u, Begin(u, t), i, j, d)
  {
    hide LivePins, Revocable, OneLivePin;
  }

  lemma SharedNeverRefused(u: Setup, t: Tables, i: nat, j: nat, d: DeviceId)
    requires Rivals(u, t, i, j) && OnlyRivals(u, i, j)
    requires d in DevicesToRevoke(t, u.jobs[i]) && d in DevicesToRevoke(t, u.jobs[j])
    ensures !CanBeRefused(u, t, i) && !CanBeRefused(u, t, j)
  {
    hide DevicesToRevoke, RaceInv, Rivals, OnlyRivals, IsRun, After;
    RaceBegins(u, t, i, j, d);
    forall s | Reaches(u, Begin(u, t), s)
      ensures i in s.txs && j in s.txs && !s.txs[i].stage.Violated? && !s.txs[j].stage.Violated?
    {
      var steps :| Leads(u, Begin(u, t), steps, s);
      RaceRun(u, Begin(u, t), steps, i, j, d);
      RaceRefusesNone(u, s, i, j, d);
    }
  }

  lemma RaceRefusesNone(u: Setup, s: PgState, i: nat, j: nat, d: DeviceId)
    requires RaceInv(u, s, i, j, d)
    ensures i in s.txs && j in s.txs && !s.txs[i].stage.Violated? && !s.txs[j].stage.Violated?
  {}

  /**
   * Drop only the lock statement. Of two replacements on one account (whoever
   * else runs on other accounts, whatever each asks: devices revoked, guard
   * cleared), one can be refused if and only if no device is to be revoked by
   * both: a common device row makes one of them wait until the other is done.
   */
  lemma WithoutLockOneIsRefused(u: Setup, t: Tables, i: nat, j: nat)
    requires Rivals(u, t, i, j) && OnlyRivals(u, i, j)
    ensures CanBeRefused(u, t, i) || CanBeRefused(u, t, j)
            <==> DevicesToRevoke(t, u.jobs[i]) !! DevicesToRevoke(t, u.jobs[j])
  {
    hide CanBeRefused, DevicesToRevoke;
    if d :| d in DevicesToRevoke(t, u.jobs[i]) && d in DevicesToRevoke(t, u.jobs[j]) {
      SharedNeverRefused(u, t, i, j, d);
    } else {
      DisjointMayBeRefused(u, t, i, j);
    }
  }
}
