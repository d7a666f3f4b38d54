/** Sessions bound to devices (src/device-auth/sessions.ts:56-75): they live and die with their device. */
module DeviceSessions {
  import opened Basics
  import opened PinCredential
  import opened Tables
  import opened Routes
  import opened Runs
  import opened Provenance
  import opened Devices
  import opened DeviceRuns

  /** What the wrapped `get` answers, and whether it revokes the session on the way. */
  datatype BoundAnswer = BoundAnswer(session: Option<Session>, revoked: bool)

  predicate DeviceAllows(devices: map<DeviceId, DeviceRow>, d: DeviceId, user: AccountId, at: Time) {
    d in devices && devices[d].accountId == user && DeviceLive(devices[d], at)
  }

  function BoundGet(found: Option<Session>, devices: map<DeviceId, DeviceRow>, at: Time): BoundAnswer {
    if found.None? || found.value.deviceId.None? then BoundAnswer(found, false)
    else if DeviceAllows(devices, found.value.deviceId.value, found.value.userId, at) then BoundAnswer(found, false)
    else BoundAnswer(None, true)
  }

  lemma DevicesBegin(cfg: Config)
    ensures DevicesOk(cfg, Init)
  {}

  /**
   * In every run, a session minted on a device is readable exactly while that
   * device is present, unrevoked and inside both windows: the device always
   * belongs to the session's account, and its idle expiry never passes its
   * absolute one.
   */
  lemma ReadableWhileDeviceLives(cfg: Config, acts: seq<Action>, sid: SessionId, at: Time)
    requires ValidConfig(cfg) && IsRun(cfg, Init, acts)
    requires sid in After(cfg, Init, acts).minted && After(cfg, Init, acts).minted[sid].deviceId.Some?
    ensures var s := After(cfg, Init, acts); var session := s.minted[sid]; var d := session.deviceId.value;
      && Registered(s.reqs, d)
      && (BoundGet(Some(session), s.tables.devices, at).session == Some(session) <==>
            d in s.tables.devices && DeviceLive(s.tables.devices[d], at))
      && (d in s.tables.devices ==>
            s.tables.devices[d].accountId == session.userId
            && s.tables.devices[d].idleExpiresAt <= s.tables.devices[d].absoluteExpiresAt)
  {
    DevicesBegin(cfg);
    DevicesHold(cfg, Init, acts);
    var s := After(cfg, Init, acts);
    var session, d := s.minted[sid], s.minted[sid].deviceId.value;
    assert (d, session.userId) in KnownOf(s.reqs).accounts;
    if d in s.tables.devices { OneOwner(cfg, s, d, session.userId); }
  }

  ghost predicate Registered(reqs: map<nat, Entry>, d: DeviceId) {
    exists j :: j in reqs && reqs[j].t.registered == Some(d)
  }

  lemma OneOwner(cfg: Config, s: State, d: DeviceId, account: AccountId)
    requires DevicesOk(cfg, s) && d in s.tables.devices && (d, account) in KnownOf(s.reqs).accounts
    ensures s.tables.devices[d].accountId == account
  {
    var row := s.tables.devices[d];
    var j :| j in s.reqs && Bore(cfg, s.reqs[j], d, row);
    var k :| k in s.reqs && s.reqs[k].t.registered == Some(d) && s.reqs[k].r.input.resolved == Some(account);
    assert DevInv(KnownOf(s.reqs), s.reqs[j]) && DevInv(KnownOf(s.reqs), s.reqs[k]);
  }

  // ----- the end of a device -----

  /** Gone, revoked, or past its absolute expiry at `at`: no touch can help. */
  predicate OverAt(devices: map<DeviceId, DeviceRow>, d: DeviceId, at: Time) {
    d in devices ==> devices[d].revokedAt.Some? || devices[d].absoluteExpiresAt <= at
  }

  /** Gone, revoked, or past either expiry at `at`. */
  predicate EndedBy(devices: map<DeviceId, DeviceRow>, d: DeviceId, at: Time) {
    d in devices ==> !DeviceLive(devices[d], at)
  }

  lemma NotRecreated(cfg: Config, s: State, id: nat, st: Statement, d: DeviceId)
    requires DevicesOk(cfg, s) && id in s.reqs && Emit(cfg, s.reqs[id].r) == Db(st) && Registered(s.reqs, d)
    ensures !(st.CreateDevice? && st.deviceId == d)
    ensures st.TouchDevice? ==> st.now == s.reqs[id].r.now
  {
    var j :| j in s.reqs && s.reqs[j].t.registered == Some(d);
    assert ProvInv(cfg, s.reqs[id]) && DevInv(KnownOf(s.reqs), s.reqs[id]) && DevInv(KnownOf(s.reqs), s.reqs[j]);
    DeviceCalls(cfg, s.reqs[id], st);
  }

  lemma RegisteredStays(cfg: Config, s: State, a: Action, d: DeviceId)
    requires DevicesOk(cfg, s) && Enabled(s, a) && Registered(s.reqs, d)
    ensures Registered(Next(cfg, s, a).reqs, d)
  {
    var j :| j in s.reqs && s.reqs[j].t.registered == Some(d);
    if a.Land? && a.id == j {
      RegisteredLand(cfg, s, j, a.fate, a.visible);
    } else {
      OthersStay(cfg, s, a, j);
    }
  }

  lemma OthersStay(cfg: Config, s: State, a: Action, j: nat)
    requires Enabled(s, a) && j in s.reqs && !(a.Land? && a.id == j)
    ensures j in Next(cfg, s, a).reqs && Next(cfg, s, a).reqs[j] == s.reqs[j]
  {}

  lemma RegisteredLand(cfg: Config, s: State, id: nat, fate: Fate, visible: bool)
    requires DevicesOk(cfg, s) && Waiting(s, id) && s.reqs[id].t.registered.Some?
    ensures id in Next(cfg, s, Land(id, fate, visible)).reqs
    ensures Next(cfg, s, Land(id, fate, visible)).reqs[id].t.registered == s.reqs[id].t.registered
  {
    var c := Emit(cfg, s.reqs[id].r);
    if !fate.RolledBack? && c.Db? { DevDbEntry(cfg, s, id, c.statement, fate.Committed?); }
  }

  /** One statement, sent at a reading no earlier than `clock`, brings no ended device back. */
  lemma EndedStatement(t: Tables, st: Statement, d: DeviceId, at: Time)
    requires !(st.CreateDevice? && st.deviceId == d)
    ensures OverAt(t.devices, d, at) ==> OverAt(Exec(t, st).0.devices, d, at)
    ensures EndedBy(t.devices, d, at) && (st.TouchDevice? ==> st.now >= at) ==> EndedBy(Exec(t, st).0.devices, d, at)
  {
    if d in Exec(t, st).0.devices { RowSteps(t, st, d); }
  }

  lemma OverStep(cfg: Config, s: State, a: Action, d: DeviceId, at: Time)
    requires DevicesOk(cfg, s) && Enabled(s, a) && Registered(s.reqs, d)
    ensures OverAt(s.tables.devices, d, at) ==> OverAt(Next(cfg, s, a).tables.devices, d, at)
    ensures EndedBy(s.tables.devices, d, at) && s.clock >= at && (a.Land? ==> s.reqs[a.id].r.now >= s.clock) ==>
      EndedBy(Next(cfg, s, a).tables.devices, d, at) && Next(cfg, s, a).clock >= at
  {
    hide Exec, Emit, ResumeDb, DevicesOk;
    match a
    case Arrive(_, _, _) =>
    case AppMints(_, _) =>
    case Sweep(_, _) =>
    case OwnerRevokes(st) => EndedStatement(s.tables, st, d, at);
    case Land(id, fate, _) =>
      var c := Emit(cfg, s.reqs[id].r);
      if !fate.RolledBack? && c.Db? {
        NotRecreated(cfg, s, id, c.statement, d);
        EndedStatement(s.tables, c.statement, d, at);
      }
  }

  /**
   * A device that was registered and is gone, revoked or past its absolute
   * expiry never serves a session again, whatever lands later. If statements
   * land in the order of their readings, the same holds for one past its idle
   * expiry.
   */
  lemma {:induction false} DeadForGood(cfg: Config, s: State, acts: seq<Action>, d: DeviceId, at: Time,
      session: Session, later: Time)
    requires ValidConfig(cfg) && DevicesOk(cfg, s) && IsRun(cfg, s, acts) && Registered(s.reqs, d)
    requires OverAt(s.tables.devices, d, at)
      || (EndedBy(s.tables.devices, d, at) && s.clock >= at && InOrder(cfg, s, acts))
    requires session.deviceId == Some(d) && later >= at
    ensures BoundGet(Some(session), After(cfg, s, acts).tables.devices, later) == BoundAnswer(None, true)
    decreases |acts|
  {
    if acts != [] {
      DevStep(cfg, s, acts[0]);
      RegisteredStays(cfg, s, acts[0], d);
      OverStep(cfg, s, acts[0], d, at);
      DeadForGood(cfg, Next(cfg, s, acts[0]), acts[1..], d, at, session, later);
    }
  }

  /** A touch sent at a reading before the idle expiry, landing after it. */
  predicate StaleTouch(st: Statement, d: DeviceId, row: DeviceRow, at: Time) {
    st.TouchDevice? && st.deviceId == d && DeviceLive(row, st.now) && at < st.idleExpiresAt
  }

  predicate Lands(cfg: Config, s: State, a: Action) {
    a.Land? && !a.fate.RolledBack? && a.id in s.reqs && Emit(cfg, s.reqs[a.id].r).Db?
  }

  lemma RevivingStatement(t: Tables, st: Statement, d: DeviceId, at: Time)
    requires d in t.devices && !(st.CreateDevice? && st.deviceId == d)
    requires EndedBy(t.devices, d, at) && !OverAt(t.devices, d, at)
    ensures !EndedBy(Exec(t, st).0.devices, d, at) <==> StaleTouch(st, d, t.devices[d], at)
  {
    if d in Exec(t, st).0.devices { RowSteps(t, st, d); }
  }

  /** With clocks out of order, an idle-expired device comes back exactly by such a touch. */
  lemma RevivedOnlyByStaleTouch(cfg: Config, s: State, a: Action, d: DeviceId, at: Time)
    requires DevicesOk(cfg, s) && Enabled(s, a) && d in s.tables.devices
    requires EndedBy(s.tables.devices, d, at) && !OverAt(s.tables.devices, d, at)
    ensures !EndedBy(Next(cfg, s, a).tables.devices, d, at)
            <==> Lands(cfg, s, a) && StaleTouch(Emit(cfg, s.reqs[a.id].r).statement, d, s.tables.devices[d], at)
  {
    hide Exec, ResumeDb, DevicesOk;
    match a
    case Arrive(_, _, _) =>
    case AppMints(_, _) =>
    case Sweep(_, _) =>
    case OwnerRevokes(st) => RevivingStatement(s.tables, st, d, at);
    case Land(id, fate, visible) => RevivedLand(cfg, s, id, fate, visible, d, at);
  }

  lemma TouchesNoDevice(cfg: Config, s: State, a: Action)
    requires a.Land? && Enabled(s, a) && !Lands(cfg, s, a)
    ensures Next(cfg, s, a).tables.devices == s.tables.devices
  {}

  lemma BornRegistered(cfg: Config, s: State, d: DeviceId)
    requires DevicesOk(cfg, s) && d in s.tables.devices
    ensures Registered(s.reqs, d)
  {
    var j :| j in s.reqs && Bore(cfg, s.reqs[j], d, s.tables.devices[d]);
    assert s.reqs[j].t.registered == Some(d);
  }

  lemma RevivedLand(cfg: Config, s: State, id: nat, fate: Fate, visible: bool, d: DeviceId, at: Time)
    requires DevicesOk(cfg, s) && Waiting(s, id) && d in s.tables.devices
    requires EndedBy(s.tables.devices, d, at) && !OverAt(s.tables.devices, d, at)
    ensures var a := Land(id, fate, visible);
      !EndedBy(Next(cfg, s, a).tables.devices, d, at)
      <==> Lands(cfg, s, a) && StaleTouch(Emit(cfg, s.reqs[id].r).statement, d, s.tables.devices[d], at)
  {
    assert Registered(s.reqs, d) by { BornRegistered(cfg, s, d); }
    hide ResumeDb, Emit, Exec, EndedBy, OverAt, StaleTouch, DevicesOk, Registered, Record;
    if Lands(cfg, s, Land(id, fate, visible)) {
      NotRecreated(cfg, s, id, Emit(cfg, s.reqs[id].r).statement, d);
      RevivingStatement(s.tables, Emit(cfg, s.reqs[id].r).statement, d, at);
    } else {
      TouchesNoDevice(cfg, s, Land(id, fate, visible));
    }
  }
}
