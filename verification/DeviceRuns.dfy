/** Device rows in every run, and what ends a device for good (src/device-auth/store.ts:395-445). */
module DeviceRuns {
  import opened Basics
  import opened PinCredential
  import opened Tables
  import opened Routes
  import opened Runs
  import opened Provenance
  import opened Devices

  // ----- one statement -----

  /** The same registration, still revoked if it was, its idle expiry inside its absolute one. */
  predicate SameDevice(row: DeviceRow, row': DeviceRow) {
    && row'.accountId == row.accountId && row'.email == row.email && row'.secretHash == row.secretHash
    && row'.createdAt == row.createdAt && row'.absoluteExpiresAt == row.absoluteExpiresAt
    && (row.revokedAt.Some? ==> row'.revokedAt == row.revokedAt)
    && (row'.idleExpiresAt == row.idleExpiresAt || row'.idleExpiresAt <= row'.absoluteExpiresAt)
  }

  /** Idle expiry moves only by a touch that found the device live at its own reading. */
  predicate MovedByTouch(st: Statement, d: DeviceId, row: DeviceRow, row': DeviceRow) {
    st.TouchDevice? && st.deviceId == d && DeviceLive(row, st.now) && row' == TouchedRow(row, st.now, st.idleExpiresAt)
  }

  lemma RowSteps(t: Tables, st: Statement, d: DeviceId)
    requires d in Exec(t, st).0.devices && !(st.CreateDevice? && st.deviceId == d && d !in t.devices)
    ensures d in t.devices && SameDevice(t.devices[d], Exec(t, st).0.devices[d])
    ensures var row, row' := t.devices[d], Exec(t, st).0.devices[d];
      row'.idleExpiresAt == row.idleExpiresAt || MovedByTouch(st, d, row, row')
  {
    if !WritesDevices(st) {
      hide Exec;
      Frame(t, st);
    } else if st.ReplaceCredential? {
      ReplaceSteps(t, st.pin, st.resetGuard, st.revokeOthers, d);
    }
  }

  lemma ReplaceSteps(t: Tables, pin: NewPin, resetGuard: bool, revokeOthers: Option<Option<DeviceId>>, d: DeviceId)
    requires d in ReplacePin(t, pin, resetGuard, revokeOthers).devices
    ensures d in t.devices
    ensures var row, row' := t.devices[d], ReplacePin(t, pin, resetGuard, revokeOthers).devices[d];
      SameDevice(row, row') && row'.idleExpiresAt == row.idleExpiresAt
  {}

  // ----- all requests -----

  ghost function KnownOf(reqs: map<nat, Entry>): Known {
    Known(
      set id | id in reqs && reqs[id].t.registered.Some? && reqs[id].r.input.resolved.Some?
        :: (reqs[id].t.registered.value, reqs[id].r.input.resolved.value),
      set id | id in reqs && reqs[id].t.registered.Some?
        :: (reqs[id].t.registered.value, reqs[id].r.input.email))
  }

  /** This request created this row. */
  predicate Bore(cfg: Config, e: Entry, d: DeviceId, row: DeviceRow) {
    && e.t.registered == Some(d) && e.t.consumed && e.r.input.resolved == Some(row.accountId)
    && e.r.input.email == row.email && e.r.input.newSecretHash == row.secretHash
    && row.createdAt == e.r.now && row.absoluteExpiresAt == e.r.now + cfg.deviceAbsoluteMs
  }

  ghost predicate Born(cfg: Config, reqs: map<nat, Entry>, d: DeviceId, row: DeviceRow) {
    exists j :: j in reqs && Bore(cfg, reqs[j], d, row)
  }

  ghost predicate RowsBorn(cfg: Config, reqs: map<nat, Entry>, devices: map<DeviceId, DeviceRow>) {
    forall d :: d in devices ==> Born(cfg, reqs, d, devices[d]) && devices[d].idleExpiresAt <= devices[d].absoluteExpiresAt
  }

  ghost predicate OwnDeviceIds(reqs: map<nat, Entry>) {
    forall i, j :: i in reqs && j in reqs && reqs[i].r.input.newDevice == reqs[j].r.input.newDevice ==> i == j
  }

  ghost predicate MintedBound(known: Known, minted: map<SessionId, Session>) {
    forall sid :: sid in minted && minted[sid].deviceId.Some? ==>
      (minted[sid].deviceId.value, minted[sid].userId) in known.accounts
  }

  ghost predicate RequestsOk(cfg: Config, reqs: map<nat, Entry>) {
    forall id :: id in reqs ==> ProvInv(cfg, reqs[id]) && DevInv(KnownOf(reqs), reqs[id])
  }

  ghost predicate DevicesOk(cfg: Config, s: State) {
    && RequestsOk(cfg, s.reqs) && OwnDeviceIds(s.reqs)
    && RowsBorn(cfg, s.reqs, s.tables.devices) && MintedBound(KnownOf(s.reqs), s.minted)
  }

  // ----- one request moves -----

  predicate Keeps(e: Entry, e': Entry) {
    && e'.r.input == e.r.input && e'.r.now == e.r.now && (e.t.consumed ==> e'.t.consumed)
    && (e.t.registered.Some? ==> e'.t.registered == e.t.registered)
  }

  predicate Within(known: Known, known': Known) {
    known.accounts <= known'.accounts && known.emails <= known'.emails
  }

  lemma KnownGrows(reqs: map<nat, Entry>, id: nat, e: Entry)
    requires id in reqs ==> Keeps(reqs[id], e)
    ensures Within(KnownOf(reqs), KnownOf(reqs[id := e]))
  {
    var reqs' := reqs[id := e];
    forall i | i in reqs && reqs[i].t.registered.Some?
      ensures i in reqs' && reqs'[i].t.registered == reqs[i].t.registered && reqs'[i].r.input == reqs[i].r.input
    {}
  }

  lemma DevInvWithin(known: Known, known': Known, e: Entry)
    requires DevInv(known, e) && Within(known, known')
    ensures DevInv(known', e)
  {}

  lemma BornStays(cfg: Config, reqs: map<nat, Entry>, id: nat, e: Entry, d: DeviceId, row: DeviceRow, row': DeviceRow)
    requires Born(cfg, reqs, d, row) && SameDevice(row, row') && (id in reqs ==> Keeps(reqs[id], e))
    ensures Born(cfg, reqs[id := e], d, row')
  {
    var j :| j in reqs && Bore(cfg, reqs[j], d, row);
    assert Bore(cfg, reqs[id := e][j], d, row');
  }

  /** Everything but the mover's own invariant and the device rows. */
  lemma RequestMoves(cfg: Config, s: State, id: nat, e: Entry)
    requires DevicesOk(cfg, s) && (if id in s.reqs then Keeps(s.reqs[id], e) else FreshDevice(s.reqs, e))
    requires ProvInv(cfg, e) && DevInv(KnownOf(s.reqs[id := e]), e)
    ensures RequestsOk(cfg, s.reqs[id := e]) && OwnDeviceIds(s.reqs[id := e])
    ensures MintedBound(KnownOf(s.reqs[id := e]), s.minted)
  {
    KnownGrows(s.reqs, id, e);
    forall j | j in s.reqs && j != id ensures DevInv(KnownOf(s.reqs[id := e]), s.reqs[j]) {
      DevInvWithin(KnownOf(s.reqs), KnownOf(s.reqs[id := e]), s.reqs[j]);
    }
  }

  ghost predicate FreshDevice(reqs: map<nat, Entry>, e: Entry) {
    forall j :: j in reqs ==> reqs[j].r.input.newDevice != e.r.input.newDevice
  }

  /** Rows that were there before and only stepped. */
  lemma RowsMove(cfg: Config, reqs: map<nat, Entry>, devices: map<DeviceId, DeviceRow>, id: nat, e: Entry,
                 devices': map<DeviceId, DeviceRow>)
    requires RowsBorn(cfg, reqs, devices) && (id in reqs ==> Keeps(reqs[id], e))
    requires forall d :: d in devices' ==> d in devices && SameDevice(devices[d], devices'[d])
    ensures RowsBorn(cfg, reqs[id := e], devices')
  {
    forall d | d in devices' ensures Born(cfg, reqs[id := e], d, devices'[d]) {
      BornStays(cfg, reqs, id, e, d, devices[d], devices'[d]);
    }
  }

  // ----- steps -----

  lemma LookupsTruthful(cfg: Config, s: State, st: Statement)
    requires DevicesOk(cfg, s)
    ensures Truthful(KnownOf(s.reqs), st, Exec(s.tables, st).1)
  {
    if st.FindDevice? && st.deviceId in s.tables.devices {
      var row := s.tables.devices[st.deviceId];
      var j :| j in s.reqs && Bore(cfg, s.reqs[j], st.deviceId, row);
      assert s.reqs[j].t.registered == Some(st.deviceId);
    }
  }

  /** What a request may tell the device table, and what it keeps of its own. */
  lemma DeviceCalls(cfg: Config, e: Entry, st: Statement)
    requires ProvInv(cfg, e) && Emit(cfg, e.r) == Db(st)
    ensures st.CreateDevice? ==>
      && e.r.pc == Entering(VerifyRegister) && st.deviceId == e.r.input.newDevice && st.row == NewDeviceRow(cfg, e.r)
      && Entitled(e)
    ensures !st.Cleanup?
  {}

  lemma RecordKeeps(known: Known, cfg: Config, e: Entry, st: Statement, result: Result, epoch: nat)
    requires DevInv(known, e) && ProvInv(cfg, e) && Emit(cfg, e.r) == Db(st)
    ensures var t := Record(e.t, st, result, epoch);
      && (e.t.consumed ==> t.consumed) && (e.t.registered.Some? ==> t.registered == e.t.registered)
      && (st.CreateDevice? && result.Done? ==> t == e.t.(registered := Some(st.deviceId)))
  {
    DeviceCalls(cfg, e, st);
  }

  /** A request just registered is known, whatever it does next. */
  lemma LearnedAfter(cfg: Config, s: State, id: nat, st: Statement, result: Result, e': Entry)
    requires id in s.reqs && ProvInv(cfg, s.reqs[id]) && Emit(cfg, s.reqs[id].r) == Db(st)
    requires e'.r.input == s.reqs[id].r.input
    requires st.CreateDevice? && result.Done? ==> e'.t.registered == Some(st.deviceId)
    ensures Learned(KnownOf(s.reqs[id := e']), s.reqs[id], st, result)
  {
    DeviceCalls(cfg, s.reqs[id], st);
    var reqs' := s.reqs[id := e'];
    if st.CreateDevice? && result.Done? { assert reqs'[id].t.registered.Some?; }
  }

  lemma DevDbEntry(cfg: Config, s: State, id: nat, st: Statement, told: bool)
    requires DevicesOk(cfg, s) && id in s.reqs && Emit(cfg, s.reqs[id].r) == Db(st)
    ensures var e' := LandDb(cfg, s, id, st, told).reqs[id];
      Keeps(s.reqs[id], e') && ProvInv(cfg, e') && DevInv(KnownOf(s.reqs[id := e']), e')
  {
    var e, result, epoch := s.reqs[id], Exec(s.tables, st).1, EpochOf(s, s.reqs[id].r.input.email);
    var e' := LandDb(cfg, s, id, st, told).reqs[id];
    var known, known' := KnownOf(s.reqs), KnownOf(s.reqs[id := e']);
    assert ProvInv(cfg, e) && DevInv(known, e);
    RecordKeeps(known, cfg, e, st, result, epoch);
    ProvInvDb(cfg, e, st, result, epoch);
    LearnedAfter(cfg, s, id, st, result, e');
    KnownGrows(s.reqs, id, e');
    DevInvWithin(known, known', e);
    LookupsTruthful(cfg, s, st);
    DevInvDb(cfg, known', e, st, result, epoch);
  }

  lemma DevDbRows(cfg: Config, s: State, id: nat, st: Statement, told: bool)
    requires ValidConfig(cfg) && DevicesOk(cfg, s) && id in s.reqs && Emit(cfg, s.reqs[id].r) == Db(st)
    requires Keeps(s.reqs[id], LandDb(cfg, s, id, st, told).reqs[id])
    ensures var s' := LandDb(cfg, s, id, st, told); RowsBorn(cfg, s'.reqs, s'.tables.devices)
  {
    var e, s' := s.reqs[id], LandDb(cfg, s, id, st, told);
    assert ProvInv(cfg, e) && DevInv(KnownOf(s.reqs), e);
    DeviceCalls(cfg, e, st);
    if st.CreateDevice? && st.deviceId !in s.tables.devices {
      RecordKeeps(KnownOf(s.reqs), cfg, e, st, Done, EpochOf(s, e.r.input.email));
      NewRow(cfg, s, id, s'.reqs[id], st.deviceId);
    } else {
      forall d | d in s'.tables.devices
        ensures d in s.tables.devices && SameDevice(s.tables.devices[d], s'.tables.devices[d])
      {
        RowSteps(s.tables, st, d);
      }
      RowsMove(cfg, s.reqs, s.tables.devices, id, s'.reqs[id], s'.tables.devices);
    }
  }

  lemma NewRow(cfg: Config, s: State, id: nat, e: Entry, d: DeviceId)
    requires ValidConfig(cfg) && DevicesOk(cfg, s) && id in s.reqs && Keeps(s.reqs[id], e)
    requires Entitled(s.reqs[id]) && e.t.registered == Some(d)
    ensures RowsBorn(cfg, s.reqs[id := e], s.tables.devices[d := NewDeviceRow(cfg, s.reqs[id].r)])
  {
    RowsMove(cfg, s.reqs, s.tables.devices, id, e, s.tables.devices);
    var reqs' := s.reqs[id := e];
    assert Bore(cfg, reqs'[id], d, NewDeviceRow(cfg, s.reqs[id].r));
  }

  lemma DevDb(cfg: Config, s: State, id: nat, st: Statement, told: bool)
    requires ValidConfig(cfg) && DevicesOk(cfg, s) && id in s.reqs && Emit(cfg, s.reqs[id].r) == Db(st)
    ensures DevicesOk(cfg, LandDb(cfg, s, id, st, told))
  {
    DevDbEntry(cfg, s, id, st, told);
    DevDbRows(cfg, s, id, st, told);
    RequestMoves(cfg, s, id, LandDb(cfg, s, id, st, told).reqs[id]);
  }

  /** A request that moves without a device statement. */
  lemma DevQuiet(cfg: Config, s: State, id: nat, e: Entry)
    requires DevicesOk(cfg, s) && ProvInv(cfg, e) && DevInv(KnownOf(s.reqs), e)
    requires if id in s.reqs then Keeps(s.reqs[id], e) else FreshDevice(s.reqs, e)
    ensures DevicesOk(cfg, s.(reqs := s.reqs[id := e]))
  {
    KnownGrows(s.reqs, id, e);
    DevInvWithin(KnownOf(s.reqs), KnownOf(s.reqs[id := e]), e);
    RequestMoves(cfg, s, id, e);
    RowsMove(cfg, s.reqs, s.tables.devices, id, e, s.tables.devices);
  }

  lemma DevOther(cfg: Config, s: State, id: nat, told: bool, visible: bool)
    requires DevicesOk(cfg, s) && id in s.reqs && !Emit(cfg, s.reqs[id].r).Db?
    ensures DevicesOk(cfg, LandOther(cfg, s, id, Emit(cfg, s.reqs[id].r), told, visible))
  {
    hide Exec, ResumeDb, Emit, Begin, Bore, DevInv, ProvInv;
    var e, c := s.reqs[id], Emit(cfg, s.reqs[id].r);
    var found := SessionFound(s, c, visible);
    assert ProvInv(cfg, e) && DevInv(KnownOf(s.reqs), e);
    ProvInvOther(cfg, e, found, told);
    DevInvOther(cfg, KnownOf(s.reqs), e, found, told);
    var e' := e.(r := AfterOther(cfg, e.r, c, found, told));
    DevQuiet(cfg, s, id, e');
    if c.MintSession? {
      KnownGrows(s.reqs, id, e');
      MintsBound(cfg, KnownOf(s.reqs), e);
    }
  }

  /** A session is minted only on a device registered to its account. */
  lemma MintsBound(cfg: Config, known: Known, e: Entry)
    requires DevInv(known, e) && Emit(cfg, e.r).MintSession?
    ensures var session := Emit(cfg, e.r).session;
      session.deviceId.Some? ==> (session.deviceId.value, session.userId) in known.accounts
  {}

  lemma DevStep(cfg: Config, s: State, a: Action)
    requires ValidConfig(cfg) && DevicesOk(cfg, s) && Enabled(s, a)
    ensures DevicesOk(cfg, Next(cfg, s, a))
  {
    hide Exec, ResumeDb, Emit, Bore, DevInv, ProvInv;
    match a
    case Arrive(id, input, now) =>
      ProvInvBegins(cfg, input, now);
      DevInvBegins(cfg, KnownOf(s.reqs), input, now);
      DevQuiet(cfg, s, id, Entry(Begin(cfg, input, now), NoTrace));
    case Land(id, fate, visible) => DevLand(cfg, s, id, fate, visible);
    case OwnerRevokes(st) => DevRevokes(cfg, s, st);
    case AppMints(_, _) =>
    case Sweep(now, horizon) => assert Next(cfg, s, a).tables == Swept(s.tables, now, horizon);
  }

  lemma DevRevokes(cfg: Config, s: State, st: Statement)
    requires DevicesOk(cfg, s) && (st.RevokeDevice? || st.RevokeAllDevices?)
    ensures RowsBorn(cfg, s.reqs, Exec(s.tables, st).0.devices)
  {
    var devices, devices' := s.tables.devices, Exec(s.tables, st).0.devices;
    forall d | d in devices' ensures Born(cfg, s.reqs, d, devices'[d]) && devices'[d].idleExpiresAt <= devices'[d].absoluteExpiresAt {
      RowSteps(s.tables, st, d);
      var j :| j in s.reqs && Bore(cfg, s.reqs[j], d, devices[d]);
      assert Bore(cfg, s.reqs[j], d, devices'[d]);
    }
  }

  lemma DevLand(cfg: Config, s: State, id: nat, fate: Fate, visible: bool)
    requires ValidConfig(cfg) && DevicesOk(cfg, s) && Waiting(s, id)
    ensures DevicesOk(cfg, Next(cfg, s, Land(id, fate, visible)))
  {
    hide Exec, ResumeDb, Emit, Begin, Bore, DevInv, ProvInv;
    var e, c := s.reqs[id], Emit(cfg, s.reqs[id].r);
    if fate.RolledBack? {
      assert ProvInv(cfg, e) && DevInv(KnownOf(s.reqs), e);
      ProvInvRollBack(cfg, e, fate.retryable);
      DevInvRollBack(KnownOf(s.reqs), e, fate.retryable);
      DevQuiet(cfg, s, id, RollBack(e, fate.retryable));
    } else if c.Db? {
      DevDb(cfg, s, id, c.statement, fate.Committed?);
    } else {
      DevOther(cfg, s, id, fate.Committed?, visible);
    }
  }

  lemma {:induction false} DevicesHold(cfg: Config, s: State, acts: seq<Action>)
    requires ValidConfig(cfg) && DevicesOk(cfg, s) && IsRun(cfg, s, acts)
    ensures DevicesOk(cfg, After(cfg, s, acts))
    decreases |acts|
  {
    if acts != [] {
      DevStep(cfg, s, acts[0]);
      DevicesHold(cfg, Next(cfg, s, acts[0]), acts[1..]);
    }
  }
}
