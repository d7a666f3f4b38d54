/** The session store objects (src/store/revocation.ts, d1.ts, kv.ts, src/device-auth/sessions.ts). */
module SessionStores {
  import opened Basics
  import opened Sessions
  import opened KvAgrees
  import opened SessionFacts
  import Routes
  import Tables
  import DeviceSessions
  import opened DeviceStore

  class RevocationList {
    const maxLifetimeMs: int
    var tombstones: map<SidHash, Time>
    var markers: map<UserId, Time>

    ghost function Contents(): RevocationRows
      reads this
    {
      RevocationRows(tombstones, markers)
    }

    constructor (maxLifetimeMs: int)
      ensures Contents() == RevocationRows(map[], map[]) && this.maxLifetimeMs == maxLifetimeMs
    {
      this.maxLifetimeMs, tombstones, markers := maxLifetimeMs, map[], map[];
    }

    method Asks(h: SidHash, u: UserId, createdAt: Time, now: Time) returns (hit: bool)
      ensures hit == IsRevoked(Contents(), h, u, createdAt, now)
      ensures hit <==> Denies(Some(Contents()), h, u, createdAt, now)
    {
      hit := h in tombstones && tombstones[h] > now;
      if !hit { hit := u in markers && markers[u] > createdAt; }
    }

    method Revoke(h: SidHash, expiresAt: Time)
      modifies this`tombstones
      ensures Contents() == Tombstone(old(Contents()), h, expiresAt)
      ensures AllEntombed(old(tombstones), tombstones, [(h, expiresAt)])
    {
      OneMoreEntombed(tombstones, Contents(), [], h, expiresAt);
      assert [] + [(h, expiresAt)] == [(h, expiresAt)];
      if h !in tombstones || tombstones[h] < expiresAt { tombstones := tombstones[h := expiresAt]; }
      assert h in old(tombstones) && old(tombstones)[h] >= expiresAt ==> tombstones == tombstones[h := tombstones[h]];
    }

    /** One batch of the same upsert. */
    method RevokeMany(entries: seq<(SidHash, Time)>)
      modifies this`tombstones
      ensures AllEntombed(old(tombstones), tombstones, entries)
    {
      for i := 0 to |entries|
        invariant markers == old(markers) && AllEntombed(old(tombstones), tombstones, entries[..i])
      {
        OneMoreEntombed(old(tombstones), Contents(), entries[..i], entries[i].0, entries[i].1);
        Revoke(entries[i].0, entries[i].1);
        assert entries[..i + 1] == entries[..i] + [(entries[i].0, entries[i].1)];
      }
      assert entries[..|entries|] == entries;
    }

    method RevokeUser(u: UserId, revokedBefore: Time)
      modifies this`markers
      ensures Contents() == Mark(old(Contents()), u, revokedBefore)
      ensures OneMarked(old(markers), markers, u, revokedBefore)
    {
      MarksOne(Contents(), u, revokedBefore);
      var cutoff := revokedBefore;
      if u in markers && markers[u] > cutoff { cutoff := markers[u]; }
      markers := markers[u := cutoff];
    }

    method Cleanup(cutoff: Time)
      modifies this
      ensures Contents() == SweptList(old(Contents()), cutoff, maxLifetimeMs)
      ensures ListLeft(old(Contents()), Contents(), cutoff, maxLifetimeMs)
    {
      SweepsList(Contents(), cutoff, maxLifetimeMs);
      tombstones := map h | h in tombstones && !(tombstones[h] <= cutoff) :: tombstones[h];
      markers := map u | u in markers && !(markers[u] <= cutoff - maxLifetimeMs) :: markers[u];
      assert Contents() == SweptList(old(Contents()), cutoff, maxLifetimeMs);
    }
  }

  predicate IsOf(rows: Rows, h: SidHash, u: UserId) { h in rows && rows[h].userId == u }

  /** The calls of a D1 store, by what they do to its rows. */
  datatype D1Call =
    | Create(h: SidHash, n: NewSession, at: Time)
    | Get(h: SidHash, at: Time, denied: bool)   // `denied`: by the attached list, before the row's expiries are looked at
    | Touch(h: SidHash, at: Time, idleExpiresAt: Time)
    | Revoke(h: SidHash)
    | RevokeAllForUser(u: UserId)
    | Cleanup(cutoff: Time)

  function D1Next(rows: Rows, call: D1Call): Rows {
    match call
    case Create(h, n, at) => if ValidTtls(n) then rows[h := D1Row(n, at)] else rows
    case Get(h, at, denied) => if denied then rows else D1AfterGet(rows, h, at)
    case Touch(h, at, idle) => D1Touch(rows, h, at, idle)
    case Revoke(h) => rows - {h}
    case RevokeAllForUser(u) => D1RevokeAll(rows, u)
    case Cleanup(cutoff) => D1Swept(rows, cutoff)
  }

  function D1After(rows: Rows, calls: seq<D1Call>): Rows
    decreases |calls|
  {
    if calls == [] then rows else D1After(D1Next(rows, calls[0]), calls[1..])
  }

  /** Ids are drawn at random: the session is not created a second time. */
  predicate NeverCreated(calls: seq<D1Call>, h: SidHash) {
    forall i :: 0 <= i < |calls| && calls[i].Create? ==> calls[i].h != h
  }

  lemma {:induction false} AbsentStaysAbsent(rows: Rows, calls: seq<D1Call>, h: SidHash)
    requires h !in rows && NeverCreated(calls, h)
    ensures h !in D1After(rows, calls)
    decreases |calls|
  {
    if calls != [] {
      AbsentStaysAbsent(D1Next(rows, calls[0]), calls[1..], h);
    }
  }

  /**
   * A session logged out, by itself or with its user, is found by no later
   * reading, whatever touches, gets and sweeps come in between: a touch is an
   * UPDATE, and an UPDATE brings no row back.
   */
  lemma RevokedRowNeverReturns(before: Rows, revocation: D1Call, after: seq<D1Call>, h: SidHash, at: Time)
    requires revocation == D1Call.Revoke(h) || (revocation.RevokeAllForUser? && IsOf(before, h, revocation.u))
    requires NeverCreated(after, h)
    ensures D1Get(D1After(D1Next(before, revocation), after), h, at).None?
  {
    AbsentStaysAbsent(D1Next(before, revocation), after, h);
  }

  /** The attached list, if any, denies the row before its expiries are looked at. */
  predicate D1Denied(rows: Rows, list: Option<RevocationRows>, h: SidHash, listAt: Time) {
    h in rows && list.Some? && IsRevoked(list.value, h, rows[h].userId, rows[h].createdAt, listAt)
  }

  function D1Ask(rows: Rows, list: Option<RevocationRows>, h: SidHash, at: Time, listAt: Time): Option<StoreSession> {
    if D1Denied(rows, list, h, listAt) then None else D1Get(rows, h, at)
  }

  class D1SessionStore {
    /** Optional: shared with another store, to log sessions out of both. */
    const list: RevocationList?
    var rows: Rows

    ghost function Listed(): Option<RevocationRows>
      reads this, list
    {
      if list == null then None else Some(list.Contents())
    }

    ghost function Repr(): set<object> { if list == null then {this} else {this, list} }

    constructor (list: RevocationList?)
      ensures this.list == list && rows == map[]
    {
      this.list, rows := list, map[];
    }

    /** Nothing when a TTL is not positive: the call throws. */
    method Create(h: SidHash, n: NewSession, at: Time) returns (session: Option<StoreSession>)
      modifies this`rows
      ensures if ValidTtls(n) then session == Some(D1Row(n, at)) && rows == old(rows)[h := D1Row(n, at)]
              else session.None? && rows == old(rows)
      ensures session.Some? <==> n.idleTtlMs > 0 && n.absoluteTtlMs > 0
      ensures session.Some? ==> Fresh(session.value, n, at) && rows == old(rows)[h := session.value]
    {
      if n.idleTtlMs <= 0 || n.absoluteTtlMs <= 0 { return None; }
      var absoluteExpiresAt := at + n.absoluteTtlMs;
      var row := StoreSession(n.userId, at, at, Min(at + n.idleTtlMs, absoluteExpiresAt), absoluteExpiresAt, n.meta);
      rows := rows[h := row];
      session := Some(row);
    }

    /** `listAt` is the attached list's own reading. */
    method Get(h: SidHash, at: Time, listAt: Time) returns (session: Option<StoreSession>)
      modifies this`rows
      ensures session == D1Ask(old(rows), Listed(), h, at, listAt)
      ensures RowAnswers(old(rows), Listed(), h, at, listAt, session)
      ensures rows == if D1Denied(old(rows), Listed(), h, listAt) then old(rows) else D1AfterGet(old(rows), h, at)
    {
      if h !in rows { return None; }
      var row := rows[h];
      if list != null {
        var denied := list.Asks(h, row.userId, row.createdAt, listAt);
        if denied { return None; }
      }
      if at >= row.idleExpiresAt || at >= row.absoluteExpiresAt {
        rows := rows - {h};
        return None;
      }
      session := Some(row);
    }

    method Touch(h: SidHash, at: Time, idleExpiresAt: Time)
      modifies this`rows
      ensures rows == D1Touch(old(rows), h, at, idleExpiresAt)
      ensures RowTouched(old(rows), rows, h, at, idleExpiresAt)
    {
      TouchesRow(rows, h, at, idleExpiresAt);
      if h in rows && rows[h].idleExpiresAt > at && rows[h].absoluteExpiresAt > at {
        var row := rows[h];
        rows := rows[h := row.(lastSeenAt := at, idleExpiresAt := Min(idleExpiresAt, row.absoluteExpiresAt))];
      }
    }

    /** A tombstone in the attached list first, for a row that is there; then the row goes, and no reading finds it. */
    method Revoke(h: SidHash)
      modifies Repr()
      ensures rows == old(rows) - {h}
      ensures Listed() == if old(Listed()).Some? && h in old(rows)
        then Some(Tombstone(old(Listed()).value, h, old(rows)[h].absoluteExpiresAt)) else old(Listed())
      ensures forall k, at, listAt ::
        D1Ask(rows, Listed(), k, at, listAt)
        == if k == h then None else D1Ask(old(rows), old(Listed()), k, at, listAt)
    {
      if list != null && h in rows { list.Revoke(h, rows[h].absoluteExpiresAt); }
      rows := rows - {h};
    }

    /** The user's marker in the attached list, then the rows: no reading finds a session of the user. */
    method RevokeAllForUser(u: UserId, at: Time)
      modifies Repr()
      ensures rows == D1RevokeAll(old(rows), u)
      ensures Listed() == if old(Listed()).Some? then Some(Mark(old(Listed()).value, u, at + 1)) else None
      ensures forall k, when, listAt ::
        D1Ask(rows, Listed(), k, when, listAt)
        == if IsOf(old(rows), k, u) then None else D1Ask(old(rows), old(Listed()), k, when, listAt)
    {
      if list != null { list.RevokeUser(u, at + 1); }
      rows := map h | h in rows && rows[h].userId != u :: rows[h];
    }

    /** Two deletes; a row the first removed is not there for the second. */
    method Cleanup(cutoff: Time) returns (removed: nat)
      modifies this`rows
      ensures rows == D1Swept(old(rows), cutoff) && removed == |old(rows)| - |rows|
      ensures RowsLeft(old(rows), rows, cutoff)
    {
      SweepsRows(rows, cutoff);
      var byAbsolute := map h | h in rows && !(rows[h].absoluteExpiresAt <= cutoff) :: rows[h];
      var byIdle := map h | h in byAbsolute && !(byAbsolute[h].idleExpiresAt <= cutoff) :: byAbsolute[h];
      Fewer(rows, byAbsolute);
      Fewer(byAbsolute, byIdle);
      removed := (|rows| - |byAbsolute|) + (|byAbsolute| - |byIdle|);
      rows := byIdle;
      assert rows == D1Swept(old(rows), cutoff);
    }
  }

  class KvSessionStore {
    const throttleMs: int
    const fallbackMs: int
    const list: RevocationList
    var records: map<SidHash, Kept<Stored>>
    var seen: map<SidHash, Kept<Marker>>
    var guard: map<SidHash, Time>

    ghost function Contents(): Kv
      reads this, list
    {
      Kv(records, seen, guard, list.Contents())
    }

    constructor (list: RevocationList, throttleMs: int, fallbackMs: int)
      ensures this.list == list && this.throttleMs == throttleMs && this.fallbackMs == fallbackMs
      ensures Contents() == Kv(map[], map[], map[], list.Contents())
    {
      this.list, this.throttleMs, this.fallbackMs := list, throttleMs, fallbackMs;
      records, seen, guard := map[], map[], map[];
    }

    method Create(h: SidHash, n: NewSession, at: Time) returns (session: Option<StoreSession>)
      modifies this
      ensures if ValidTtls(n) then session == Some(D1Row(n, at)) && Contents() == KvCreate(old(Contents()), h, n, at)
              else session.None? && Contents() == old(Contents())
      ensures session.Some? <==> n.idleTtlMs > 0 && n.absoluteTtlMs > 0
      ensures session.Some? ==>
        && Fresh(session.value, n, at) && h in records && KeptFor(records[h].dropAt, at, n.absoluteTtlMs)
    {
      if n.idleTtlMs <= 0 || n.absoluteTtlMs <= 0 { return None; }
      TtlCovers(at, n.absoluteTtlMs);
      var absoluteExpiresAt := at + n.absoluteTtlMs;
      var record := Stored(RECORD_VERSION, n.userId, at, absoluteExpiresAt, n.idleTtlMs, n.meta);
      records := records[h := Kept(record, at + KvTtlMs(absoluteExpiresAt - at))];
      assert absoluteExpiresAt - at == n.absoluteTtlMs;
      session := Some(StoreSession(n.userId, at, at, Min(at + n.idleTtlMs, absoluteExpiresAt), absoluteExpiresAt, n.meta));
    }

    method Forget(h: SidHash)
      modifies this`records, this`seen
      ensures Contents() == KvAgrees.Forget(old(Contents()), h)
    {
      records := records - {h};
      seen := seen - {h};
    }

    /** `listAt` is the revocation list's own reading. */
    method Get(h: SidHash, at: Time, listAt: Time) returns (session: Option<StoreSession>)
      modifies this`records, this`seen
      ensures var was := old(Contents());
        var answer := KvGet(RecordOf(was, h), MarkerOf(was, h), Some(was.list), h, at, listAt);
        session == answer.session && Contents() == if answer.forget then KvAgrees.Forget(was, h) else was
      ensures KvAnswers(old(Contents()), h, at, listAt, session)
    {
      if h !in records { return None; }
      var record := records[h].value;
      if record.version != RECORD_VERSION { return None; }
      if at >= record.absoluteExpiresAt {
        Forget(h);
        return None;
      }
      var idleExpiresAt, lastSeenAt := record.createdAt + record.idleTtlMs, record.createdAt;
      if h in seen { idleExpiresAt, lastSeenAt := seen[h].value.expires, seen[h].value.seen; }
      idleExpiresAt := Min(idleExpiresAt, record.absoluteExpiresAt);
      if at >= idleExpiresAt {
        Forget(h);
        return None;
      }
      var revoked := list.Asks(h, record.userId, record.createdAt, listAt);
      if revoked { return None; }
      session := Some(StoreSession(record.userId, record.createdAt, lastSeenAt, idleExpiresAt, record.absoluteExpiresAt, record.meta));
    }

    method Touch(h: SidHash, at: Time, idleExpiresAt: Time)
      modifies this`seen, this`guard
      ensures Contents() == KvTouch(old(Contents()), h, at, idleExpiresAt, throttleMs)
      ensures KvTouched(old(Contents()), Contents(), h, at, idleExpiresAt, throttleMs)
    {
      TouchesInKv(Contents(), h, at, idleExpiresAt, throttleMs);
      if idleExpiresAt <= at { return; }
      if h in guard && at - guard[h] < throttleMs { return; }
      if |guard| >= TOUCH_GUARD_MAX { guard := map[]; }
      guard := guard[h := at];
      seen := seen[h := Kept(Marker(idleExpiresAt, at), at + KvTtlMs(idleExpiresAt - at))];
    }

    /** Tombstone first, then both keys. */
    method Revoke(h: SidHash, at: Time)
      modifies this`records, this`seen, list`tombstones
      ensures Contents() == KvRevoke(old(Contents()), h, at, fallbackMs)
      ensures KvRevoked(old(Contents()), Contents(), h, at, fallbackMs)
    {
      RevokesInKv(Contents(), h, at, fallbackMs);
      var expiresAt := at + fallbackMs;
      if h in records { expiresAt := records[h].value.absoluteExpiresAt; }
      list.Revoke(h, expiresAt);
      Forget(h);
    }

    method RevokeAllForUser(u: UserId, at: Time)
      modifies list`markers
      ensures Contents() == old(Contents()).(list := Mark(old(list.Contents()), u, at + 1))
    {
      list.RevokeUser(u, at + 1);
    }
  }

  /** The store a wrapper is laid over. */
  datatype Inner = OnRows(d1: D1SessionStore) | OnKv(kv: KvSessionStore)

  ghost function ReprOf(inner: Inner): set<object> {
    match inner case OnRows(d1) => d1.Repr() case OnKv(kv) => {kv, kv.list}
  }

  /** What the inner store answers. */
  ghost function Answered(inner: Inner, h: SidHash, at: Time, listAt: Time): Option<StoreSession>
    reads ReprOf(inner)
  {
    match inner
    case OnRows(d1) => D1Ask(d1.rows, d1.Listed(), h, at, listAt)
    case OnKv(kv) => KvGet(RecordOf(kv.Contents(), h), MarkerOf(kv.Contents(), h), Some(kv.list.Contents()), h, at, listAt).session
  }

  /** Its tables, for either kind. */
  datatype Held = RowsHeld(rows: Rows, list: Option<RevocationRows>) | KvHeld(kv: Kv)

  ghost function Holding(inner: Inner): Held
    reads ReprOf(inner)
  {
    match inner case OnRows(d1) => RowsHeld(d1.rows, d1.Listed()) case OnKv(kv) => KvHeld(kv.Contents())
  }

  /** What its `get` leaves behind, and then its `revoke`. */
  function AfterGet(was: Held, h: SidHash, at: Time, listAt: Time): Held {
    match was
    case RowsHeld(rows, list) => if D1Denied(rows, list, h, listAt) then was else RowsHeld(D1AfterGet(rows, h, at), list)
    case KvHeld(kv) =>
      var answer := KvGet(RecordOf(kv, h), MarkerOf(kv, h), Some(kv.list), h, at, listAt);
      KvHeld(if answer.forget then KvAgrees.Forget(kv, h) else kv)
  }

  function AfterRevoke(was: Held, h: SidHash, at: Time, fallbackMs: int): Held {
    match was
    case RowsHeld(rows, list) =>
      RowsHeld(rows - {h}, if list.Some? && h in rows then Some(Tombstone(list.value, h, rows[h].absoluteExpiresAt)) else list)
    case KvHeld(kv) => KvHeld(KvRevoke(kv, h, at, fallbackMs))
  }

  function FallbackOf(inner: Inner): int { if inner.OnKv? then inner.kv.fallbackMs else 0 }

  method GetFrom(inner: Inner, h: SidHash, at: Time, listAt: Time) returns (session: Option<StoreSession>)
    modifies ReprOf(inner)
    ensures session == old(Answered(inner, h, at, listAt))
    ensures Holding(inner) == AfterGet(old(Holding(inner)), h, at, listAt)
  {
    match inner
    case OnRows(d1) => session := d1.Get(h, at, listAt);
    case OnKv(kv) => session := kv.Get(h, at, listAt);
  }

  method RevokeFrom(inner: Inner, h: SidHash, at: Time)
    modifies ReprOf(inner)
    ensures Holding(inner) == AfterRevoke(old(Holding(inner)), h, at, FallbackOf(inner))
  {
    match inner
    case OnRows(d1) => d1.Revoke(h);
    case OnKv(kv) => kv.Revoke(h, at);
  }

  /** A session bound to no device, or to one of its user's that is there, unrevoked and inside both expiries. */
  predicate Serves(devices: map<Tables.DeviceId, Tables.DeviceRow>, session: StoreSession, at: Time) {
    session.meta.deviceId.None? ||
    (var d := session.meta.deviceId.value;
     && d in devices && devices[d].accountId == session.userId && devices[d].revokedAt.None?
     && at < devices[d].idleExpiresAt && at < devices[d].absoluteExpiresAt)
  }

  /** `deviceBoundSessionStore` over either session store. */
  class DeviceBoundSessionStore {
    const inner: Inner
    const devices: DeviceAuthStore

    constructor (inner: Inner, devices: DeviceAuthStore)
      ensures this.inner == inner && this.devices == devices
    {
      this.inner, this.devices := inner, devices;
    }

    /** The inner store's readings, and this wrapper's after the device lookup. */
    method Get(h: SidHash, innerAt: Time, listAt: Time, at: Time) returns (session: Option<StoreSession>)
      modifies ReprOf(inner)
      ensures var found, got := old(Answered(inner, h, innerAt, listAt)), AfterGet(old(Holding(inner)), h, innerAt, listAt);
        var answer := DeviceSessions.BoundGet(Facts(found), devices.devices, at);
        && session == (if answer.session.Some? then found else None)
        && Holding(inner) == if answer.revoked then AfterRevoke(got, h, at, FallbackOf(inner)) else got
      ensures var found, got := old(Answered(inner, h, innerAt, listAt)), AfterGet(old(Holding(inner)), h, innerAt, listAt);
        var served := found.Some? && Serves(devices.devices, found.value, at);
        && session == (if served then found else None)
        && Holding(inner) == if found.Some? && !served then AfterRevoke(got, h, at, FallbackOf(inner)) else got
    {
      session := GetFrom(inner, h, innerAt, listAt);
      if session.None? || session.value.meta.deviceId.None? { return; }
      var device := devices.FindDevice(session.value.meta.deviceId.value);
      if device.Some? && device.value.accountId == session.value.userId && device.value.revokedAt.None?
         && at < device.value.idleExpiresAt && at < device.value.absoluteExpiresAt { return; }
      RevokeFrom(inner, h, at);
      session := None;
    }
  }

  /**
   * A session refused for its device does not come back: on D1 its row is
   * gone; on KV its record's key is, and its tombstone denies any stale copy
   * of it until it ends.
   */
  lemma RefusedStaysRefused(was: Held, h: SidHash, at: Time, fallbackMs: int, when: Time, listAt: Time)
    ensures var after := AfterRevoke(was, h, at, fallbackMs);
      && (after.RowsHeld? ==> D1Ask(after.rows, after.list, h, when, listAt).None?)
      && (after.KvHeld? ==> KvGet(RecordOf(after.kv, h), MarkerOf(after.kv, h), Some(after.kv.list), h, when, listAt).session.None?)
      && (after.KvHeld? && h in was.kv.records && listAt < was.kv.records[h].value.absoluteExpiresAt ==>
            forall marker ::
              KvGet(Some(was.kv.records[h].value), marker, Some(after.kv.list), h, when, listAt).session.None?)
  {}

  /** The two facts of a session the wrapper looks at. */
  function Facts(found: Option<StoreSession>): Option<Routes.Session> {
    if found.Some? then Some(Routes.Session(found.value.userId, None, found.value.meta.deviceId)) else None
  }

  /** The middleware's rule on top of either store: get, then touch when the last touch is old enough. */
  method VisitRows(p: Policy, store: D1SessionStore, h: SidHash, at: Time) returns (session: Option<StoreSession>)
    requires store.list == null
    modifies store`rows
    ensures session == D1Get(old(store.rows), h, at) && store.rows == KvAgrees.VisitRows(p, old(store.rows), h, at)
    ensures session.Some? ==>
      if at < session.value.lastSeenAt + p.touchIntervalMs then store.rows == old(store.rows)
      else RowTouched(old(store.rows), store.rows, h, at, at + p.touchIdleMs)
  {
    session := store.Get(h, at, at);
    if session.Some? && at - session.value.lastSeenAt >= p.touchIntervalMs { store.Touch(h, at, at + p.touchIdleMs); }
  }

  method VisitKv(p: Policy, store: KvSessionStore, h: SidHash, at: Time) returns (session: Option<StoreSession>)
    requires store.throttleMs == p.throttleMs
    modifies store`records, store`seen, store`guard
    ensures session == KvView(old(store.Contents()), h, at).session
    ensures store.Contents() == KvAgrees.VisitKv(p, old(store.Contents()), h, at)
    ensures session.Some? ==>
      if at < session.value.lastSeenAt + p.touchIntervalMs then store.Contents() == old(store.Contents())
      else KvTouched(old(store.Contents()), store.Contents(), h, at, at + p.touchIdleMs, p.throttleMs)
  {
    session := store.Get(h, at, at);
    if session.Some? && at - session.value.lastSeenAt >= p.touchIntervalMs { store.Touch(h, at, at + p.touchIdleMs); }
  }
}
