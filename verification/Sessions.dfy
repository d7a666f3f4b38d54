/** Sessions as the session stores see them, and what each store's calls do to its tables. */
module Sessions {
  import opened Basics

  type Time = int
  type SidHash = string
  type UserId = string

  /** What rides along untouched; `deviceId` is the fact `sessionBoundDeviceId` reads back. */
  datatype Meta = Meta(deviceId: Option<string>, rest: string)

  /** TTLs in milliseconds. */
  datatype NewSession = NewSession(userId: UserId, idleTtlMs: int, absoluteTtlMs: int, meta: Meta)

  /** What `get` returns. */
  datatype StoreSession = StoreSession(
    userId: UserId, createdAt: Time, lastSeenAt: Time, idleExpiresAt: Time, absoluteExpiresAt: Time, meta: Meta)

  predicate ValidTtls(n: NewSession) { n.idleTtlMs > 0 && n.absoluteTtlMs > 0 }

  /** `Math.max(60, Math.ceil(ms / 1000))` seconds, in milliseconds. */
  function KvTtlMs(ms: int): int { Max(60, CeilSeconds(ms)) * 1000 }

  // ----- the revocation list (src/store/revocation.ts) -----

  datatype RevocationRows = RevocationRows(tombstones: map<SidHash, Time>, markers: map<UserId, Time>)

  function Tombstone(l: RevocationRows, h: SidHash, expiresAt: Time): RevocationRows {
    l.(tombstones := l.tombstones[h := if h in l.tombstones then Max(l.tombstones[h], expiresAt) else expiresAt])
  }

  function Mark(l: RevocationRows, u: UserId, revokedBefore: Time): RevocationRows {
    l.(markers := l.markers[u := if u in l.markers then Max(l.markers[u], revokedBefore) else revokedBefore])
  }

  predicate IsRevoked(l: RevocationRows, h: SidHash, u: UserId, createdAt: Time, now: Time) {
    (h in l.tombstones && l.tombstones[h] > now) || (u in l.markers && l.markers[u] > createdAt)
  }

  function SweptList(l: RevocationRows, cutoff: Time, maxLifetimeMs: int): RevocationRows {
    RevocationRows(map h | h in l.tombstones && l.tombstones[h] > cutoff :: l.tombstones[h],
                   map u | u in l.markers && l.markers[u] > cutoff - maxLifetimeMs :: l.markers[u])
  }

  // ----- the D1 store (src/store/d1.ts) -----

  type Rows = map<SidHash, StoreSession>

  function D1Row(n: NewSession, at: Time): StoreSession {
    StoreSession(n.userId, at, at, Min(at + n.idleTtlMs, at + n.absoluteTtlMs), at + n.absoluteTtlMs, n.meta)
  }

  predicate Expired(row: StoreSession, at: Time) { at >= row.idleExpiresAt || at >= row.absoluteExpiresAt }

  function D1Get(rows: Rows, h: SidHash, at: Time): Option<StoreSession> {
    if h in rows && !Expired(rows[h], at) then Some(rows[h]) else None
  }

  /** A get deletes the row it found expired. */
  function D1AfterGet(rows: Rows, h: SidHash, at: Time): Rows {
    if h in rows && Expired(rows[h], at) then rows - {h} else rows
  }

  function D1Touch(rows: Rows, h: SidHash, at: Time, idleExpiresAt: Time): Rows {
    if h in rows && !Expired(rows[h], at)
    then rows[h := rows[h].(lastSeenAt := at, idleExpiresAt := Min(idleExpiresAt, rows[h].absoluteExpiresAt))]
    else rows
  }

  function D1RevokeAll(rows: Rows, u: UserId): Rows { map h | h in rows && rows[h].userId != u :: rows[h] }

  function D1Swept(rows: Rows, cutoff: Time): Rows { map h | h in rows && !Expired(rows[h], cutoff) :: rows[h] }

  // ----- the KV store (src/store/kv.ts) -----

  datatype Stored = Stored(version: int, userId: UserId, createdAt: Time, absoluteExpiresAt: Time, idleTtlMs: int, meta: Meta)

  datatype Marker = Marker(expires: Time, seen: Time)

  const RECORD_VERSION := 2

  const TOUCH_GUARD_MAX := 4096

  function NewRecord(n: NewSession, at: Time): Stored {
    Stored(RECORD_VERSION, n.userId, at, at + n.absoluteTtlMs, n.idleTtlMs, n.meta)
  }

  function KvIdleExpiry(record: Stored, marker: Option<Marker>): Time {
    Min(if marker.Some? then marker.value.expires else record.createdAt + record.idleTtlMs, record.absoluteExpiresAt)
  }

  function KvSession(record: Stored, marker: Option<Marker>): StoreSession {
    StoreSession(record.userId, record.createdAt, if marker.Some? then marker.value.seen else record.createdAt,
                 KvIdleExpiry(record, marker), record.absoluteExpiresAt, record.meta)
  }

  datatype KvAnswer = KvAnswer(session: Option<StoreSession>, forget: bool)

  /** `get`, from what its two reads returned; `at` and `listAt` are its own and the revocation list's reading. */
  function KvGet(record: Option<Stored>, marker: Option<Marker>, list: Option<RevocationRows>, h: SidHash, at: Time,
      listAt: Time)
    : KvAnswer
  {
    if record.None? || record.value.version != RECORD_VERSION then KvAnswer(None, false)
    else
      var r := record.value;
      if at >= r.absoluteExpiresAt || at >= KvIdleExpiry(r, marker) then KvAnswer(None, true)
      else if list.Some? && IsRevoked(list.value, h, r.userId, r.createdAt, listAt) then KvAnswer(None, false)
      else KvAnswer(Some(KvSession(r, marker)), false)
  }
}
