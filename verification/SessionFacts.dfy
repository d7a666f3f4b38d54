/**
 * What the calls of the session stores answer and leave
 * (src/store/revocation.ts:59-117, src/store/d1.ts:111-240,
 * src/store/kv.ts:110-292), row by row and in terms of the columns alone.
 */
module SessionFacts {
  import opened Basics
  import opened Sessions
  import opened KvAgrees

  // ----- the revocation list -----

  /** Some entry asks for this tombstone until this moment. */
  predicate Asked(entries: seq<(SidHash, Time)>, h: SidHash, until: Time) {
    exists i :: 0 <= i < |entries| && entries[i] == (h, until)
  }

  /**
   * Every tombstone there was, or asked for, is there until the latest of the
   * moments it stood until and was asked for; no other is.
   */
  ghost predicate AllEntombed(before: map<SidHash, Time>, after: map<SidHash, Time>, entries: seq<(SidHash, Time)>) {
    && (forall h :: h in before ==> h in after && before[h] <= after[h])
    && (forall i :: 0 <= i < |entries| ==> entries[i].0 in after && entries[i].1 <= after[entries[i].0])
    && (forall h :: h in after ==> (h in before && before[h] == after[h]) || Asked(entries, h, after[h]))
  }

  lemma OneMoreEntombed(before: map<SidHash, Time>, mid: RevocationRows, entries: seq<(SidHash, Time)>, h: SidHash,
      until: Time)
    requires AllEntombed(before, mid.tombstones, entries)
    ensures AllEntombed(before, Tombstone(mid, h, until).tombstones, entries + [(h, until)])
  {
    var after, all := Tombstone(mid, h, until).tombstones, entries + [(h, until)];
    assert all[|entries|] == (h, until);
    forall k | k in after ensures (k in before && before[k] == after[k]) || Asked(all, k, after[k]) {
      if k in mid.tombstones && mid.tombstones[k] == after[k] && Asked(entries, k, after[k]) {
        var i :| 0 <= i < |entries| && entries[i] == (k, after[k]);
        assert all[i] == (k, after[k]);
      }
    }
    forall i | 0 <= i < |all| ensures all[i].0 in after && all[i].1 <= after[all[i].0] {
      if i < |entries| { assert all[i] == entries[i]; }
    }
  }

  /** The user's marker is the later of the two moments, and no other marker moves. */
  ghost predicate OneMarked(before: map<UserId, Time>, after: map<UserId, Time>, u: UserId, until: Time) {
    && after.Keys == before.Keys + {u} && until <= after[u]
    && (u in before ==> before[u] <= after[u]) && (after[u] == until || (u in before && after[u] == before[u]))
    && (forall v :: v in before && v != u ==> after[v] == before[v])
  }

  lemma MarksOne(l: RevocationRows, u: UserId, until: Time)
    ensures OneMarked(l.markers, Mark(l, u, until).markers, u, until)
  {}

  /** A tombstone standing at `now`, or a log-out of the user after the session was created. */
  predicate Denies(list: Option<RevocationRows>, h: SidHash, u: UserId, createdAt: Time, now: Time) {
    list.Some? &&
    (|| (h in list.value.tombstones && now < list.value.tombstones[h])
     || (u in list.value.markers && createdAt < list.value.markers[u]))
  }

  /** Tombstones past the cutoff go, markers a lifetime later; the rest stay as they are. */
  ghost predicate ListLeft(before: RevocationRows, after: RevocationRows, cutoff: Time, lifetimeMs: int) {
    && (forall h :: h in after.tombstones <==> h in before.tombstones && cutoff < before.tombstones[h])
    && (forall h :: h in after.tombstones ==> after.tombstones[h] == before.tombstones[h])
    && (forall u :: u in after.markers <==> u in before.markers && cutoff < before.markers[u] + lifetimeMs)
    && (forall u :: u in after.markers ==> after.markers[u] == before.markers[u])
  }

  lemma SweepsList(l: RevocationRows, cutoff: Time, lifetimeMs: int)
    ensures ListLeft(l, SweptList(l, cutoff, lifetimeMs), cutoff, lifetimeMs)
  {}

  // ----- the D1 store -----

  /** The row, while it is inside both expiries and not denied. */
  predicate RowAnswers(rows: Rows, list: Option<RevocationRows>, h: SidHash, at: Time, listAt: Time,
      session: Option<StoreSession>)
  {
    && (session.Some? <==>
          && h in rows && at < rows[h].idleExpiresAt && at < rows[h].absoluteExpiresAt
          && !Denies(list, h, rows[h].userId, rows[h].createdAt, listAt))
    && (session.Some? ==> session.value == rows[h])
  }

  /** A session's columns when it is created: both expiries from now, the idle one never past the absolute one. */
  predicate Fresh(session: StoreSession, n: NewSession, at: Time) {
    && n.idleTtlMs > 0 && n.absoluteTtlMs > 0 && session.userId == n.userId && session.meta == n.meta
    && session.createdAt == at && session.lastSeenAt == at && session.absoluteExpiresAt == at + n.absoluteTtlMs
    && session.idleExpiresAt <= at + n.idleTtlMs && session.idleExpiresAt <= session.absoluteExpiresAt
    && (session.idleExpiresAt == at + n.idleTtlMs || session.idleExpiresAt == session.absoluteExpiresAt)
  }

  /** A row inside both expiries is seen now and slides, at most to its absolute expiry; no other row changes. */
  ghost predicate RowTouched(before: Rows, after: Rows, h: SidHash, at: Time, idleExpiresAt: Time) {
    if h in before && at < before[h].idleExpiresAt && at < before[h].absoluteExpiresAt then
      && h in after && after == before[h := before[h].(lastSeenAt := at, idleExpiresAt := after[h].idleExpiresAt)]
      && after[h].idleExpiresAt <= idleExpiresAt && after[h].idleExpiresAt <= before[h].absoluteExpiresAt
      && (after[h].idleExpiresAt == idleExpiresAt || after[h].idleExpiresAt == before[h].absoluteExpiresAt)
    else after == before
  }

  lemma TouchesRow(rows: Rows, h: SidHash, at: Time, idleExpiresAt: Time)
    ensures RowTouched(rows, D1Touch(rows, h, at, idleExpiresAt), h, at, idleExpiresAt)
  {
    var after := D1Touch(rows, h, at, idleExpiresAt);
    if h in rows { assert after == rows[h := after[h]]; }
  }

  /** Exactly the rows inside both expiries stay, unchanged. */
  ghost predicate RowsLeft(before: Rows, after: Rows, cutoff: Time) {
    && (forall h :: h in after <==>
          h in before && cutoff < before[h].idleExpiresAt && cutoff < before[h].absoluteExpiresAt)
    && (forall h :: h in after ==> after[h] == before[h])
  }

  lemma SweepsRows(rows: Rows, cutoff: Time)
    ensures RowsLeft(rows, D1Swept(rows, cutoff), cutoff)
  {}

  // ----- the KV store -----

  /** The record of the current format, inside its absolute expiry and its idle window, and not denied. */
  predicate KvAnswers(kv: Kv, h: SidHash, at: Time, listAt: Time, session: Option<StoreSession>) {
    && (session.Some? <==>
          && h in kv.records && kv.records[h].value.version == 2
          && at < kv.records[h].value.absoluteExpiresAt
          && at < (if h in kv.seen then kv.seen[h].value.expires
                   else kv.records[h].value.createdAt + kv.records[h].value.idleTtlMs)
          && !Denies(Some(kv.list), h, kv.records[h].value.userId, kv.records[h].value.createdAt, listAt))
    && (session.Some? ==>
          var r, seen := kv.records[h].value, h in kv.seen;
          && session.value.userId == r.userId && session.value.createdAt == r.createdAt && session.value.meta == r.meta
          && session.value.absoluteExpiresAt == r.absoluteExpiresAt
          && session.value.lastSeenAt == (if seen then kv.seen[h].value.seen else r.createdAt)
          && session.value.idleExpiresAt
             == Min(if seen then kv.seen[h].value.expires else r.createdAt + r.idleTtlMs, r.absoluteExpiresAt))
  }

  /** Kept for whole seconds, at least sixty, that cover `ms` and no second more. */
  predicate KeptFor(dropAt: Time, at: Time, ms: int) {
    var kept := dropAt - at;
    kept % 1000 == 0 && kept >= 60_000 && kept >= ms && (kept > 60_000 ==> kept - 1000 < ms)
  }

  lemma TtlCovers(at: Time, ms: int)
    ensures KeptFor(at + KvTtlMs(ms), at, ms)
  {
    assert (Max(60, CeilSeconds(ms)) * 1000) % 1000 == 0;
  }

  /** Both keys are gone; the tombstone stands until the session's end, or for the fallback time without a record. */
  ghost predicate KvRevoked(before: Kv, after: Kv, h: SidHash, at: Time, fallbackMs: int) {
    var until := if h in before.records then before.records[h].value.absoluteExpiresAt else at + fallbackMs;
    && h !in after.records && h !in after.seen
    && (forall k :: k != h ==> (k in after.records <==> k in before.records) && (k in after.seen <==> k in before.seen))
    && (forall k :: k != h && k in before.records ==> after.records[k] == before.records[k])
    && (forall k :: k != h && k in before.seen ==> after.seen[k] == before.seen[k])
    && AllEntombed(before.list.tombstones, after.list.tombstones, [(h, until)])
    && after.list.markers == before.list.markers && after.guard == before.guard
  }

  lemma RevokesInKv(kv: Kv, h: SidHash, at: Time, fallbackMs: int)
    ensures KvRevoked(kv, KvRevoke(kv, h, at, fallbackMs), h, at, fallbackMs)
  {
    var until := if h in kv.records then kv.records[h].value.absoluteExpiresAt else at + fallbackMs;
    assert AllEntombed(kv.list.tombstones, kv.list.tombstones, []);
    OneMoreEntombed(kv.list.tombstones, kv.list, [], h, until);
    assert [] + [(h, until)] == [(h, until)];
  }

  /**
   * A touch writes nothing for a window already over, or while this isolate's
   * last write of the session is younger than the throttle; otherwise the
   * window and the moment, and remembers it. A full memory is emptied first.
   */
  ghost predicate KvTouched(before: Kv, after: Kv, h: SidHash, at: Time, idleExpiresAt: Time, throttleMs: int) {
    if idleExpiresAt <= at || (h in before.guard && at < before.guard[h] + throttleMs) then after == before
    else
      && after.records == before.records && after.list == before.list
      && h in after.seen && after.seen == before.seen[h := after.seen[h]]
      && after.seen[h].value == Marker(idleExpiresAt, at) && KeptFor(after.seen[h].dropAt, at, idleExpiresAt - at)
      && after.guard == if |before.guard| < 4096 then before.guard[h := at] else map[h := at]
  }

  lemma TouchesInKv(kv: Kv, h: SidHash, at: Time, idleExpiresAt: Time, throttleMs: int)
    ensures KvTouched(kv, KvTouch(kv, h, at, idleExpiresAt, throttleMs), h, at, idleExpiresAt, throttleMs)
  {
    TtlCovers(at, idleExpiresAt - at);
    hide KvTtlMs, KeptFor;
  }
}
