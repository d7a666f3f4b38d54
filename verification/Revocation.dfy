/**
 * Revoking KV sessions through the list (src/store/kv.ts:191-292,
 * src/store/revocation.ts:59-117), over a KV that may answer any read with any
 * value ever put there, or with nothing.
 */
module Revocation {
  import opened Basics
  import opened Sessions

  datatype Settings = Settings(maxLifetimeMs: int, fallbackMs: int)

  /**
   * `created`: every record ever put (each key once). `deadlines`, `cutoffs`:
   * the latest tombstone expiry ever written for a session and the latest
   * marker for a user, whatever the list has forgotten since. `sweptTo`: the
   * last sweep's cutoff. `clock`: the latest reading so far.
   */
  datatype World = World(
    created: map<SidHash, Stored>, list: RevocationRows, deadlines: map<SidHash, Time>, cutoffs: map<UserId, Time>,
    sweptTo: Option<Time>, clock: Time)

  const Empty := World(map[], RevocationRows(map[], map[]), map[], map[], None, 0)

  datatype Event =
    | Create(h: SidHash, n: NewSession, at: Time)
    | Revoke(h: SidHash, seen: Option<Stored>, at: Time)   // `seen`: what the KV read returned
    | RevokeAllForUser(u: UserId, at: Time)
    | SweepList(cutoff: Time)

  /** What a read of one record key may return: the record, a stale nothing, or a late-landing record. */
  predicate MayRead(w: World, h: SidHash, read: Option<Stored>) {
    read.Some? ==> h in w.created && read.value == w.created[h]
  }

  function ReadingAt(e: Event): Time { if e.SweepList? then e.cutoff else e.at }

  predicate Enabled(cfg: Settings, w: World, e: Event) {
    ReadingAt(e) >= w.clock &&
    match e
    case Create(h, n, _) =>
      h !in w.created && ValidTtls(n) && n.absoluteTtlMs <= cfg.maxLifetimeMs && n.absoluteTtlMs <= cfg.fallbackMs
    case Revoke(h, seen, _) => h in w.created && MayRead(w, h, seen)
    case _ => true
  }

  function Next(cfg: Settings, w: World, e: Event): World
    requires Enabled(cfg, w, e)
  {
    match e
    case Create(h, n, at) => w.(created := w.created[h := NewRecord(n, at)], clock := at)
    case Revoke(h, seen, at) =>
      var until := if seen.Some? then seen.value.absoluteExpiresAt else at + cfg.fallbackMs;
      w.(list := Tombstone(w.list, h, until), deadlines := Raised(w.deadlines, h, until), clock := at)
    case RevokeAllForUser(u, at) =>
      w.(list := Mark(w.list, u, at + 1), cutoffs := Raised(w.cutoffs, u, at + 1), clock := at)
    case SweepList(cutoff) =>
      w.(list := SweptList(w.list, cutoff, cfg.maxLifetimeMs), sweptTo := Some(cutoff), clock := cutoff)
  }

  function Raised(m: map<string, Time>, k: string, at: Time): map<string, Time> {
    m[k := if k in m then Max(m[k], at) else at]
  }

  predicate IsRun(cfg: Settings, w: World, events: seq<Event>)
    decreases |events|
  {
    events == [] || (Enabled(cfg, w, events[0]) && IsRun(cfg, Next(cfg, w, events[0]), events[1..]))
  }

  function After(cfg: Settings, w: World, events: seq<Event>): World
    requires IsRun(cfg, w, events)
    decreases |events|
  {
    if events == [] then w else After(cfg, Next(cfg, w, events[0]), events[1..])
  }

  /** The session's user was logged out everywhere, at the session's own millisecond or later. */
  predicate MarkCovers(w: World, h: SidHash) requires h in w.created {
    w.created[h].userId in w.cutoffs && w.created[h].createdAt < w.cutoffs[w.created[h].userId]
  }

  /** The session was revoked itself, or its user was. */
  predicate Covered(w: World, h: SidHash) { h in w.created && (h in w.deadlines || MarkCovers(w, h)) }

  /** The last sweep took the user's marker, a lifetime after it was written. */
  predicate MarkSwept(cfg: Settings, w: World, u: UserId) requires u in w.cutoffs {
    w.sweptTo.Some? && w.cutoffs[u] <= w.sweptTo.value - cfg.maxLifetimeMs
  }

  ghost predicate RecordsOk(cfg: Settings, w: World) {
    forall h :: h in w.created ==>
      var r := w.created[h];
      && r.version == RECORD_VERSION && r.createdAt <= w.clock
      && r.createdAt < r.absoluteExpiresAt <= r.createdAt + cfg.maxLifetimeMs
      && r.absoluteExpiresAt <= r.createdAt + cfg.fallbackMs
  }

  /** A tombstone outlives its session, and is forgotten only when it denies nothing any more. */
  ghost predicate TombstonesOk(w: World) {
    && w.list.tombstones.Keys <= w.deadlines.Keys <= w.created.Keys
    && forall h :: h in w.deadlines ==>
      && w.created[h].absoluteExpiresAt <= w.deadlines[h]
      && (if h in w.list.tombstones && w.deadlines[h] > w.clock then w.list.tombstones[h] == w.deadlines[h]
          else w.deadlines[h] <= w.clock && (h in w.list.tombstones ==> w.list.tombstones[h] <= w.clock))
  }

  ghost predicate MarkersOk(cfg: Settings, w: World) {
    && w.list.markers.Keys <= w.cutoffs.Keys && (w.sweptTo.Some? ==> w.sweptTo.value <= w.clock)
    && forall u :: u in w.cutoffs ==>
      && w.cutoffs[u] <= w.clock + 1
      && (u in w.list.markers ==> w.list.markers[u] == w.cutoffs[u])
      && (cfg.maxLifetimeMs > 0 ==> (u in w.list.markers <==> !MarkSwept(cfg, w, u)))
      && (u !in w.list.markers ==> w.cutoffs[u] <= w.clock - cfg.maxLifetimeMs)
  }

  ghost predicate ListOk(cfg: Settings, w: World) { RecordsOk(cfg, w) && TombstonesOk(w) && MarkersOk(cfg, w) }

  lemma ListStep(cfg: Settings, w: World, e: Event)
    requires ListOk(cfg, w) && Enabled(cfg, w, e)
    ensures ListOk(cfg, Next(cfg, w, e))
  {}

  lemma {:induction false} ListRun(cfg: Settings, w: World, events: seq<Event>)
    requires ListOk(cfg, w) && IsRun(cfg, w, events)
    ensures ListOk(cfg, After(cfg, w, events))
    decreases |events|
  {
    if events != [] {
      ListStep(cfg, w, events[0]);
      ListRun(cfg, Next(cfg, w, events[0]), events[1..]);
    }
  }

  /**
   * In any run, cleanup included: exactly when a `get` that asks the list
   * after the last revocation was written returns a session. KV may answer
   * its reads as it likes; the record it returns must be inside both expiries
   * at the get's own reading, every tombstone of it over at the list's
   * reading, and a marker that covers it swept away.
   */
  lemma ReturnedExactlyWhen(cfg: Settings, events: seq<Event>, h: SidHash, read: Option<Stored>, marker: Option<Marker>,
                            at: Time, listAt: Time)
    requires IsRun(cfg, Empty, events)
    requires var w := After(cfg, Empty, events); h in w.created && MayRead(w, h, read) && listAt >= w.clock
    ensures var w := After(cfg, Empty, events);
      KvGet(read, marker, Some(w.list), h, at, listAt).session.Some? <==>
      && read.Some? && at < read.value.absoluteExpiresAt && at < KvIdleExpiry(read.value, marker)
      && (h in w.deadlines ==> w.deadlines[h] <= listAt)
      && (MarkCovers(w, h) ==> MarkSwept(cfg, w, w.created[h].userId))
  {
    ListRun(cfg, Empty, events);
    if read.Some? { assert RecordsOk(cfg, After(cfg, Empty, events)); }
  }

  /**
   * So a covered session is returned only if it ended between the two
   * readings, and never by a get that uses one reading for both; a session
   * revoked by a call that saw its record, under no marker, is returned
   * whenever it ended between them, swept or not; one that no revocation
   * covers is answered by its expiries alone.
   */
  lemma RevokedStaysRevoked(cfg: Settings, events: seq<Event>, h: SidHash, read: Option<Stored>, marker: Option<Marker>,
                            at: Time, listAt: Time)
    requires IsRun(cfg, Empty, events)
    requires var w := After(cfg, Empty, events); MayRead(w, h, read) && listAt >= w.clock
    ensures var w := After(cfg, Empty, events);
      var answer := KvGet(read, marker, Some(w.list), h, at, listAt);
      && (Covered(w, h) && answer.session.Some? ==> at < w.created[h].absoluteExpiresAt <= listAt)
      && (Covered(w, h) && at == listAt ==> answer.session.None?)
      && (h in w.created && h in w.deadlines && w.deadlines[h] == w.created[h].absoluteExpiresAt && !MarkCovers(w, h) ==>
            (answer.session.Some? <==>
             read.Some? && at < KvIdleExpiry(read.value, marker) && at < read.value.absoluteExpiresAt <= listAt))
      && (!Covered(w, h) ==> answer == KvGet(read, marker, None, h, at, listAt))
  {
    ListRun(cfg, Empty, events);
    var w := After(cfg, Empty, events);
    if h in w.created { ReturnedExactlyWhen(cfg, events, h, read, marker, at, listAt); }
    if Covered(w, h) && MarkCovers(w, h) { assert RecordsOk(cfg, w) && MarkersOk(cfg, w); }
  }

  /**
   * Logging everyone out covers every session there is, and of those created next exactly the ones
   * of its own millisecond.
   */
  lemma MarkCoversExactly(cfg: Settings, w: World, u: UserId, at: Time, h: SidHash, k: SidHash, n: NewSession,
      later: Time)
    requires ListOk(cfg, w) && Enabled(cfg, w, RevokeAllForUser(u, at)) && n.userId == u
    requires Enabled(cfg, Next(cfg, w, RevokeAllForUser(u, at)), Create(k, n, later))
    ensures var w' := Next(cfg, w, RevokeAllForUser(u, at));
      && (h in w.created && w.created[h].userId == u ==> Covered(w', h))
      && (Covered(Next(cfg, w', Create(k, n, later)), k) <==> later == at)
  {}

  /** The two readings matter: a tombstone's own deadline passes between them, and no sweep is needed. */
  lemma TombstoneLapsesBetweenReadings(cfg: Settings, n: NewSession)
    requires ValidTtls(n) && n.absoluteTtlMs <= cfg.maxLifetimeMs && n.absoluteTtlMs <= cfg.fallbackMs
    ensures var record := NewRecord(n, 0);
      var events := [Create("h", n, 0), Revoke("h", Some(record), 0)];
      && IsRun(cfg, Empty, events) && Covered(After(cfg, Empty, events), "h")
      && KvGet(Some(record), None, Some(After(cfg, Empty, events).list), "h", 0, n.absoluteTtlMs).session.Some?
  {
    var revoke := Revoke("h", Some(NewRecord(n, 0)), 0);
    TwoEvents(cfg, Empty, Create("h", n, 0), revoke);
  }

  /** A marker has no deadline: it lets a session through only once swept, a lifetime after it was written. */
  lemma MarkerSweptBetweenReadings(cfg: Settings, n: NewSession)
    requires ValidTtls(n) && n.absoluteTtlMs <= cfg.maxLifetimeMs && n.absoluteTtlMs <= cfg.fallbackMs
    ensures var record := NewRecord(n, 0);
      var kept := [Create("h", n, 0), RevokeAllForUser(n.userId, 0)];
      var late := cfg.maxLifetimeMs + 1;
      && IsRun(cfg, Empty, kept) && IsRun(cfg, After(cfg, Empty, kept), [SweepList(late)])
      && KvGet(Some(record), None, Some(After(cfg, Empty, kept).list), "h", 0, late).session.None?
      && KvGet(Some(record), None, Some(After(cfg, After(cfg, Empty, kept), [SweepList(late)]).list), "h", 0, late).session.Some?
  {
    TwoEvents(cfg, Empty, Create("h", n, 0), RevokeAllForUser(n.userId, 0));
  }

  lemma TwoEvents(cfg: Settings, w: World, e: Event, f: Event)
    requires Enabled(cfg, w, e) && Enabled(cfg, Next(cfg, w, e), f)
    ensures IsRun(cfg, w, [e, f]) && After(cfg, w, [e, f]) == Next(cfg, Next(cfg, w, e), f)
  {
    assert [e, f][1..] == [f] && [f][1..] == [];
    var w1 := Next(cfg, w, e);
    var w2 := Next(cfg, w1, f);
    assert IsRun(cfg, w2, []) && After(cfg, w2, []) == w2;
    assert IsRun(cfg, w1, [f]) && After(cfg, w1, [f]) == w2;
  }
}
