/**
 * The KV session store against the D1 store, call by call
 * (src/store/kv.ts:110-258, src/store/d1.ts:111-190, src/middleware.ts:390-396).
 *
 * Both stores take the same calls, one after another, each call with one
 * reading. KV may drop a key from the moment its TTL is over, or never.
 */
module KvAgrees {
  import opened Basics
  import opened Sessions

  /** `touchIdleMs`: the idle window the middleware slides to. */
  datatype Policy = Policy(touchIntervalMs: int, touchIdleMs: int, throttleMs: int, maxLifetimeMs: int, fallbackMs: int)

  /** All the program checks; the throttle is an option of its own. */
  predicate ValidPolicy(p: Policy) { p.touchIntervalMs >= 0 && p.touchIdleMs > 0 }

  /** A KV value, and when KV may first drop it. */
  datatype Kept<T> = Kept(value: T, dropAt: Time)

  datatype Kv = Kv(
    records: map<SidHash, Kept<Stored>>, seen: map<SidHash, Kept<Marker>>, guard: map<SidHash, Time>, list: RevocationRows)

  const EmptyKv := Kv(map[], map[], map[], RevocationRows(map[], map[]))

  // ----- the KV store's calls -----

  function RecordOf(kv: Kv, h: SidHash): Option<Stored> {
    if h in kv.records then Some(kv.records[h].value) else None
  }

  function MarkerOf(kv: Kv, h: SidHash): Option<Marker> {
    if h in kv.seen then Some(kv.seen[h].value) else None
  }

  function KvCreate(kv: Kv, h: SidHash, n: NewSession, at: Time): Kv {
    kv.(records := kv.records[h := Kept(NewRecord(n, at), at + KvTtlMs(n.absoluteTtlMs))])
  }

  function KvView(kv: Kv, h: SidHash, at: Time): KvAnswer {
    KvGet(RecordOf(kv, h), MarkerOf(kv, h), Some(kv.list), h, at, at)
  }

  function Forget(kv: Kv, h: SidHash): Kv { kv.(records := kv.records - {h}, seen := kv.seen - {h}) }

  function KvAfterGet(kv: Kv, h: SidHash, at: Time): Kv { if KvView(kv, h, at).forget then Forget(kv, h) else kv }

  predicate Throttled(kv: Kv, h: SidHash, at: Time, throttleMs: int) { h in kv.guard && at - kv.guard[h] < throttleMs }

  /** A blind write of the marker; the guard is emptied when it is full. */
  function KvTouch(kv: Kv, h: SidHash, at: Time, idleExpiresAt: Time, throttleMs: int): Kv {
    if idleExpiresAt <= at || Throttled(kv, h, at, throttleMs) then kv
    else
      kv.(guard := (if |kv.guard| >= TOUCH_GUARD_MAX then map[] else kv.guard)[h := at],
          seen := kv.seen[h := Kept(Marker(idleExpiresAt, at), at + KvTtlMs(idleExpiresAt - at))])
  }

  function KvRevoke(kv: Kv, h: SidHash, at: Time, fallbackMs: int): Kv {
    var record := RecordOf(kv, h);
    Forget(kv.(list := Tombstone(kv.list, h, if record.Some? then record.value.absoluteExpiresAt else at + fallbackMs)), h)
  }

  // ----- both stores, one call at a time -----

  /**
   * `used`: session ids ever drawn or presented for revocation; `loggedOut`:
   * each user's last log-out-everywhere; `barred`: sessions created in the
   * very millisecond of one, after it.
   */
  datatype Both = Both(
    kv: Kv, rows: Rows, used: set<SidHash>, loggedOut: map<UserId, Time>, barred: set<SidHash>, clock: Time)

  const Start := Both(EmptyKv, map[], {}, map[], {}, 0)

  datatype Op =
    | Create(h: SidHash, n: NewSession, at: Time)
    | Visit(h: SidHash, at: Time)              // a request: get, then touch when the middleware says so
    | Revoke(h: SidHash, at: Time)
    | RevokeAllForUser(u: UserId, at: Time)
    | SweepRows(at: Time)
    | SweepList(at: Time)
    | DropRecord(h: SidHash, at: Time)
    | DropMarker(h: SidHash, at: Time)

  /** The last of the marker's TTL covers the first idle window: dropping it then revives nothing. */
  predicate Fits(p: Policy, n: NewSession) {
    p.touchIntervalMs + KvTtlMs(p.touchIdleMs) >= Min(n.idleTtlMs, n.absoluteTtlMs)
  }

  /** Two touches of one session, each when it is due, are at least so far apart if not in the same millisecond. */
  function Step(p: Policy): int { Max(p.touchIntervalMs, 1) }

  /**
   * A session of these lifetimes can be due for a second touch, still alive,
   * while KV throttles it.
   */
  predicate Slips(p: Policy, idleMs: int, absoluteMs: int) {
    && Step(p) < p.throttleMs && Step(p) < p.touchIdleMs
    && p.touchIntervalMs < Min(idleMs, absoluteMs) && p.touchIntervalMs + Step(p) < absoluteMs
  }

  /** What the two stores need of a session's lifetimes to agree on it. */
  predicate Suits(p: Policy, n: NewSession) { Fits(p, n) && !Slips(p, n.idleTtlMs, n.absoluteTtlMs) }

  predicate Enabled(p: Policy, s: Both, op: Op) {
    op.at >= s.clock &&
    match op
    case Create(h, n, at) =>
      h !in s.used && ValidTtls(n) && n.absoluteTtlMs <= p.maxLifetimeMs
    case DropRecord(h, at) => h in s.kv.records && at >= s.kv.records[h].dropAt
    case DropMarker(h, at) => h in s.kv.seen && at >= s.kv.seen[h].dropAt
    case _ => true
  }

  predicate TouchDue(p: Policy, got: Option<StoreSession>, at: Time) {
    got.Some? && at - got.value.lastSeenAt >= p.touchIntervalMs
  }

  function VisitKv(p: Policy, kv: Kv, h: SidHash, at: Time): Kv {
    var after := KvAfterGet(kv, h, at);
    if TouchDue(p, KvView(kv, h, at).session, at) then KvTouch(after, h, at, at + p.touchIdleMs, p.throttleMs) else after
  }

  function VisitRows(p: Policy, rows: Rows, h: SidHash, at: Time): Rows {
    var after := D1AfterGet(rows, h, at);
    if TouchDue(p, D1Get(rows, h, at), at) then D1Touch(after, h, at, at + p.touchIdleMs) else after
  }

  predicate JustLoggedOut(s: Both, u: UserId, at: Time) { u in s.loggedOut && s.loggedOut[u] == at }

  function Next(p: Policy, s: Both, op: Op): Both
    requires Enabled(p, s, op)
  {
    var t := s.(clock := op.at);
    match op
    case Create(h, n, at) =>
      t.(kv := KvCreate(s.kv, h, n, at), rows := s.rows[h := D1Row(n, at)], used := s.used + {h},
         barred := if JustLoggedOut(s, n.userId, at) then s.barred + {h} else s.barred)
    case Visit(h, at) => t.(kv := VisitKv(p, s.kv, h, at), rows := VisitRows(p, s.rows, h, at))
    case Revoke(h, at) => t.(kv := KvRevoke(s.kv, h, at, p.fallbackMs), rows := s.rows - {h}, used := s.used + {h})
    case RevokeAllForUser(u, at) =>
      t.(kv := s.kv.(list := Mark(s.kv.list, u, at + 1)), rows := D1RevokeAll(s.rows, u), loggedOut := s.loggedOut[u := at])
    case SweepRows(at) => t.(rows := D1Swept(s.rows, at))
    case SweepList(at) => t.(kv := s.kv.(list := SweptList(s.kv.list, at, p.maxLifetimeMs)))
    case DropRecord(h, _) => t.(kv := s.kv.(records := s.kv.records - {h}))
    case DropMarker(h, _) => t.(kv := s.kv.(seen := s.kv.seen - {h}))
  }

  predicate IsRun(p: Policy, s: Both, ops: seq<Op>)
    decreases |ops|
  {
    ops == [] || (Enabled(p, s, ops[0]) && IsRun(p, Next(p, s, ops[0]), ops[1..]))
  }

  function After(p: Policy, s: Both, ops: seq<Op>): Both
    requires IsRun(p, s, ops)
    decreases |ops|
  {
    if ops == [] then s else After(p, Next(p, s, ops[0]), ops[1..])
  }

  predicate AllSuit(p: Policy, ops: seq<Op>) { forall i :: 0 <= i < |ops| && ops[i].Create? ==> Suits(p, ops[i].n) }

  // ----- how the two stand to each other -----

  /** End of the window `get` derives when there is no marker. */
  function DerivedEnd(r: Stored): Time { Min(r.createdAt + r.idleTtlMs, r.absoluteExpiresAt) }

  predicate RecordOk(p: Policy, s: Both, h: SidHash) requires h in s.kv.records {
    var r := s.kv.records[h].value;
    && r.version == RECORD_VERSION && h in s.used && s.kv.records[h].dropAt >= r.absoluteExpiresAt
    && r.createdAt <= s.clock && r.absoluteExpiresAt <= r.createdAt + p.maxLifetimeMs
    && r.createdAt + p.touchIntervalMs + KvTtlMs(p.touchIdleMs) >= DerivedEnd(r)
    && !Slips(p, r.idleTtlMs, r.absoluteExpiresAt - r.createdAt)
    && (h in s.kv.seen ==>
          && s.kv.seen[h].dropAt >= s.kv.seen[h].value.expires && s.kv.seen[h].dropAt >= DerivedEnd(r)
          && s.kv.seen[h].value.seen >= r.createdAt)
  }

  /** A touch at `at` was due, and the first of them found the session alive. */
  predicate Touched(p: Policy, r: Stored, at: Time) {
    r.createdAt + p.touchIntervalMs <= at && r.createdAt + p.touchIntervalMs < DerivedEnd(r)
  }

  /** Alive in D1: KV holds the same session, unrevoked. */
  predicate LiveInBoth(p: Policy, s: Both, h: SidHash) requires h in s.rows {
    && h in s.kv.records && KvSession(s.kv.records[h].value, MarkerOf(s.kv, h)) == s.rows[h]
    && h !in s.kv.list.tombstones
    && (s.rows[h].userId in s.kv.list.markers ==> s.kv.list.markers[s.rows[h].userId] <= s.rows[h].createdAt)
    && s.rows[h].createdAt <= s.rows[h].lastSeenAt
    && (h in s.kv.seen ==> Touched(p, s.kv.records[h].value, s.rows[h].lastSeenAt))
    && (h in s.kv.guard ==>
          h in s.kv.seen && s.kv.seen[h].value == Marker(s.kv.guard[h] + p.touchIdleMs, s.kv.guard[h]))
  }

  /** Over in KV, and bound to stay over. */
  predicate OverInKv(s: Both, h: SidHash) {
    h in s.kv.records ==>
      var r := s.kv.records[h].value;
      || r.absoluteExpiresAt <= s.clock
      || (h in s.kv.list.tombstones && s.kv.list.tombstones[h] >= r.absoluteExpiresAt)
      || (r.userId in s.kv.list.markers && s.kv.list.markers[r.userId] > r.createdAt)
      || (if h in s.kv.seen then s.kv.seen[h].value.expires <= s.clock else r.createdAt + r.idleTtlMs <= s.clock)
  }

  predicate Together(p: Policy, s: Both, h: SidHash) {
    && (h in s.kv.records ==> RecordOk(p, s, h))
    && (if h in s.rows && !Expired(s.rows[h], s.clock) && h !in s.barred then LiveInBoth(p, s, h) else OverInKv(s, h))
  }

  ghost predicate BothOk(p: Policy, s: Both) {
    && (forall h :: Together(p, s, h))
    && s.kv.list.tombstones.Keys <= s.used && s.kv.records.Keys <= s.used && s.rows.Keys <= s.used
    && s.kv.guard.Keys <= s.used && s.kv.seen.Keys <= s.used && s.barred <= s.used
    && s.kv.list.markers.Keys <= s.loggedOut.Keys
    && (forall u :: u in s.loggedOut ==>
          && s.loggedOut[u] <= s.clock
          && (if u in s.kv.list.markers then s.kv.list.markers[u] == s.loggedOut[u] + 1
              else s.loggedOut[u] < s.clock - p.maxLifetimeMs))
  }

  /** Standing together means answering alike, now and at any later reading, except that KV answers nothing if barred. */
  lemma TogetherAnswers(p: Policy, s: Both, h: SidHash, at: Time)
    requires Together(p, s, h) && at >= s.clock
    ensures KvView(s.kv, h, at).session == if h in s.barred then None else D1Get(s.rows, h, at)
  {}

  // ----- steps -----

  /** Time passing ends sessions in both stores alike. */
  lemma Advance(p: Policy, s: Both, h: SidHash, at: Time)
    requires Together(p, s, h) && at >= s.clock
    ensures Together(p, s.(clock := at), h)
  {}

  lemma BothAdvance(p: Policy, s: Both, at: Time)
    requires BothOk(p, s) && at >= s.clock
    ensures BothOk(p, s.(clock := at))
  {
    forall h ensures Together(p, s.(clock := at), h) { Advance(p, s, h, at); }
  }

  /** A call about one session leaves how every other one stands. */
  lemma OthersStand(p: Policy, s: Both, s': Both, h: SidHash)
    requires Together(p, s, h) && s'.clock == s.clock && s'.used >= s.used && s'.kv.list.markers == s.kv.list.markers
    requires h in s'.barred <==> h in s.barred
    requires (h in s'.kv.records <==> h in s.kv.records) && (h in s.kv.records ==> s'.kv.records[h] == s.kv.records[h])
    requires (h in s'.kv.seen <==> h in s.kv.seen) && (h in s.kv.seen ==> s'.kv.seen[h] == s.kv.seen[h])
    requires (h in s'.kv.list.tombstones <==> h in s.kv.list.tombstones)
      && (h in s.kv.list.tombstones ==> s'.kv.list.tombstones[h] == s.kv.list.tombstones[h])
    requires (h in s'.rows <==> h in s.rows) && (h in s.rows ==> s'.rows[h] == s.rows[h])
    requires h in s'.kv.guard ==> h in s.kv.guard && s'.kv.guard[h] == s.kv.guard[h]
    ensures Together(p, s', h)
  {}

  lemma CreateStep(p: Policy, s: Both, h: SidHash, n: NewSession, at: Time)
    requires BothOk(p, s) && ValidPolicy(p) && s.clock == at && Enabled(p, s, Create(h, n, at)) && Suits(p, n)
    ensures BothOk(p, Next(p, s, Create(h, n, at)))
  {
    var s' := Next(p, s, Create(h, n, at));
    forall k ensures Together(p, s', k) {
      assert Together(p, s, k);
      if k != h { OthersStand(p, s, s', k); }
    }
  }

  /** Both stores touched at `at`. */
  function Slid(p: Policy, s: Both, h: SidHash, at: Time): Both {
    s.(kv := KvTouch(s.kv, h, at, at + p.touchIdleMs, p.throttleMs), rows := D1Touch(s.rows, h, at, at + p.touchIdleMs))
  }

  /** KV throttles a due touch of a live session only in the millisecond of the last one, where it changes nothing. */
  lemma ThrottledRepeats(p: Policy, s: Both, h: SidHash, at: Time)
    requires ValidPolicy(p) && BothOk(p, s) && s.clock == at && h in s.rows && !Expired(s.rows[h], at) && h !in s.barred
    requires at - s.rows[h].lastSeenAt >= p.touchIntervalMs && Throttled(s.kv, h, at, p.throttleMs)
    ensures at == s.rows[h].lastSeenAt && D1Touch(s.rows, h, at, at + p.touchIdleMs) == s.rows
  {
    assert Together(p, s, h);
    var r := s.kv.records[h].value;
    assert !Slips(p, r.idleTtlMs, r.absoluteExpiresAt - r.createdAt);
    assert DerivedEnd(r) - r.createdAt == Min(r.idleTtlMs, r.absoluteExpiresAt - r.createdAt);
  }

  lemma TouchStands(p: Policy, s: Both, h: SidHash, at: Time)
    requires ValidPolicy(p) && BothOk(p, s) && s.clock == at && h in s.rows && !Expired(s.rows[h], at) && h !in s.barred
    requires at - s.rows[h].lastSeenAt >= p.touchIntervalMs
    ensures Together(p, Slid(p, s, h, at), h)
  {
    assert Together(p, s, h);
    if Throttled(s.kv, h, at, p.throttleMs) { ThrottledRepeats(p, s, h, at); }
  }

  lemma TouchOthers(p: Policy, s: Both, h: SidHash, at: Time, k: SidHash)
    requires Together(p, s, k) && k != h
    ensures Together(p, Slid(p, s, h, at), k)
  {
    OthersStand(p, s, Slid(p, s, h, at), k);
  }

  lemma TouchedVisit(p: Policy, s: Both, h: SidHash, at: Time)
    requires ValidPolicy(p) && BothOk(p, s) && s.clock == at && h in s.rows && !Expired(s.rows[h], at) && h !in s.barred
    requires at - s.rows[h].lastSeenAt >= p.touchIntervalMs
    ensures BothOk(p, Slid(p, s, h, at))
  {
    var s' := Slid(p, s, h, at);
    assert Together(p, s, h);
    forall k ensures Together(p, s', k) {
      assert Together(p, s, k);
      if k == h { TouchStands(p, s, h, at); } else { TouchOthers(p, s, h, at, k); }
    }
  }

  /** A get that finds the session over may tidy either store, or both. */
  lemma TidyingVisit(p: Policy, s: Both, h: SidHash, at: Time)
    requires BothOk(p, s) && s.clock == at && (h in s.rows ==> Expired(s.rows[h], at))
    ensures BothOk(p, s.(kv := KvAfterGet(s.kv, h, at), rows := D1AfterGet(s.rows, h, at)))
  {
    var s' := s.(kv := KvAfterGet(s.kv, h, at), rows := D1AfterGet(s.rows, h, at));
    forall k ensures Together(p, s', k) {
      assert Together(p, s, k);
      if k != h { OthersStand(p, s, s', k); }
    }
  }

  /** A visit to a barred session touches its row in D1 and changes nothing in KV but what a get tidies. */
  lemma BarredVisit(p: Policy, s: Both, h: SidHash, at: Time)
    requires BothOk(p, s) && s.clock == at && h in s.barred
    ensures BothOk(p, Next(p, s, Visit(h, at)))
  {
    var s' := Next(p, s, Visit(h, at));
    assert Together(p, s, h);
    TogetherAnswers(p, s, h, at);
    forall k ensures Together(p, s', k) {
      assert Together(p, s, k);
      if k != h { OthersStand(p, s, s', k); }
    }
  }

  lemma VisitIs(p: Policy, s: Both, h: SidHash, at: Time)
    requires Together(p, s, h) && s.clock == at && h !in s.barred
    ensures var live := D1Get(s.rows, h, at); var s' := Next(p, s, Visit(h, at));
      s' == if live.None? then s.(kv := KvAfterGet(s.kv, h, at), rows := D1AfterGet(s.rows, h, at))
            else if TouchDue(p, live, at)
            then Slid(p, s, h, at)
            else s
  {
    TogetherAnswers(p, s, h, at);
  }

  lemma VisitStep(p: Policy, s: Both, h: SidHash, at: Time)
    requires ValidPolicy(p) && BothOk(p, s) && s.clock == at
    ensures BothOk(p, Next(p, s, Visit(h, at)))
  {
    assert Together(p, s, h);
    if h in s.barred {
      BarredVisit(p, s, h, at);
    } else {
      VisitIs(p, s, h, at);
      if D1Get(s.rows, h, at).None? {
        TidyingVisit(p, s, h, at);
      } else if TouchDue(p, D1Get(s.rows, h, at), at) {
        TouchedVisit(p, s, h, at);
      }
    }
  }

  lemma RevokeStep(p: Policy, s: Both, h: SidHash, at: Time)
    requires BothOk(p, s) && s.clock == at
    ensures BothOk(p, Next(p, s, Revoke(h, at)))
  {
    var s' := Next(p, s, Revoke(h, at));
    forall k ensures Together(p, s', k) {
      assert Together(p, s, k);
      if k != h { OthersStand(p, s, s', k); }
    }
  }

  lemma LogoutStep(p: Policy, s: Both, u: UserId, at: Time)
    requires BothOk(p, s) && s.clock == at
    ensures BothOk(p, Next(p, s, RevokeAllForUser(u, at)))
  {
    var s' := Next(p, s, RevokeAllForUser(u, at));
    forall k ensures Together(p, s', k) { assert Together(p, s, k); }
  }

  lemma HousekeepingStep(p: Policy, s: Both, op: Op)
    requires BothOk(p, s) && s.clock == op.at && Enabled(p, s, op)
    requires op.SweepRows? || op.SweepList? || op.DropRecord? || op.DropMarker?
    ensures BothOk(p, Next(p, s, op))
  {
    var s' := Next(p, s, op);
    forall k ensures Together(p, s', k) {
      hide Together;
      assert Together(p, s, k);
      match op
      case SweepRows(_) => RowsSwept(p, s, k);
      case SweepList(_) => ListSwept(p, s, k);
      case _ => KeyDropped(p, s, op, k);
    }
  }

  lemma KeyDropped(p: Policy, s: Both, op: Op, k: SidHash)
    requires Together(p, s, k) && s.clock == op.at && Enabled(p, s, op) && (op.DropRecord? || op.DropMarker?)
    ensures Together(p, Next(p, s, op), k)
  {}

  lemma RowsSwept(p: Policy, s: Both, k: SidHash)
    requires Together(p, s, k)
    ensures Together(p, s.(rows := D1Swept(s.rows, s.clock)), k)
  {}

  lemma ListSwept(p: Policy, s: Both, k: SidHash)
    requires Together(p, s, k)
    ensures Together(p, s.(kv := s.kv.(list := SweptList(s.kv.list, s.clock, p.maxLifetimeMs))), k)
  {}

  lemma BothStep(p: Policy, s: Both, op: Op)
    requires ValidPolicy(p) && BothOk(p, s) && Enabled(p, s, op) && (op.Create? ==> Suits(p, op.n))
    ensures BothOk(p, Next(p, s, op))
  {
    var t := s.(clock := op.at);
    BothAdvance(p, s, op.at);
    match op
    case Create(h, n, at) => CreateStep(p, t, h, n, at);
    case Visit(h, at) => VisitStep(p, t, h, at);
    case Revoke(h, at) => RevokeStep(p, t, h, at);
    case RevokeAllForUser(u, at) => LogoutStep(p, t, u, at);
    case _ => HousekeepingStep(p, t, op);
  }

  lemma {:induction false} BothRun(p: Policy, s: Both, ops: seq<Op>)
    requires ValidPolicy(p) && BothOk(p, s) && IsRun(p, s, ops) && AllSuit(p, ops)
    ensures BothOk(p, After(p, s, ops))
    decreases |ops|
  {
    if ops != [] {
      BothStep(p, s, ops[0]);
      BothRun(p, Next(p, s, ops[0]), ops[1..]);
    }
  }

  /**
   * After any run of calls that touches as the middleware does, whatever KV
   * drops once it may, both stores answer every `get`, now and later, with the
   * same session or the same nothing; all but the sessions created in the
   * millisecond of their user's log-out, which KV never answers.
   */
  lemma StoresAgree(p: Policy, ops: seq<Op>, h: SidHash, at: Time)
    requires ValidPolicy(p) && IsRun(p, Start, ops) && AllSuit(p, ops) && at >= After(p, Start, ops).clock
    ensures var s := After(p, Start, ops);
      KvView(s.kv, h, at).session == if h in s.barred then None else D1Get(s.rows, h, at)
  {
    BothRun(p, Start, ops);
    TogetherAnswers(p, After(p, Start, ops), h, at);
  }

  // ----- where they part -----

  ghost predicate PartAfter(p: Policy, ops: seq<Op>, h: SidHash, at: Time) {
    IsRun(p, Start, ops) && at >= After(p, Start, ops).clock && h !in After(p, Start, ops).barred
    && KvView(After(p, Start, ops).kv, h, at).session != D1Get(After(p, Start, ops).rows, h, at)
  }

  /** Every session created has these two lifetimes. */
  predicate AllOfKind(ops: seq<Op>, n: NewSession) {
    forall i :: 0 <= i < |ops| && ops[i].Create? ==> ops[i].n.idleTtlMs == n.idleTtlMs && ops[i].n.absoluteTtlMs == n.absoluteTtlMs
  }

  lemma ThreeCalls(p: Policy, a: Op, b: Op, c: Op)
    requires Enabled(p, Start, a) && Enabled(p, Next(p, Start, a), b) && Enabled(p, Next(p, Next(p, Start, a), b), c)
    ensures IsRun(p, Start, [a, b, c]) && After(p, Start, [a, b, c]) == Next(p, Next(p, Next(p, Start, a), b), c)
  {
    var s1 := Next(p, Start, a);
    var s2 := Next(p, s1, b);
    assert [c][1..] == [];
    assert IsRun(p, s2, [c]) && After(p, s2, [c]) == Next(p, s2, c);
    assert [b, c][1..] == [c];
    assert IsRun(p, s1, [b, c]) && After(p, s1, [b, c]) == Next(p, s2, c);
    assert [a, b, c][1..] == [b, c];
  }

  /** A session just created is there in both stores until its first window ends. */
  lemma FreshView(p: Policy, h: SidHash, n: NewSession, at: Time)
    requires Enabled(p, Start, Create(h, n, 0)) && 0 <= at < Min(n.idleTtlMs, n.absoluteTtlMs)
    ensures var s := Next(p, Start, Create(h, n, 0));
      && KvView(s.kv, h, at) == KvAnswer(Some(KvSession(NewRecord(n, 0), None)), false)
      && D1Get(s.rows, h, at) == Some(D1Row(n, 0))
  {
    var s := Next(p, Start, Create(h, n, 0));
    assert RecordOf(s.kv, h) == Some(NewRecord(n, 0)) && MarkerOf(s.kv, h) == None;
  }

  /** The first touch the middleware makes writes the marker, with its own TTL. */
  lemma FirstTouch(p: Policy, h: SidHash, n: NewSession)
    requires ValidPolicy(p) && Enabled(p, Start, Create(h, n, 0))
    requires p.touchIntervalMs < Min(n.idleTtlMs, n.absoluteTtlMs)
    ensures var first := p.touchIntervalMs; var s := Next(p, Next(p, Start, Create(h, n, 0)), Visit(h, first));
      && s.clock == first && s.barred == {}
      && s.kv.records == map[h := Kept(NewRecord(n, 0), KvTtlMs(n.absoluteTtlMs))] && s.kv.list == EmptyKv.list
      && s.kv.guard == map[h := first] && s.kv.seen == map[h := Kept(Marker(first + p.touchIdleMs, first), first + KvTtlMs(p.touchIdleMs))]
      && s.rows == map[h := D1Row(n, 0).(lastSeenAt := first, idleExpiresAt := Min(first + p.touchIdleMs, n.absoluteTtlMs))]
  {
    var s1, first := Next(p, Start, Create(h, n, 0)), p.touchIntervalMs;
    FreshView(p, h, n, first);
    assert TouchDue(p, KvView(s1.kv, h, first).session, first) && !Throttled(s1.kv, h, first, p.throttleMs);
    assert first + p.touchIdleMs - first == p.touchIdleMs;
  }

  /** If the marker's TTL can end inside the first window, dropping it brings the session back in KV alone. */
  lemma PartIfNotFitting(p: Policy, n: NewSession)
    requires ValidPolicy(p) && ValidTtls(n) && n.absoluteTtlMs <= p.maxLifetimeMs && !Fits(p, n)
    ensures exists ops, h, at :: AllOfKind(ops, n) && PartAfter(p, ops, h, at)
  {
    var first, second := p.touchIntervalMs, p.touchIntervalMs + KvTtlMs(p.touchIdleMs);
    var a, b, c := Create("h", n, 0), Visit("h", first), DropMarker("h", second);
    assert p.touchIdleMs <= KvTtlMs(p.touchIdleMs) && second < Min(n.idleTtlMs, n.absoluteTtlMs);
    hide Next, KvView, D1Get, KvTtlMs, PartAfter;
    ClockIs(p, Start, a);
    FirstTouch(p, "h", n);
    DroppedParts(p, n, Next(p, Next(p, Start, a), b), second);
    PartAfterThree(p, a, b, c, "h");
    assert AllOfKind([a, b, c], n);
  }

  /** With its marker dropped, KV falls back on the first window; D1 has slid, and that is over. */
  lemma DroppedParts(p: Policy, n: NewSession, s: Both, at: Time)
    requires at >= s.clock && s.kv.records == map["h" := Kept(NewRecord(n, 0), KvTtlMs(n.absoluteTtlMs))]
    requires s.kv.list == EmptyKv.list && s.kv.seen.Keys == {"h"} && s.kv.seen["h"].dropAt <= at
    requires p.touchIntervalMs + p.touchIdleMs <= at < Min(n.idleTtlMs, n.absoluteTtlMs)
    requires "h" in s.rows && s.rows["h"].idleExpiresAt <= p.touchIntervalMs + p.touchIdleMs
    ensures Enabled(p, s, DropMarker("h", at))
    ensures var s' := Next(p, s, DropMarker("h", at));
      s'.barred == s.barred && KvView(s'.kv, "h", at).session != D1Get(s'.rows, "h", at)
  {
    var s' := Next(p, s, DropMarker("h", at));
    assert RecordOf(s'.kv, "h") == Some(NewRecord(n, 0)) && MarkerOf(s'.kv, "h") == None;
  }

  lemma PartAfterThree(p: Policy, a: Op, b: Op, c: Op, h: SidHash)
    requires Enabled(p, Start, a) && Enabled(p, Next(p, Start, a), b) && Enabled(p, Next(p, Next(p, Start, a), b), c)
    requires var s := Next(p, Next(p, Next(p, Start, a), b), c);
      h !in s.barred && KvView(s.kv, h, c.at).session != D1Get(s.rows, h, c.at)
    ensures PartAfter(p, [a, b, c], h, c.at)
  {
    ThreeCalls(p, a, b, c);
    ClockIs(p, Next(p, Next(p, Start, a), b), c);
    hide Next, Enabled, KvView, D1Get, IsRun, After;
  }

  lemma ClockIs(p: Policy, s: Both, op: Op)
    requires Enabled(p, s, op)
    ensures Next(p, s, op).clock == op.at
  {}

  /** A touch due, alive and throttled: D1 slides, KV does not. */
  lemma ThrottledVisitParts(p: Policy, s: Both, h: SidHash, at: Time)
    requires at >= s.clock && h in s.rows && !Expired(s.rows[h], at) && at > s.rows[h].lastSeenAt
    requires at - s.rows[h].lastSeenAt >= p.touchIntervalMs && Throttled(s.kv, h, at, p.throttleMs)
    requires KvView(s.kv, h, at) == KvAnswer(Some(s.rows[h]), false) && p.touchIdleMs > 0
    ensures var s' := Next(p, s, Visit(h, at)); KvView(s'.kv, h, at).session != D1Get(s'.rows, h, at)
  {
    hide KvView;
  }

  /** The second of two touches, as early as it can be due. */
  lemma SecondTouchSlips(p: Policy, n: NewSession)
    requires ValidPolicy(p) && ValidTtls(n) && n.absoluteTtlMs <= p.maxLifetimeMs
    requires Slips(p, n.idleTtlMs, n.absoluteTtlMs)
    ensures var a, b, c := Create("h", n, 0), Visit("h", p.touchIntervalMs), Visit("h", p.touchIntervalMs + Step(p));
      && Enabled(p, Start, a) && Enabled(p, Next(p, Start, a), b) && Enabled(p, Next(p, Next(p, Start, a), b), c)
      && var s := Next(p, Next(p, Next(p, Start, a), b), c);
         "h" !in s.barred && KvView(s.kv, "h", c.at).session != D1Get(s.rows, "h", c.at)
  {
    var a, b, second := Create("h", n, 0), Visit("h", p.touchIntervalMs), p.touchIntervalMs + Step(p);
    hide Next, KvView, D1Get, KvTtlMs;
    ClockIs(p, Start, a);
    var s := Next(p, Next(p, Start, a), b);
    FirstTouch(p, "h", n);
    FirstTouchHolds(p, n, s, second);
    ThrottledVisitParts(p, s, "h", second);
    VisitBarsNone(p, s, "h", second);
  }

  /** Until that second touch, both stores hold the session as the first left it. */
  lemma FirstTouchHolds(p: Policy, n: NewSession, s: Both, at: Time)
    requires var first := p.touchIntervalMs;
      && s.kv.records == map["h" := Kept(NewRecord(n, 0), KvTtlMs(n.absoluteTtlMs))] && s.kv.list == EmptyKv.list
      && s.kv.guard == map["h" := first]
      && s.kv.seen == map["h" := Kept(Marker(first + p.touchIdleMs, first), first + KvTtlMs(p.touchIdleMs))]
      && s.rows == map["h" := D1Row(n, 0).(lastSeenAt := first, idleExpiresAt := Min(first + p.touchIdleMs, n.absoluteTtlMs))]
    requires p.touchIntervalMs <= at < Min(p.touchIntervalMs + p.touchIdleMs, n.absoluteTtlMs)
    ensures KvView(s.kv, "h", at) == KvAnswer(Some(s.rows["h"]), false) && !Expired(s.rows["h"], at)
  {}

  lemma VisitBarsNone(p: Policy, s: Both, h: SidHash, at: Time)
    requires at >= s.clock
    ensures Next(p, s, Visit(h, at)).barred == s.barred
  {}

  lemma PartIfSlipping(p: Policy, n: NewSession)
    requires ValidPolicy(p) && ValidTtls(n) && n.absoluteTtlMs <= p.maxLifetimeMs
    requires Slips(p, n.idleTtlMs, n.absoluteTtlMs)
    ensures exists ops, h, at :: AllOfKind(ops, n) && PartAfter(p, ops, h, at)
  {
    hide Next, Enabled, KvView, D1Get, PartAfter, Slips, Step;
    var a, b, c := Create("h", n, 0), Visit("h", p.touchIntervalMs), Visit("h", p.touchIntervalMs + Step(p));
    SecondTouchSlips(p, n);
    PartAfterThree(p, a, b, c, "h");
    assert AllOfKind([a, b, c], n);
  }

  /**
   * So the two stores agree on every run over sessions of a kind if and only
   * if the marker's TTL covers the kind's first window and none of the kind
   * can be due for a touch KV throttles.
   */
  lemma AgreeExactlyWhenFitting(p: Policy, n: NewSession)
    requires ValidPolicy(p) && ValidTtls(n) && n.absoluteTtlMs <= p.maxLifetimeMs
    ensures Suits(p, n) <==>
      forall ops, h, at :: AllOfKind(ops, n) ==> !PartAfter(p, ops, h, at)
  {
    if Suits(p, n) {
      forall ops, h, at | AllOfKind(ops, n) ensures !PartAfter(p, ops, h, at) {
        if IsRun(p, Start, ops) && at >= After(p, Start, ops).clock { StoresAgree(p, ops, h, at); }
      }
    } else if !Fits(p, n) {
      PartIfNotFitting(p, n);
    } else {
      PartIfSlipping(p, n);
    }
  }


  // ----- outside the middleware's order -----

  /**
   * A touch carries the window the middleware read at `m`, and is written at
   * the store's own later reading. KV writes blindly, unless the window is
   * over or the touch throttled; D1 writes exactly to a session still alive.
   * So they answer alike if and only if the session is over for good, or is
   * alive and the window reaches past `late`, or has ended by its idle expiry
   * and KV writes nothing either.
   */
  lemma LateTouchParts(p: Policy, s: Both, h: SidHash, m: Time, late: Time)
    requires ValidPolicy(p) && BothOk(p, s) && h in s.rows && !Expired(s.rows[h], s.clock) && h !in s.barred
    requires s.clock <= m <= late && m - s.rows[h].lastSeenAt >= p.touchIntervalMs
    ensures var until := m + p.touchIdleMs;
      KvView(KvTouch(s.kv, h, late, until, p.throttleMs), h, late).session == D1Get(D1Touch(s.rows, h, late, until), h, late)
      <==>
      || late >= s.rows[h].absoluteExpiresAt
      || (if late < s.rows[h].idleExpiresAt then late < until else until <= late || Throttled(s.kv, h, late, p.throttleMs))
  {
    assert Together(p, s, h);
    if late < s.rows[h].idleExpiresAt && late < s.rows[h].absoluteExpiresAt {
      BothAdvance(p, s, late);
      LandsAlive(p, s.(clock := late), h, m);
    } else {
      LandsAfterEnd(p, s, h, late, m + p.touchIdleMs);
    }
  }

  lemma LandsAlive(p: Policy, s: Both, h: SidHash, m: Time)
    requires ValidPolicy(p) && BothOk(p, s) && h in s.rows && !Expired(s.rows[h], s.clock) && h !in s.barred
    requires m <= s.clock && m - s.rows[h].lastSeenAt >= p.touchIntervalMs
    ensures var until, late := m + p.touchIdleMs, s.clock;
      KvView(KvTouch(s.kv, h, late, until, p.throttleMs), h, late).session == D1Get(D1Touch(s.rows, h, late, until), h, late)
      <==> late < until
  {
    assert Together(p, s, h);
    if Throttled(s.kv, h, s.clock, p.throttleMs) { ThrottledRepeats(p, s, h, s.clock); }
  }

  lemma LandsAfterEnd(p: Policy, s: Both, h: SidHash, late: Time, until: Time)
    requires BothOk(p, s) && h in s.rows && !Expired(s.rows[h], s.clock) && h !in s.barred
    requires late >= s.clock && Expired(s.rows[h], late)
    ensures KvView(KvTouch(s.kv, h, late, until, p.throttleMs), h, late).session == D1Get(D1Touch(s.rows, h, late, until), h, late)
      <==> late >= s.rows[h].absoluteExpiresAt || until <= late || Throttled(s.kv, h, late, p.throttleMs)
  {
    assert Together(p, s, h);
  }

  /** The marker of a log-out covers its whole millisecond: a session just created differs exactly in that one. */
  lemma SameMillisecondParts(p: Policy, s: Both, h: SidHash, n: NewSession, at: Time)
    requires ValidPolicy(p) && BothOk(p, s) && Enabled(p, s, Create(h, n, at)) && Suits(p, n)
    ensures var s' := Next(p, s, Create(h, n, at));
      KvView(s'.kv, h, at).session == D1Get(s'.rows, h, at) <==> !JustLoggedOut(s, n.userId, at)
  {
    var s' := Next(p, s, Create(h, n, at));
    BothStep(p, s, Create(h, n, at));
    assert Together(p, s', h) && h in s'.used && h !in s.barred;
    TogetherAnswers(p, s', h, at);
  }
}
