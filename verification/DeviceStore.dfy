/**
 * The store object of src/device-auth/store.ts: five tables, updated in place.
 * Each method is one statement (or one batch), proved against `Tables.Exec`.
 */
module DeviceStore {
  import opened Basics
  import opened PinCredential
  import opened Tables
  import opened StatementFacts

  class DeviceAuthStore {
    var limits: map<Bucket, LimitRow>
    var codes: map<Email, CodeRow>
    var devices: map<DeviceId, DeviceRow>
    var credentials: map<CredentialId, CredentialRow>
    var guards: map<AccountId, GuardRow>

    ghost function Contents(): Tables
      reads this
    {
      Tables(limits, codes, devices, credentials, guards)
    }

    /** The partial unique index on live PINs. */
    ghost predicate Valid()
      reads this
    {
      OneLivePin(credentials)
    }

    constructor ()
      ensures Contents() == EmptyTables && Valid()
    {
      limits, codes, devices, credentials, guards := map[], map[], map[], map[], map[];
    }

    // ----- rate limits -----

    method HitRateLimit(b: Bucket, windowMs: int, now: Time) returns (hits: Counted)
      modifies this`limits
      ensures (Contents(), Hits(hits)) == Exec(old(Contents()), Statement.HitRateLimit(b, windowMs, now))
      ensures old(Valid()) ==> Valid()
    {
      if b !in limits {
        limits := limits[b := LimitRow(now, 1, 0)];
      } else if limits[b].windowStart <= now - windowMs {
        limits := limits[b := limits[b].(windowStart := now, count := 1)];
      } else {
        limits := limits[b := limits[b].(count := limits[b].count + 1)];
      }
      hits := Counted(limits[b].count, limits[b].windowStart);
    }

    method ReadRateLimit(b: Bucket, windowMs: int, now: Time) returns (hits: Counted)
      ensures (Contents(), Hits(hits)) == Exec(Contents(), Statement.ReadRateLimit(b, windowMs, now))
    {
      hits := Counted(0, now);
      if b in limits && limits[b].windowStart > now - windowMs {
        hits := Counted(limits[b].count, limits[b].windowStart);
      }
    }

    method ReserveRateLimit(b: Bucket, windowMs: int, now: Time, max: nat) returns (slot: Option<Counted>)
      modifies this`limits
      ensures (Contents(), Slot(slot)) == Exec(old(Contents()), Statement.ReserveRateLimit(b, windowMs, now, max))
      ensures old(Valid()) ==> Valid()
    {
      if b !in limits {
        limits := limits[b := LimitRow(now, 1, 0)];
      } else if limits[b].windowStart <= now - windowMs {
        limits := limits[b := limits[b].(windowStart := now, count := 1)];
      } else if limits[b].count < max {
        limits := limits[b := limits[b].(count := limits[b].count + 1)];
      } else {
        return None;
      }
      slot := Some(Counted(limits[b].count, limits[b].windowStart));
    }

    method RefundRateLimit(b: Bucket, windowStart: Time)
      modifies this`limits
      ensures (Contents(), Done) == Exec(old(Contents()), Statement.RefundRateLimit(b, windowStart))
      ensures old(Valid()) ==> Valid()
    {
      if b in limits && limits[b].windowStart == windowStart && limits[b].count > 0 {
        limits := limits[b := limits[b].(count := limits[b].count - 1)];
      }
    }

    method HitCircuitBreaker(b: Bucket, windowMs: int, now: Time, failed: bool) returns (counts: BreakerCounts)
      modifies this`limits
      ensures (Contents(), Breaker(counts)) == Exec(old(Contents()), Statement.HitCircuitBreaker(b, windowMs, now, failed))
      ensures old(Valid()) ==> Valid()
    {
      var failure := if failed then 1 else 0;
      if b !in limits || limits[b].windowStart <= now - windowMs {
        limits := limits[b := LimitRow(now, 1, failure)];
      } else {
        limits := limits[b := LimitRow(limits[b].windowStart, limits[b].count + 1, limits[b].failures + failure)];
      }
      counts := BreakerCounts(limits[b].count, limits[b].failures, limits[b].windowStart);
    }

    method ReadCircuitBreaker(b: Bucket, windowMs: int, now: Time) returns (counts: BreakerCounts)
      ensures (Contents(), Breaker(counts)) == Exec(Contents(), Statement.ReadCircuitBreaker(b, windowMs, now))
    {
      counts := BreakerCounts(0, 0, now);
      if b in limits && limits[b].windowStart > now - windowMs {
        counts := BreakerCounts(limits[b].count, limits[b].failures, limits[b].windowStart);
      }
    }

    // ----- email codes -----

    method PutEmailCode(r: CodeIssue)
      modifies this`codes
      ensures (Contents(), Done) == Exec(old(Contents()), Statement.PutEmailCode(r))
      ensures old(Valid()) ==> Valid()
    {
      var attempts, resetAt := 0, r.attemptsResetAt;
      if r.email in codes && codes[r.email].attemptsResetAt > r.createdAt {
        attempts, resetAt := codes[r.email].attempts, codes[r.email].attemptsResetAt;
      }
      codes := codes[r.email := CodeRow(r.codeHash, r.keyId, attempts, resetAt, r.expiresAt, r.createdAt)];
    }

    method ReserveEmailCodeAttempt(email: Email, now: Time, max: nat) returns (reserved: Option<ReservedCode>)
      modifies this`codes
      ensures (Contents(), Attempt(reserved)) == Exec(old(Contents()), Statement.ReserveEmailCodeAttempt(email, now, max))
      ensures old(Valid()) ==> Valid()
    {
      reserved := None;
      if email in codes && codes[email].attempts < max && codes[email].expiresAt > now {
        codes := codes[email := codes[email].(attempts := codes[email].attempts + 1)];
        reserved := Some(ReservedCode(codes[email].codeHash, codes[email].keyId, codes[email].attempts));
      }
    }

    method ConsumeEmailCode(email: Email, codeHash: CodeHash) returns (won: bool)
      modifies this`codes
      ensures (Contents(), Flag(won)) == Exec(old(Contents()), Statement.ConsumeEmailCode(email, codeHash))
      ensures old(Valid()) ==> Valid()
    {
      won := email in codes && codes[email].codeHash == codeHash;
      if won { codes := codes - {email}; }
    }

    // ----- devices -----

    /** False when the id is taken: the insert throws. */
    method CreateDevice(d: DeviceId, row: DeviceRow) returns (stored: bool)
      modifies this`devices
      ensures (Contents(), if stored then Done else Failed) == Exec(old(Contents()), Statement.CreateDevice(d, row))
      ensures old(Valid()) ==> Valid()
    {
      stored := d !in devices;
      if stored { devices := devices[d := row]; }
    }

    method FindDevice(d: DeviceId) returns (device: Option<DeviceRow>)
      ensures (Contents(), Found(device)) == Exec(Contents(), Statement.FindDevice(d))
    {
      device := None;
      if d in devices { device := Some(devices[d]); }
    }

    method TouchDevice(d: DeviceId, now: Time, idleExpiresAt: Time) returns (idle: Option<Time>)
      modifies this`devices
      ensures (Contents(), Touched(idle)) == Exec(old(Contents()), Statement.TouchDevice(d, now, idleExpiresAt))
      ensures old(Valid()) ==> Valid()
    {
      idle := None;
      if d in devices && devices[d].revokedAt.None? && devices[d].idleExpiresAt > now && devices[d].absoluteExpiresAt > now {
        var bounded := Min(idleExpiresAt, devices[d].absoluteExpiresAt);
        devices := devices[d := devices[d].(lastUsedAt := now, idleExpiresAt := bounded)];
        idle := Some(bounded);
      }
    }

    method RevokeDevice(account: AccountId, d: DeviceId, now: Time) returns (revoked: bool)
      modifies this`devices
      ensures (Contents(), Flag(revoked)) == Exec(old(Contents()), Statement.RevokeDevice(account, d, now))
      ensures revoked
        <==> d in old(devices) && old(devices)[d].accountId == account && old(devices)[d].revokedAt.None?
      ensures devices == if revoked then old(devices)[d := old(devices)[d].(revokedAt := Some(now))] else old(devices)
      ensures old(Valid()) ==> Valid()
    {
      revoked := d in devices && devices[d].accountId == account && devices[d].revokedAt.None?;
      if revoked {
        devices := devices[d := devices[d].(revokedAt := Some(now))];
        assert devices == RevokeDevices(old(devices), {d}, now);
      }
    }

    method RevokeAllDevices(account: AccountId, now: Time, except: Option<DeviceId>) returns (n: nat)
      modifies this`devices
      ensures (Contents(), Number(n)) == Exec(old(Contents()), Statement.RevokeAllDevices(account, now, except))
      ensures OnlyTaken(old(devices), devices, account, except, now) && n == TakenCount(old(devices), account, except)
      ensures old(Valid()) ==> Valid()
    {
      var which := set d | d in devices && devices[d].accountId == account && devices[d].revokedAt.None? && except != Some(d);
      devices := map d | d in devices :: if d in which then devices[d].(revokedAt := Some(now)) else devices[d];
      n := |which|;
      assert which == Revocable(old(devices), account, except);
      RevocableAreTaken(old(devices), account, except, now);
      assert devices == RevokeDevices(old(devices), which, now);
    }

    // ----- credentials -----

    /** The newest live PIN; the unique index leaves at most one. */
    method GetActivePin(account: AccountId) returns (active: Option<ActiveCredential>)
      requires Valid()
      ensures (Contents(), Active(active)) == Exec(Contents(), Statement.GetActivePin(account))
    {
      var left := credentials.Keys;
      active := None;
      while left != {}
        invariant left <= credentials.Keys
        invariant active.None? ==> LivePins(credentials, account) <= left
        invariant active.Some? ==>
          && active.value.credentialId in LivePins(credentials, account)
          && active.value.row == credentials[active.value.credentialId]
        decreases left
      {
        var c :| c in left;
        var row := credentials[c];
        if row.accountId == account && row.pin && row.revokedAt.None? {
          if active.None? || active.value.row.createdAt < row.createdAt { active := Some(ActiveCredential(c, row)); }
        }
        left := left - {c};
      }
    }

    /** One batch: revoke the other devices, revoke the old PIN, insert the new one, clear the guard. */
    method ReplaceCredential(r: NewPin, resetGuard: bool, revokeOthers: Option<Option<DeviceId>>)
      returns (replaced: Option<Replacement>)
      modifies this`devices, this`credentials, this`guards
      ensures (Contents(), if replaced.Some? then Replaced(replaced.value) else Failed)
              == Exec(old(Contents()), Statement.ReplaceCredential(r, resetGuard, revokeOthers))
      ensures replaced.Some? <==> r.credentialId !in old(credentials)
      ensures replaced.Some? ==> BatchDone(old(Contents()), Contents(), r, resetGuard, revokeOthers, replaced.value)
      ensures old(Valid()) ==> Valid()
    {
      hide RevokeDevices, Revocable, RevokePins, LivePins, BatchDone, OneLivePin, OnlyTaken, TakenCount;
      if Valid() { OneLiveStep(Contents(), Statement.ReplaceCredential(r, resetGuard, revokeOthers)); }
      PinReplaced(Contents(), r, resetGuard, revokeOthers);
      if r.credentialId in credentials { return None; }
      var live := LivePins(credentials, r.accountId);
      var revoked := 0;
      if revokeOthers.Some? && live != {} {
        revoked := RevokeAllDevices(r.accountId, r.updatedAt, revokeOthers.value);
      }
      credentials := RevokePins(credentials, r.accountId, r.updatedAt);
      credentials := credentials[r.credentialId := NewPinRow(r)];
      if resetGuard && r.accountId in guards {
        guards := guards[r.accountId := GuardRow(0, None, r.updatedAt)];
      }
      replaced := Some(Replacement(live != {}, revoked));
    }

    method MarkCredentialUsed(c: CredentialId, now: Time, material: Option<Material>)
      modifies this`credentials
      ensures (Contents(), Done) == Exec(old(Contents()), Statement.MarkCredentialUsed(c, now, material))
      ensures OnlyUsed(old(credentials), credentials, c, now, material)
      ensures old(Valid()) ==> Valid()
    {
      if Valid() { OneLiveStep(Contents(), Statement.MarkCredentialUsed(c, now, material)); }
      PinUsed(Contents(), c, now, material);
      if c in credentials && credentials[c].revokedAt.None? {
        var row := credentials[c].(lastUsedAt := Some(now));
        if material.Some? { row := row.(updatedAt := now, material := material.value); }
        credentials := credentials[c := row];
      }
    }

    // ----- login guard -----

    method ReserveLoginAttempt(account: AccountId, max: nat, now: Time) returns (failedCount: Option<nat>)
      modifies this`guards
      ensures (Contents(), LoginAttempt(failedCount)) == Exec(old(Contents()), Statement.ReserveLoginAttempt(account, max, now))
      ensures old(Valid()) ==> Valid()
    {
      if account !in guards {
        guards := guards[account := GuardRow(1, None, now)];
      } else if guards[account].failedCount < max && guards[account].lockedAt.None? {
        guards := guards[account := guards[account].(failedCount := guards[account].failedCount + 1, updatedAt := now)];
      } else {
        return None;
      }
      failedCount := Some(guards[account].failedCount);
    }

    method LockAccount(account: AccountId, max: nat, now: Time)
      modifies this`guards
      ensures (Contents(), Done) == Exec(old(Contents()), Statement.LockAccount(account, max, now))
      ensures old(Valid()) ==> Valid()
    {
      if account in guards && guards[account].failedCount >= max {
        var lockedAt := if guards[account].lockedAt.Some? then guards[account].lockedAt else Some(now);
        guards := guards[account := guards[account].(lockedAt := lockedAt, updatedAt := now)];
      }
    }

    method ResetLoginGuard(account: AccountId, now: Time) returns (before: Option<GuardRow>)
      modifies this`guards
      ensures (Contents(), Guard(before)) == Exec(old(Contents()), Statement.ResetLoginGuard(account, now))
      ensures old(Valid()) ==> Valid()
    {
      before := None;
      if account in guards {
        before := Some(guards[account]);
        guards := guards[account := GuardRow(0, None, now)];
      }
    }

    // ----- cleanup -----

    /** Six deletes in one batch; the sum of what each removed counts every row once. */
    method Cleanup(now: Time, horizonMs: int) returns (removed: nat)
      modifies this
      ensures Contents() == Swept(old(Contents()), now, horizonMs)
      ensures OnlyDeadGone(old(Contents()), Contents(), now, horizonMs)
      ensures removed == |old(codes)| - |codes| + |old(devices)| - |devices|
                         + |old(credentials)| - |credentials| + |old(limits)| - |limits|
      ensures old(Valid()) ==> Valid()
    {
      CleanupLeaves(Contents(), now, horizonMs);
      hide DeviceLive, OnlyDeadGone, OneLivePin, Swept;
      ghost var t := Contents();
      var codesGone := DeleteCodes(now);
      var devicesGone := DeleteDevices(now);
      var credentialsGone := DeleteCredentials();
      var limitsGone := DeleteLimits(now - horizonMs);
      removed := codesGone + devicesGone + credentialsGone + limitsGone;
      SweptIs(t, Contents(), now, horizonMs);
    }

    method DeleteCodes(now: Time) returns (gone: nat)
      modifies this`codes
      ensures codes == (map e | e in old(codes) && old(codes)[e].expiresAt > now :: old(codes)[e])
      ensures gone == |old(codes)| - |codes|
      ensures old(Valid()) ==> Valid()
    {
      var kept := map e | e in codes && !(codes[e].expiresAt <= now) :: codes[e];
      Fewer(codes, kept);
      gone := |codes| - |kept|;
      codes := kept;
    }

    /** Three deletes: past the absolute expiry, past the idle one, revoked. */
    method DeleteDevices(now: Time) returns (gone: nat)
      modifies this`devices
      ensures devices == (map d | d in old(devices) && DeviceLive(old(devices)[d], now) :: old(devices)[d])
      ensures gone == |old(devices)| - |devices|
      ensures old(Valid()) ==> Valid()
    {
      var byAbsolute := map d | d in devices && !(devices[d].absoluteExpiresAt <= now) :: devices[d];
      var byIdle := map d | d in byAbsolute && !(byAbsolute[d].idleExpiresAt <= now) :: byAbsolute[d];
      var unrevoked := map d | d in byIdle && byIdle[d].revokedAt.None? :: byIdle[d];
      Fewer(devices, byAbsolute);
      Fewer(byAbsolute, byIdle);
      Fewer(byIdle, unrevoked);
      gone := (|devices| - |byAbsolute|) + (|byAbsolute| - |byIdle|) + (|byIdle| - |unrevoked|);
      devices := unrevoked;
    }

    method DeleteCredentials() returns (gone: nat)
      modifies this`credentials
      ensures credentials == (map c | c in old(credentials) && old(credentials)[c].revokedAt.None? :: old(credentials)[c])
      ensures gone == |old(credentials)| - |credentials|
      ensures old(Valid()) ==> Valid()
    {
      if Valid() { OneLiveStep(Contents(), Statement.Cleanup(0, 0)); }
      var kept := map c | c in credentials && credentials[c].revokedAt.None? :: credentials[c];
      Fewer(credentials, kept);
      gone := |credentials| - |kept|;
      credentials := kept;
    }

    method DeleteLimits(cutoff: Time) returns (gone: nat)
      modifies this`limits
      ensures limits == (map b | b in old(limits) && old(limits)[b].windowStart > cutoff :: old(limits)[b])
      ensures gone == |old(limits)| - |limits|
      ensures old(Valid()) ==> Valid()
    {
      var kept := map b | b in limits && !(limits[b].windowStart <= cutoff) :: limits[b];
      Fewer(limits, kept);
      gone := |limits| - |kept|;
      limits := kept;
    }
  }

  lemma Fewer<K, V>(m: map<K, V>, m': map<K, V>)
    requires m'.Keys <= m.Keys
    ensures |m'| <= |m|
  {
    Subset(m'.Keys, m.Keys);
  }

  lemma SweptIs(t: Tables, t': Tables, now: Time, horizonMs: int)
    requires t'.limits == map b | b in t.limits && t.limits[b].windowStart > now - horizonMs :: t.limits[b]
    requires t'.codes == map e | e in t.codes && t.codes[e].expiresAt > now :: t.codes[e]
    requires t'.devices == map d | d in t.devices && DeviceLive(t.devices[d], now) :: t.devices[d]
    requires t'.credentials == map c | c in t.credentials && t.credentials[c].revokedAt.None? :: t.credentials[c]
    requires t'.guards == t.guards
    ensures t' == Swept(t, now, horizonMs)
  {}
}
