/**
 * What the statements that touch many rows do to each of them
 * (src/device-auth/store.ts:425-539, 585-596), row by row and in terms of the
 * columns alone.
 */
module StatementFacts {
  import opened Basics
  import opened PinCredential
  import opened Tables

  // ----- devices -----

  /** The account's own device, not yet revoked, and not the one to keep. */
  predicate Taken(row: DeviceRow, d: DeviceId, account: AccountId, kept: Option<DeviceId>) {
    row.accountId == account && row.revokedAt.None? && (kept.Some? ==> d != kept.value)
  }

  /** Exactly the taken devices are revoked, at `now`; every other column and row is as it was. */
  ghost predicate OnlyTaken(devices: map<DeviceId, DeviceRow>, devices': map<DeviceId, DeviceRow>, account: AccountId,
      kept: Option<DeviceId>, now: Time)
  {
    && devices'.Keys == devices.Keys
    && forall d :: d in devices ==>
      devices'[d] == if Taken(devices[d], d, account, kept) then devices[d].(revokedAt := Some(now)) else devices[d]
  }

  function TakenCount(devices: map<DeviceId, DeviceRow>, account: AccountId, kept: Option<DeviceId>): nat {
    |set d | d in devices && Taken(devices[d], d, account, kept)|
  }

  lemma RevocableAreTaken(devices: map<DeviceId, DeviceRow>, account: AccountId, kept: Option<DeviceId>, now: Time)
    ensures OnlyTaken(devices, RevokeDevices(devices, Revocable(devices, account, kept), now), account, kept, now)
    ensures |Revocable(devices, account, kept)| == TakenCount(devices, account, kept)
  {
    assert Revocable(devices, account, kept) == set d | d in devices && Taken(devices[d], d, account, kept);
  }

  lemma AllRevoked(t: Tables, account: AccountId, now: Time, kept: Option<DeviceId>)
    ensures var (t', a) := Exec(t, RevokeAllDevices(account, now, kept));
      && OnlyTaken(t.devices, t'.devices, account, kept, now) && a == Number(TakenCount(t.devices, account, kept))
      && t' == t.(devices := t'.devices)
  {
    RevocableAreTaken(t.devices, account, kept, now);
  }

  lemma OneRevoked(t: Tables, account: AccountId, d: DeviceId, now: Time)
    ensures var (t', a) := Exec(t, RevokeDevice(account, d, now));
      var found := d in t.devices && t.devices[d].accountId == account && t.devices[d].revokedAt.None?;
      && a == Flag(found)
      && t' == if found then t.(devices := t.devices[d := t.devices[d].(revokedAt := Some(now))]) else t
  {
    if d in t.devices {
      assert RevokeDevices(t.devices, {d}, now) == t.devices[d := t.devices[d].(revokedAt := Some(now))];
    }
  }

  // ----- PINs -----

  predicate InForce(row: CredentialRow, account: AccountId) { row.accountId == account && row.pin && row.revokedAt.None? }

  ghost predicate HasPin(credentials: map<CredentialId, CredentialRow>, account: AccountId) {
    exists c :: c in credentials && InForce(credentials[c], account)
  }

  /** The account's live PIN is revoked, the new one is there, and no other credential has changed. */
  ghost predicate PinChanged(credentials: map<CredentialId, CredentialRow>,
      credentials': map<CredentialId, CredentialRow>, pin: NewPin)
  {
    && credentials'.Keys == credentials.Keys + {pin.credentialId}
    && credentials'[pin.credentialId]
       == CredentialRow(pin.accountId, true, pin.material, pin.updatedAt, pin.updatedAt, None, None)
    && forall c :: c in credentials && c != pin.credentialId ==>
      credentials'[c] == if InForce(credentials[c], pin.accountId)
        then credentials[c].(revokedAt := Some(pin.updatedAt), updatedAt := pin.updatedAt) else credentials[c]
  }

  lemma LivePinsInForce(credentials: map<CredentialId, CredentialRow>, account: AccountId)
    ensures LivePins(credentials, account) != {} <==> HasPin(credentials, account)
    ensures forall c :: c in LivePins(credentials, account) <==> c in credentials && InForce(credentials[c], account)
  {
    if HasPin(credentials, account) {
      var c :| c in credentials && InForce(credentials[c], account);
      assert c in LivePins(credentials, account);
    }
  }

  /** What the batch leaves, and answers: devices only if asked for, and only while a PIN is being replaced. */
  ghost predicate BatchDone(t: Tables, t': Tables, pin: NewPin, resetGuard: bool, others: Option<Option<DeviceId>>,
      answer: Replacement)
  {
    var account, now, had := pin.accountId, pin.updatedAt, HasPin(t.credentials, pin.accountId);
    && answer.replaced == had
    && (if others.Some? && had then
          && OnlyTaken(t.devices, t'.devices, account, others.value, now)
          && answer.devicesRevoked == TakenCount(t.devices, account, others.value)
        else t'.devices == t.devices && answer.devicesRevoked == 0)
    && PinChanged(t.credentials, t'.credentials, pin)
    && t'.guards == (if resetGuard && account in t.guards then t.guards[account := GuardRow(0, None, now)] else t.guards)
    && t'.limits == t.limits && t'.codes == t.codes
  }

  lemma PinReplaced(t: Tables, pin: NewPin, resetGuard: bool, others: Option<Option<DeviceId>>)
    ensures var (t', a) := Exec(t, ReplaceCredential(pin, resetGuard, others));
      if pin.credentialId in t.credentials then (t', a) == (t, Failed)
      else a.Replaced? && BatchDone(t, t', pin, resetGuard, others, a.replacement)
  {
    LivePinsInForce(t.credentials, pin.accountId);
    if others.Some? { RevocableAreTaken(t.devices, pin.accountId, others.value, pin.updatedAt); }
    hide OnlyTaken, TakenCount, Revocable, RevokeDevices, LivePins, HasPin;
  }

  /** A used PIN: its last use, and its re-hash if there is one; a revoked credential, and any other, is left alone. */
  ghost predicate OnlyUsed(credentials: map<CredentialId, CredentialRow>, credentials': map<CredentialId, CredentialRow>,
      used: CredentialId, now: Time, material: Option<Material>)
  {
    && credentials'.Keys == credentials.Keys
    && forall c :: c in credentials ==>
      credentials'[c] == if c != used || credentials[c].revokedAt.Some? then credentials[c]
        else if material.Some? then credentials[c].(lastUsedAt := Some(now), updatedAt := now, material := material.value)
        else credentials[c].(lastUsedAt := Some(now))
  }

  lemma PinUsed(t: Tables, c: CredentialId, now: Time, material: Option<Material>)
    ensures var t' := Exec(t, MarkCredentialUsed(c, now, material)).0;
      t' == t.(credentials := t'.credentials) && OnlyUsed(t.credentials, t'.credentials, c, now, material)
  {}

  // ----- cleanup -----

  /**
   * Exactly these rows are left, unchanged: counters of windows opened inside
   * the horizon, unexpired codes, live devices, unrevoked credentials, every
   * guard.
   */
  ghost predicate OnlyDeadGone(t: Tables, t': Tables, now: Time, horizon: int) {
    && (forall b :: b in t'.limits <==> b in t.limits && t.limits[b].windowStart > now - horizon)
    && (forall b :: b in t'.limits ==> t'.limits[b] == t.limits[b])
    && (forall e :: e in t'.codes <==> e in t.codes && t.codes[e].expiresAt > now)
    && (forall e :: e in t'.codes ==> t'.codes[e] == t.codes[e])
    && (forall d :: d in t'.devices <==>
          && d in t.devices && t.devices[d].revokedAt.None?
          && t.devices[d].idleExpiresAt > now && t.devices[d].absoluteExpiresAt > now)
    && (forall d :: d in t'.devices ==> t'.devices[d] == t.devices[d])
    && (forall c :: c in t'.credentials <==> c in t.credentials && t.credentials[c].revokedAt.None?)
    && (forall c :: c in t'.credentials ==> t'.credentials[c] == t.credentials[c])
    && t'.guards == t.guards
  }

  lemma CleanupLeaves(t: Tables, now: Time, horizon: int)
    ensures OnlyDeadGone(t, Exec(t, Cleanup(now, horizon)).0, now, horizon)
  {}
}
