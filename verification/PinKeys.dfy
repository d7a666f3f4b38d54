/**
 * Rotating the secret behind the PIN hashes (src/device-auth/keys.ts:95-104,
 * src/device-auth/credentials.ts:229-258, src/device-auth/store.ts:524-539).
 */
module PinKeys {
  import opened Basics
  import opened PinCredential
  import opened Tables

  // ----- the ring -----

  /** `all[i]` is the first of the secrets with this key id. */
  predicate FirstWith(idOf: Secret -> KeyId, all: seq<Secret>, id: KeyId, i: int) {
    0 <= i < |all| && idOf(all[i]) == id && forall j :: 0 <= j < i ==> idOf(all[j]) != id
  }

  /** The keys under this id are those of the first secret that has it. */
  ghost predicate Kept(idOf: Secret -> KeyId, all: seq<Secret>, id: KeyId, keys: Keys) {
    keys.keyId == id && exists i :: FirstWith(idOf, all, id, i) && keys.secret == all[i]
  }

  /** The ring of a secret and its predecessors: the current one first, and the first of any that share an id. */
  ghost predicate IsRingOf(idOf: Secret -> KeyId, secret: Secret, previous: seq<Secret>, ring: KeyRing) {
    && ring.current == DeriveKeys(idOf, secret)
    && (forall i :: 0 <= i < |previous| ==> idOf(previous[i]) in ring.byId)
    && idOf(secret) in ring.byId
    && (forall id :: id in ring.byId ==> Kept(idOf, [secret] + previous, id, ring.byId[id]))
  }

  method BuildKeyRing(idOf: Secret -> KeyId, secret: Secret, previous: seq<Secret>) returns (ring: KeyRing)
    ensures IsRingOf(idOf, secret, previous, ring)
  {
    var current := DeriveKeys(idOf, secret);
    var byId := map[current.keyId := current];
    ghost var all := [secret] + previous;
    assert FirstWith(idOf, all, current.keyId, 0);
    for n := 0 to |previous|
      invariant idOf(secret) in byId
      invariant forall i :: 0 <= i < n ==> idOf(previous[i]) in byId
      invariant forall id :: id in byId ==> Kept(idOf, all, id, byId[id])
    {
      if previous[n] != secret {
        var keys := DeriveKeys(idOf, previous[n]);
        if keys.keyId !in byId {
          assert FirstWith(idOf, all, keys.keyId, n + 1) by {
            forall j | 0 <= j < n + 1 ensures idOf(all[j]) != keys.keyId { assert j > 0 ==> all[j] == previous[j - 1]; }
          }
          byId := byId[keys.keyId := keys];
        }
      }
    }
    ring := KeyRing(current, byId);
  }

  /** With distinct key ids, a ring finds exactly the secrets it was built from. */
  lemma RingFinds(idOf: Secret -> KeyId, secret: Secret, previous: seq<Secret>, ring: KeyRing, s: Secret)
    requires IsRingOf(idOf, secret, previous, ring)
    requires forall t, u :: t in [s, secret] + previous && u in [s, secret] + previous && idOf(t) == idOf(u) ==> t == u
    ensures idOf(s) in ring.byId && ring.byId[idOf(s)].secret == s <==> s in [secret] + previous
  {
    var all := [secret] + previous;
    if s in all {
      var i :| 0 <= i < |all| && all[i] == s;
      assert i > 0 ==> all[i] == previous[i - 1];
      assert Kept(idOf, all, idOf(s), ring.byId[idOf(s)]);
      var j :| FirstWith(idOf, all, idOf(s), j) && ring.byId[idOf(s)].secret == all[j];
      assert all[j] in [s, secret] + previous && s in [s, secret] + previous;
    } else if idOf(s) in ring.byId {
      assert Kept(idOf, all, idOf(s), ring.byId[idOf(s)]);
    }
  }

  // ----- one credential -----

  /** Material some key hashed from this PIN, under whatever salt and iterations. */
  predicate HashedFrom(material: Material, pin: string, idOf: Secret -> KeyId) {
    material.PinMaterial? && material.hash == Derived(pin, material.hash.pepper, material.salt, material.iterations)
    && material.pepperVer == idOf(material.hash.pepper)
  }

  /** The ring still holds the key the material was hashed with. */
  predicate KeyHeld(ring: KeyRing, material: Material) {
    material.PinMaterial? && material.pepperVer in ring.byId && ring.byId[material.pepperVer].secret == material.hash.pepper
  }

  /**
   * Verification succeeds for exactly the enrolled PIN while its key is held, and for none after; a
   * re-hash keeps the PIN.
   */
  lemma VerifyExactly(idOf: Secret -> KeyId, ring: KeyRing, iterations: int, pin: string, material: Material,
      salt: string, enrolled: string)
    requires HashedFrom(material, enrolled, idOf) && ring.current.keyId == idOf(ring.current.secret)
    ensures var check := Verify(ring, iterations, pin, material, salt);
      && (check.ok <==> KeyHeld(ring, material) && pin == enrolled)
      && (check.upgraded.Some? <==> check.ok && (material.pepperVer != ring.current.keyId || material.iterations != iterations))
      && (check.upgraded.Some? ==>
            && HashedFrom(check.upgraded.value, enrolled, idOf)
            && check.upgraded.value.hash.pepper == ring.current.secret && check.upgraded.value.iterations == iterations)
  {}

  // ----- rotations, replacements and logins in flight -----

  /** What a login will write when its last statement lands. */
  datatype Rehash = Rehash(credential: CredentialId, material: Option<Material>)

  /** `pins`: the PIN each credential was enrolled with; `latest`: the credential each account set last. */
  datatype World = World(
    tables: Tables, ring: KeyRing, iterations: int, flights: map<nat, Rehash>,
    pins: map<CredentialId, string>, latest: map<AccountId, CredentialId>)

  datatype Event =
    | Deploy(ring: KeyRing, iterations: int)
    | SetPin(account: AccountId, credential: CredentialId, pin: string, salt: string, at: Time)
    | Login(id: nat, account: AccountId, pin: string, salt: string)
    | LandRehash(id: nat, at: Time)

  ghost predicate Enabled(idOf: Secret -> KeyId, w: World, e: Event) {
    match e
    case Deploy(ring, _) => ring.current.keyId == idOf(ring.current.secret)
    case SetPin(_, c, _, _, _) => c !in w.pins
    case Login(id, a, _, _) => id !in w.flights && ActivePin(w.tables.credentials, a).Some?
    case LandRehash(id, _) => id in w.flights
  }

  function NewPinOf(w: World, e: Event): NewPin requires e.SetPin? {
    NewPin(e.credential, e.account, Enroll(w.ring, w.iterations, e.pin, e.salt), e.at)
  }

  ghost function LoginCheck(w: World, e: Event): Check requires e.Login? && ActivePin(w.tables.credentials,
      e.account).Some? {
    Verify(w.ring, w.iterations, e.pin, ActivePin(w.tables.credentials, e.account).value.row.material, e.salt)
  }

  ghost function Next(idOf: Secret -> KeyId, w: World, e: Event): World
    requires Enabled(idOf, w, e)
  {
    match e
    case Deploy(ring, iterations) => w.(ring := ring, iterations := iterations)
    case SetPin(a, c, pin, _, _) =>
      w.(tables := Exec(w.tables, ReplaceCredential(NewPinOf(w, e), true, None)).0,
         pins := w.pins[c := pin], latest := w.latest[a := c])
    case Login(id, a, pin, salt) =>
      var active, check := ActivePin(w.tables.credentials, a).value, LoginCheck(w, e);
      if check.ok then w.(flights := w.flights[id := Rehash(active.credentialId, check.upgraded)]) else w
    case LandRehash(id, at) =>
      w.(tables := Exec(w.tables, MarkCredentialUsed(w.flights[id].credential, at, w.flights[id].material)).0,
         flights := w.flights - {id})
  }

  ghost predicate IsRun(idOf: Secret -> KeyId, w: World, events: seq<Event>)
    decreases |events|
  {
    events == [] || (Enabled(idOf, w, events[0]) && IsRun(idOf, Next(idOf, w, events[0]), events[1..]))
  }

  ghost function After(idOf: Secret -> KeyId, w: World, events: seq<Event>): World
    requires IsRun(idOf, w, events)
    decreases |events|
  {
    if events == [] then w else After(idOf, Next(idOf, w, events[0]), events[1..])
  }

  ghost predicate PinsOk(idOf: Secret -> KeyId, w: World) {
    && w.ring.current.keyId == idOf(w.ring.current.secret)
    && w.tables.credentials.Keys == w.pins.Keys
    && (forall c :: c in w.pins ==> HashedFrom(w.tables.credentials[c].material, w.pins[c], idOf))
    && (forall id :: id in w.flights ==>
          var f := w.flights[id]; f.credential in w.pins && (f.material.Some? ==> HashedFrom(f.material.value, w.pins[f.credential], idOf)))
    && (forall a, c :: c in LivePins(w.tables.credentials, a) ==> a in w.latest && w.latest[a] == c)
  }

  lemma PinsStep(idOf: Secret -> KeyId, w: World, e: Event)
    requires PinsOk(idOf, w) && Enabled(idOf, w, e)
    ensures PinsOk(idOf, Next(idOf, w, e))
  {
    match e
    case Deploy(_, _) =>
    case SetPin(a, c, pin, salt, at) => SetPinStep(idOf, w, e);
    case Login(id, a, pin, salt) =>
      var active := ActivePin(w.tables.credentials, a).value;
      VerifyExactly(idOf, w.ring, w.iterations, pin, active.row.material, salt, w.pins[active.credentialId]);
    case LandRehash(id, at) => LandStep(idOf, w, id, at);
  }

  lemma SetPinStep(idOf: Secret -> KeyId, w: World, e: Event)
    requires PinsOk(idOf, w) && Enabled(idOf, w, e) && e.SetPin?
    ensures PinsOk(idOf, Next(idOf, w, e))
  {
    var w' := Next(idOf, w, e);
    forall a, c | c in LivePins(w'.tables.credentials, a) ensures a in w'.latest && w'.latest[a] == c {
      if c != e.credential { assert c in LivePins(w.tables.credentials, a); }
    }
  }

  /** Marking a credential used changes its material at most, and only while it is live. */
  lemma MarkedUsed(t: Tables, c: CredentialId, at: Time, material: Option<Material>)
    ensures var t' := Exec(t, MarkCredentialUsed(c, at, material)).0;
      && t'.credentials.Keys == t.credentials.Keys
      && (forall d :: d in t.credentials ==>
            && t'.credentials[d].accountId == t.credentials[d].accountId
            && t'.credentials[d].pin == t.credentials[d].pin
            && t'.credentials[d].revokedAt == t.credentials[d].revokedAt
            && t'.credentials[d].material in {t.credentials[d].material, if d == c && material.Some? then material.value else t.credentials[d].material})
  {}

  lemma LandStep(idOf: Secret -> KeyId, w: World, id: nat, at: Time)
    requires PinsOk(idOf, w) && id in w.flights
    ensures PinsOk(idOf, Next(idOf, w, LandRehash(id, at)))
  {
    hide Exec;
    var w', f := Next(idOf, w, LandRehash(id, at)), w.flights[id];
    MarkedUsed(w.tables, f.credential, at, f.material);
    forall a ensures LivePins(w'.tables.credentials, a) == LivePins(w.tables.credentials, a) {}
  }

  lemma {:induction false} PinsRun(idOf: Secret -> KeyId, w: World, events: seq<Event>)
    requires PinsOk(idOf, w) && IsRun(idOf, w, events)
    ensures PinsOk(idOf, After(idOf, w, events))
    decreases |events|
  {
    if events != [] {
      PinsStep(idOf, w, events[0]);
      PinsRun(idOf, Next(idOf, w, events[0]), events[1..]);
    }
  }

  /**
   * After any rotations, PIN changes and logins, with re-hashes landing
   * whenever they land: whatever is the account's live PIN is the one set
   * last, and it verifies exactly that PIN while the ring holds its key, and
   * nothing once the key was dropped.
   */
  lemma LastPinVerifies(idOf: Secret -> KeyId, ring: KeyRing, iterations: int, events: seq<Event>, a: AccountId,
      pin: string, salt: string)
    requires ring.current.keyId == idOf(ring.current.secret)
    requires var w0 := World(EmptyTables, ring, iterations, map[], map[], map[]); IsRun(idOf, w0, events)
    requires ActivePin(After(idOf, World(EmptyTables, ring, iterations, map[], map[], map[]), events).tables.credentials, a).Some?
    ensures var w := After(idOf, World(EmptyTables, ring, iterations, map[], map[], map[]), events);
      var active := ActivePin(w.tables.credentials, a).value;
      && a in w.latest && active.credentialId == w.latest[a] && active.credentialId in w.pins
      && (Verify(w.ring, w.iterations, pin, active.row.material, salt).ok
          <==> KeyHeld(w.ring, active.row.material) && pin == w.pins[w.latest[a]])
  {
    var w0 := World(EmptyTables, ring, iterations, map[], map[], map[]);
    PinsRun(idOf, w0, events);
    var w := After(idOf, w0, events);
    var active := ActivePin(w.tables.credentials, a).value;
    VerifyExactly(idOf, w.ring, w.iterations, pin, active.row.material, salt, w.pins[active.credentialId]);
  }

  /** A re-hash computed before a PIN change, landing after it, touches neither the new PIN nor the revoked one. */
  lemma LateRehashLost(idOf: Secret -> KeyId, w: World, id: nat, at: Time, e: Event)
    requires PinsOk(idOf, w) && e.SetPin? && Enabled(idOf, w, e) && id in w.flights
    requires w.flights[id].credential in LivePins(w.tables.credentials, e.account)
    ensures var changed := Next(idOf, w, e); Next(idOf, changed, LandRehash(id, at)).tables == changed.tables
  {
    hide Exec, PinsOk;
    var c, t := w.flights[id].credential, Next(idOf, w, e).tables;
    RevokedBySetPin(idOf, w, e, c);
    MarkedRevoked(t, c, at, w.flights[id].material);
  }

  lemma RevokedBySetPin(idOf: Secret -> KeyId, w: World, e: Event, c: CredentialId)
    requires PinsOk(idOf, w) && e.SetPin? && Enabled(idOf, w, e) && c in LivePins(w.tables.credentials, e.account)
    ensures var t := Next(idOf, w, e).tables; c in t.credentials && t.credentials[c].revokedAt.Some?
  {}

  lemma MarkedRevoked(t: Tables, c: CredentialId, at: Time, material: Option<Material>)
    requires c in t.credentials && t.credentials[c].revokedAt.Some?
    ensures Exec(t, MarkCredentialUsed(c, at, material)).0 == t
  {}
}
