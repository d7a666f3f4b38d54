/**
 * Rotating the secret over a history of deployments (README.md:1018-1028,
 * src/device-auth/credentials.ts:229-258, src/device-auth/store.ts:524-539).
 */
module PinRotations {
  import opened Basics
  import opened PinCredential
  import opened Tables
  import opened PinKeys

  /** The live PIN of its account. */
  predicate InForce(w: World, c: CredentialId) {
    c in w.tables.credentials && LivePin(w.tables.credentials[c], w.tables.credentials[c].accountId)
  }

  /** A re-hash still to land on a credential that is in force. */
  predicate Pending(w: World, id: nat) {
    id in w.flights && w.flights[id].material.Some? && InForce(w, w.flights[id].credential)
  }

  /** The ring keeps the key of every PIN in force, and of every re-hash under way to one. */
  ghost predicate KeepsKeys(w: World, ring: KeyRing) {
    && HoldsOwn(ring)
    && (forall c :: InForce(w, c) ==> KeyHeld(ring, w.tables.credentials[c].material))
    && (forall id :: Pending(w, id) ==> KeyHeld(ring, w.flights[id].material.value))
  }

  /** These digits are accepted against this material. */
  predicate Opens(ring: KeyRing, iterations: int, material: Material, pin: string) {
    Verify(ring, iterations, pin, material, "").ok
  }

  /**
   * A ring keeps the keys exactly when, under it, every PIN in force verifies
   * its own digits, and so would every re-hash under way once it landed.
   */
  lemma KeepsExactly(idOf: Secret -> KeyId, w: World, ring: KeyRing, iterations: int)
    requires PinsOk(idOf, w) && HoldsOwn(ring) && ring.current.keyId == idOf(ring.current.secret)
    ensures KeepsKeys(w, ring) <==>
      && (forall c :: InForce(w, c) ==> c in w.pins && Opens(ring, iterations, w.tables.credentials[c].material, w.pins[c]))
      && (forall id :: Pending(w, id) ==>
            && w.flights[id].credential in w.pins
            && Opens(ring, iterations, w.flights[id].material.value, w.pins[w.flights[id].credential]))
  {
    hide Verify, KeyHeld, HashedFrom, LivePin;
    forall c | InForce(w, c)
      ensures Opens(ring, iterations, w.tables.credentials[c].material, w.pins[c])
              <==> KeyHeld(ring, w.tables.credentials[c].material)
    {
      VerifyExactly(idOf, ring, iterations, w.pins[c], w.tables.credentials[c].material, "", w.pins[c]);
    }
    forall id | Pending(w, id)
      ensures Opens(ring, iterations, w.flights[id].material.value, w.pins[w.flights[id].credential])
              <==> KeyHeld(ring, w.flights[id].material.value)
    {
      var pin := w.pins[w.flights[id].credential];
      VerifyExactly(idOf, ring, iterations, pin, w.flights[id].material.value, "", pin);
    }
  }

  /** Every deployment of the run keeps those keys at its moment. */
  ghost predicate DeploysKeep(idOf: Secret -> KeyId, w: World, events: seq<Event>)
    requires IsRun(idOf, w, events)
    decreases |events|
  {
    events == [] || ((events[0].Deploy? ==> KeepsKeys(w, events[0].ring))
                     && DeploysKeep(idOf, Next(idOf, w, events[0]), events[1..]))
  }

  /** A deployment apart, nothing loses its key: whatever is written is written under the current one. */
  lemma KeepStep(idOf: Secret -> KeyId, w: World, e: Event)
    requires PinsOk(idOf, w) && KeepsKeys(w, w.ring) && Enabled(idOf, w, e) && (e.Deploy? ==> KeepsKeys(w, e.ring))
    ensures KeepsKeys(Next(idOf, w, e), Next(idOf, w, e).ring)
  {
    match e
    case Deploy(_, _) =>
    case SetPin(a, c, pin, salt, at) => SetPinKeeps(idOf, w, e);
    case Login(id, a, pin, salt) => LoginKeeps(idOf, w, e);
    case LandRehash(id, at) => LandKeeps(idOf, w, id, at);
  }

  lemma SetPinKeeps(idOf: Secret -> KeyId, w: World, e: Event)
    requires PinsOk(idOf, w) && KeepsKeys(w, w.ring) && Enabled(idOf, w, e) && e.SetPin?
    ensures KeepsKeys(Next(idOf, w, e), w.ring)
  {
    assert KeyHeld(w.ring, Enroll(w.ring, w.iterations, e.pin, e.salt));
    hide KeyHeld, HashedFrom, Enroll;
    var w' := Next(idOf, w, e);
    forall c | InForce(w', c) ensures KeyHeld(w.ring, w'.tables.credentials[c].material) {
      if c != e.credential { assert InForce(w, c); }
    }
    forall id | Pending(w', id) ensures KeyHeld(w.ring, w.flights[id].material.value) {
      if w.flights[id].credential != e.credential { assert Pending(w, id); }
    }
  }

  lemma LoginKeeps(idOf: Secret -> KeyId, w: World, e: Event)
    requires KeepsKeys(w, w.ring) && Enabled(idOf, w, e) && e.Login?
    ensures KeepsKeys(Next(idOf, w, e), w.ring)
  {
    var w' := Next(idOf, w, e);
    forall id | Pending(w', id) ensures KeyHeld(w.ring, w'.flights[id].material.value) {
      if id != e.id { assert Pending(w, id); }
    }
  }

  lemma LandKeeps(idOf: Secret -> KeyId, w: World, id: nat, at: Time)
    requires KeepsKeys(w, w.ring) && id in w.flights
    ensures KeepsKeys(Next(idOf, w, LandRehash(id, at)), w.ring)
  {
    var w' := Next(idOf, w, LandRehash(id, at));
    forall c | InForce(w', c) ensures KeyHeld(w.ring, w'.tables.credentials[c].material) {
      assert InForce(w, c);
      if c == w.flights[id].credential && w.flights[id].material.Some? { assert Pending(w, id); }
    }
    forall j | Pending(w', j) ensures KeyHeld(w.ring, w'.flights[j].material.value) { assert Pending(w, j); }
  }

  lemma {:induction false} KeysStayHeld(idOf: Secret -> KeyId, w: World, events: seq<Event>)
    requires PinsOk(idOf, w) && KeepsKeys(w, w.ring) && IsRun(idOf, w, events) && DeploysKeep(idOf, w, events)
    ensures KeepsKeys(After(idOf, w, events), After(idOf, w, events).ring)
    decreases |events|
  {
    hide KeepsKeys, PinsOk, Next, Enabled;
    if events != [] {
      KeepStep(idOf, w, events[0]);
      PinsStep(idOf, w, events[0]);
      KeysStayHeld(idOf, Next(idOf, w, events[0]), events[1..]);
    }
  }

  /** A service started with this ring. */
  function Started(ring: KeyRing, iterations: int): World { World(EmptyTables, ring, iterations, map[], map[], map[]) }

  /**
   * Over any history in which every deployment keeps the keys of the PINs in
   * force and of the re-hashes still to land on them: at every moment the live
   * PIN of an account verifies for exactly the digits set last, whatever was
   * rotated, changed, re-hashed, and in whatever order it landed.
   */
  lemma PinOutlivesRotations(idOf: Secret -> KeyId, ring: KeyRing, iterations: int, events: seq<Event>, a: AccountId,
      pin: string, salt: string)
    requires ring.current.keyId == idOf(ring.current.secret) && HoldsOwn(ring)
    requires IsRun(idOf, Started(ring, iterations), events) && DeploysKeep(idOf, Started(ring, iterations), events)
    requires ActivePin(After(idOf, Started(ring, iterations), events).tables.credentials, a).Some?
    ensures var w := After(idOf, Started(ring, iterations), events);
      var active := ActivePin(w.tables.credentials, a).value;
      && a in w.latest && w.latest[a] in w.pins
      && (Verify(w.ring, w.iterations, pin, active.row.material, salt).ok <==> pin == w.pins[w.latest[a]])
  {
    hide After, IsRun, DeploysKeep, Verify, KeyHeld;
    KeysStayHeld(idOf, Started(ring, iterations), events);
    LastPinVerifies(idOf, ring, iterations, events, a, pin, salt);
    var w := After(idOf, Started(ring, iterations), events);
    var active := ActivePin(w.tables.credentials, a).value;
    assert active.credentialId in LivePins(w.tables.credentials, a);
    assert InForce(w, active.credentialId);
  }

  // ----- what a rotation must list -----

  lemma RingHoldsOwn(idOf: Secret -> KeyId, secret: Secret, previous: seq<Secret>, ring: KeyRing)
    requires IsRingOf(idOf, secret, previous, ring)
    ensures HoldsOwn(ring) && ring.current.keyId == idOf(ring.current.secret)
  {
    assert Kept(idOf, [secret] + previous, idOf(secret), ring.byId[idOf(secret)]);
    assert FirstWith(idOf, [secret] + previous, idOf(secret), 0);
  }

  /** Key ids tell these secrets apart. */
  ghost predicate ToldApart(idOf: Secret -> KeyId, secrets: seq<Secret>) {
    forall t, u :: t in secrets && u in secrets && idOf(t) == idOf(u) ==> t == u
  }

  /**
   * Where key ids tell secrets apart, a ring built from a secret and its
   * predecessors keeps a material exactly when its secret is listed: a
   * rotation may drop a secret exactly when no PIN in force and no re-hash
   * under way still needs it.
   */
  lemma ListedExactlyWhenHeld(idOf: Secret -> KeyId, secret: Secret, previous: seq<Secret>, ring: KeyRing,
                              material: Material, pin: string)
    requires IsRingOf(idOf, secret, previous, ring) && HashedFrom(material, pin, idOf)
    requires ToldApart(idOf, [material.hash.pepper, secret] + previous)
    ensures KeyHeld(ring, material) <==> material.hash.pepper in [secret] + previous
  {
    RingFinds(idOf, secret, previous, ring, material.hash.pepper);
  }

  /** Key ids tell the listed secrets apart, and from the material's. */
  ghost predicate Distinct(idOf: Secret -> KeyId, secret: Secret, previous: seq<Secret>, material: Material) {
    material.PinMaterial? ==> ToldApart(idOf, [material.hash.pepper, secret] + previous)
  }

  predicate Listed(secret: Secret, previous: seq<Secret>, material: Material) {
    material.PinMaterial? && material.hash.pepper in [secret] + previous
  }

  /** So a ring built for a deployment keeps the keys if and only if it lists the secret of every such material. */
  lemma BuiltRingKeeps(idOf: Secret -> KeyId, w: World, secret: Secret, previous: seq<Secret>, ring: KeyRing)
    requires PinsOk(idOf, w) && IsRingOf(idOf, secret, previous, ring)
    requires forall c :: InForce(w, c) ==> Distinct(idOf, secret, previous, w.tables.credentials[c].material)
    requires forall id :: Pending(w, id) ==> Distinct(idOf, secret, previous, w.flights[id].material.value)
    ensures KeepsKeys(w, ring) <==>
      && (forall c :: InForce(w, c) ==> Listed(secret, previous, w.tables.credentials[c].material))
      && (forall id :: Pending(w, id) ==> Listed(secret, previous, w.flights[id].material.value))
  {
    hide KeyHeld, HashedFrom, Distinct, IsRingOf, HoldsOwn, LivePin;
    RingHoldsOwn(idOf, secret, previous, ring);
    forall c | InForce(w, c)
      ensures Listed(secret, previous, w.tables.credentials[c].material)
              <==> KeyHeld(ring, w.tables.credentials[c].material)
    {
      HeldIffListed(idOf, secret, previous, ring, w.tables.credentials[c].material, w.pins[c]);
    }
    forall id | Pending(w, id)
      ensures Listed(secret, previous, w.flights[id].material.value) <==> KeyHeld(ring, w.flights[id].material.value)
    {
      HeldIffListed(idOf, secret, previous, ring, w.flights[id].material.value, w.pins[w.flights[id].credential]);
    }
  }

  lemma HeldIffListed(idOf: Secret -> KeyId, secret: Secret, previous: seq<Secret>, ring: KeyRing, material: Material,
      pin: string)
    requires IsRingOf(idOf, secret, previous, ring) && HashedFrom(material, pin, idOf)
    requires Distinct(idOf, secret, previous, material)
    ensures Listed(secret, previous, material) <==> KeyHeld(ring, material)
  {
    ListedExactlyWhenHeld(idOf, secret, previous, ring, material, pin);
  }

  // ----- dropping a key under a re-hash in flight -----

  /** A re-hash whose key the ring has dropped kills the PIN it lands on. */
  lemma DroppedFlightKills(idOf: Secret -> KeyId, w: World, id: nat, at: Time, a: AccountId, pin: string, salt: string)
    requires PinsOk(idOf, w) && id in w.flights && w.flights[id].material.Some?
    requires w.flights[id].credential in LivePins(w.tables.credentials, a)
    requires !KeyHeld(w.ring, w.flights[id].material.value)
    ensures var w' := Next(idOf, w, LandRehash(id, at));
      && ActivePin(w'.tables.credentials, a).Some?
      && !Verify(w'.ring, w'.iterations, pin, ActivePin(w'.tables.credentials, a).value.row.material, salt).ok
  {
    hide Exec, PinsOk, HashedFrom, Verify, KeyHeld;
    var w', c := Next(idOf, w, LandRehash(id, at)), w.flights[id].credential;
    LandStep(idOf, w, id, at);
    Landed(idOf, w, id, at, a);
    var active := ActivePin(w'.tables.credentials, a).value;
    PinHashed(idOf, w', c);
    VerifyExactly(idOf, w'.ring, w'.iterations, pin, active.row.material, salt, w'.pins[c]);
  }

  lemma PinHashed(idOf: Secret -> KeyId, w: World, c: CredentialId)
    requires PinsOk(idOf, w) && c in w.tables.credentials
    ensures c in w.pins && HashedFrom(w.tables.credentials[c].material, w.pins[c], idOf)
    ensures w.ring.current.keyId == idOf(w.ring.current.secret)
  {}

  /** A re-hash landing on a live PIN is what is stored from then on. */
  lemma Landed(idOf: Secret -> KeyId, w: World, id: nat, at: Time, a: AccountId)
    requires PinsOk(idOf, w) && id in w.flights && w.flights[id].material.Some?
    requires w.flights[id].credential in LivePins(w.tables.credentials, a)
    ensures var active := ActivePin(Next(idOf, w, LandRehash(id, at)).tables.credentials, a);
      && active.Some? && active.value.credentialId == w.flights[id].credential
      && active.value.row.material == w.flights[id].material.value
      && active.value.credentialId in Next(idOf, w, LandRehash(id, at)).tables.credentials
      && Next(idOf, w, LandRehash(id, at)).tables.credentials[active.value.credentialId] == active.value.row
  {
    hide HashedFrom;
    var w', c := Next(idOf, w, LandRehash(id, at)), w.flights[id].credential;
    forall d ensures d in LivePins(w'.tables.credentials, a) <==> d in LivePins(w.tables.credentials, a) {}
  }

  // ----- a history in which that happens -----

  /** Any two secrets, any two costs, any digits. */
  datatype Story = Story(older: Secret, newer: Secret, cost: int, next: int, digits: string)

  function RingOf(idOf: Secret -> KeyId, secret: Secret, previous: Option<Secret>): KeyRing {
    var current := DeriveKeys(idOf, secret);
    KeyRing(current, if previous.Some? && idOf(previous.value) != current.keyId
                     then map[idOf(previous.value) := DeriveKeys(idOf, previous.value), current.keyId := current]
                     else map[current.keyId := current])
  }

  /** What a ring of that secret makes of the digits. */
  function Made(st: Story, idOf: Secret -> KeyId, secret: Secret, cost: int, salt: string): Material {
    Enroll(RingOf(idOf, secret, None), cost, st.digits, salt)
  }

  /**
   * Two logins overlap two deployments: the first re-hashes for a new cost
   * under the old secret, the second under the new one and lands first. The
   * old secret is dropped after that second, successful, login.
   */
  function Downgrade(st: Story, idOf: Secret -> KeyId): seq<Event> {
    [SetPin("a", "c", st.digits, "s0", 0),
     Deploy(RingOf(idOf, st.older, None), st.next), Login(1, "a", st.digits, "s1"),
     Deploy(RingOf(idOf, st.newer, Some(st.older)), st.next), Login(2, "a", st.digits, "s2"), LandRehash(2, 1),
     Deploy(RingOf(idOf, st.newer, None), st.next)]
  }

  /** The account's one PIN is this material of these digits. */
  ghost predicate Holds(st: Story, w: World, material: Material) {
    && w.tables.credentials.Keys == {"c"} && LivePin(w.tables.credentials["c"], "a")
    && w.tables.credentials["c"].material == material && w.pins == map["c" := st.digits] && w.latest == map["a" := "c"]
  }

  lemma HoldsActive(st: Story, w: World, material: Material)
    requires Holds(st, w, material)
    ensures ActivePin(w.tables.credentials, "a") == Some(ActiveCredential("c", w.tables.credentials["c"]))
  {
    assert "c" in LivePins(w.tables.credentials, "a");
  }

  lemma LoginsHere(st: Story, idOf: Secret -> KeyId, w: World, id: nat, salt: string, secret: Secret, its: int,
      oldSalt: string)
    requires var m := PinMaterial(its, oldSalt, Derived(st.digits, secret, oldSalt, its), idOf(secret));
      Holds(st, w, m) && KeyHeld(w.ring, m) && (idOf(secret) != w.ring.current.keyId || its != w.iterations)
    requires id !in w.flights
    ensures Enabled(idOf, w, Login(id, "a", st.digits, salt))
    ensures Next(idOf, w, Login(id, "a", st.digits, salt))
            == w.(flights := w.flights[id := Rehash("c", Some(Enroll(w.ring, w.iterations, st.digits, salt)))])
  {
    HoldsActive(st, w, w.tables.credentials["c"].material);
  }

  lemma LandsHere(st: Story, idOf: Secret -> KeyId, w: World, id: nat, at: Time, m: Material, m': Material)
    requires Holds(st, w, m) && id in w.flights && w.flights[id] == Rehash("c", Some(m'))
    ensures var w' := Next(idOf, w, LandRehash(id, at));
      Holds(st, w', m') && w'.flights == w.flights - {id} && w'.ring == w.ring && w'.iterations == w.iterations
  {}

  ghost predicate Leads(idOf: Secret -> KeyId, w: World, events: seq<Event>, w': World) {
    IsRun(idOf, w, events) && After(idOf, w, events) == w'
  }

  lemma {:induction false} LeadsOn(idOf: Secret -> KeyId, w: World, events: seq<Event>, w': World, e: Event)
    requires Leads(idOf, w, events, w') && Enabled(idOf, w', e)
    ensures Leads(idOf, w, events + [e], Next(idOf, w', e))
    decreases |events|
  {
    hide Enabled, Next;
    if events == [] {
      assert [] + [e] == [e] && [e][1..] == [];
      var next := Next(idOf, w, e);
      assert IsRun(idOf, next, []) && After(idOf, next, []) == next;
      assert IsRun(idOf, w, [e]);
    } else {
      LeadsOn(idOf, Next(idOf, w, events[0]), events[1..], w', e);
      assert (events + [e])[1..] == events[1..] + [e];
    }
  }

  /** The history up to its first `n` events. */
  ghost predicate Came(st: Story, idOf: Secret -> KeyId, n: nat, w: World) {
    n <= 7 && Leads(idOf, Started(RingOf(idOf, st.older, None), st.cost), Downgrade(st, idOf)[..n], w)
  }

  lemma ComesOn(st: Story, idOf: Secret -> KeyId, n: nat, w: World)
    requires n < 7 && Came(st, idOf, n, w) && Enabled(idOf, w, Downgrade(st, idOf)[n])
    ensures Came(st, idOf, n + 1, Next(idOf, w, Downgrade(st, idOf)[n]))
  {
    hide Leads, Enabled, Next;
    LeadsOn(idOf, Started(RingOf(idOf, st.older, None), st.cost), Downgrade(st, idOf)[..n], w, Downgrade(st, idOf)[n]);
    assert Downgrade(st, idOf)[..n] + [Downgrade(st, idOf)[n]] == Downgrade(st, idOf)[..n + 1];
  }

  /** A PIN set under the old secret, and a new cost deployed. */
  lemma NewCost(st: Story, idOf: Secret -> KeyId) returns (w: World)
    ensures Came(st, idOf, 2, w) && w.ring == RingOf(idOf, st.older, None) && w.iterations == st.next && w.flights == map[]
    ensures Holds(st, w, Made(st, idOf, st.older, st.cost, "s0"))
  {
    hide Leads;
    var w0 := Started(RingOf(idOf, st.older, None), st.cost);
    assert Came(st, idOf, 0, w0) by { BeganHere(st, idOf); }
    ComesOn(st, idOf, 0, w0);
    var w1 := Next(idOf, w0, Downgrade(st, idOf)[0]);
    ComesOn(st, idOf, 1, w1);
    w := Next(idOf, w1, Downgrade(st, idOf)[1]);
  }

  lemma BeganHere(st: Story, idOf: Secret -> KeyId)
    ensures Came(st, idOf, 0, Started(RingOf(idOf, st.older, None), st.cost))
  {}

  /** The first login re-hashes for it; then the secret is rotated. */
  lemma Rotated(st: Story, idOf: Secret -> KeyId) returns (w: World)
    requires st.cost != st.next
    ensures Came(st, idOf, 4, w) && w.ring == RingOf(idOf, st.newer, Some(st.older)) && w.iterations == st.next
    ensures Holds(st, w, Made(st, idOf, st.older, st.cost, "s0"))
    ensures w.flights == map[1 := Rehash("c", Some(Made(st, idOf, st.older, st.next, "s1")))]
  {
    hide Came, Exec;
    var w2 := NewCost(st, idOf);
    LoginsHere(st, idOf, w2, 1, "s1", st.older, st.cost, "s0");
    ComesOn(st, idOf, 2, w2);
    var w3 := Next(idOf, w2, Downgrade(st, idOf)[2]);
    ComesOn(st, idOf, 3, w3);
    w := Next(idOf, w3, Downgrade(st, idOf)[3]);
  }

  /** The second login re-hashes under the new secret and lands; the old secret is dropped. */
  lemma OldDropped(st: Story, idOf: Secret -> KeyId) returns (w: World)
    requires idOf(st.older) != idOf(st.newer) && st.cost != st.next
    ensures Came(st, idOf, 7, w) && w.ring == RingOf(idOf, st.newer, None) && w.iterations == st.next
    ensures Holds(st, w, Made(st, idOf, st.newer, st.next, "s2"))
    ensures w.flights == map[1 := Rehash("c", Some(Made(st, idOf, st.older, st.next, "s1")))]
  {
    hide Came, Exec;
    var w4 := Rotated(st, idOf);
    LoginsHere(st, idOf, w4, 2, "s2", st.older, st.cost, "s0");
    ComesOn(st, idOf, 4, w4);
    var w5 := Next(idOf, w4, Downgrade(st, idOf)[4]);
    var m := Made(st, idOf, st.older, st.cost, "s0");
    LandsHere(st, idOf, w5, 2, 1, m, Made(st, idOf, st.newer, st.next, "s2"));
    ComesOn(st, idOf, 5, w5);
    var w6 := Next(idOf, w5, Downgrade(st, idOf)[5]);
    assert w6.flights == w4.flights;
    ComesOn(st, idOf, 6, w6);
    w := Next(idOf, w6, Downgrade(st, idOf)[6]);
  }

  /** The right digits verify, then the older re-hash lands, and no digits ever do again under that ring. */
  lemma DowngradeKillsPin(st: Story, idOf: Secret -> KeyId, pin: string, salt: string) returns (w: World)
    requires idOf(st.older) != idOf(st.newer) && st.cost != st.next
    ensures Leads(idOf, Started(RingOf(idOf, st.older, None), st.cost), Downgrade(st, idOf), w)
    ensures Enabled(idOf, w, LandRehash(1, 2)) && ActivePin(w.tables.credentials, "a").Some?
    ensures Verify(w.ring, st.next, pin, ActivePin(w.tables.credentials, "a").value.row.material, salt).ok <==> pin == st.digits
    ensures var w' := Next(idOf, w, LandRehash(1, 2));
      && ActivePin(w'.tables.credentials, "a").Some? && w'.latest == map["a" := "c"] && w'.pins == map["c" := st.digits]
      && !Verify(w'.ring, st.next, pin, ActivePin(w'.tables.credentials, "a").value.row.material, salt).ok
  {
    hide Leads, Exec;
    w := OldDropped(st, idOf);
    assert Downgrade(st, idOf)[..7] == Downgrade(st, idOf);
    var newer, older := Made(st, idOf, st.newer, st.next, "s2"), Made(st, idOf, st.older, st.next, "s1");
    LandsHere(st, idOf, w, 1, 2, newer, older);
    HoldsActive(st, w, newer);
    HoldsActive(st, Next(idOf, w, LandRehash(1, 2)), older);
  }
}
