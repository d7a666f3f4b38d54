/**
 * Keys and PIN hashing (src/device-auth/keys.ts, src/device-auth/credentials.ts).
 *
 * HKDF, HMAC and PBKDF2 are free constructors: two hashes are equal only if
 * everything that went into them is. A key id is whatever `idOf` says, so two
 * secrets may share one.
 */
module PinCredential {
  import opened Basics

  type Secret = string
  type KeyId = string

  /** The keys derived from one secret; the secret itself stands for the OTP and pepper keys made from it. */
  datatype Keys = Keys(keyId: KeyId, secret: Secret)

  /** `current` makes everything newly written; `byId` only verifies. */
  datatype KeyRing = KeyRing(current: Keys, byId: map<KeyId, Keys>)

  /** A ring that verifies what it makes. */
  predicate HoldsOwn(ring: KeyRing) {
    ring.current.keyId in ring.byId && ring.byId[ring.current.keyId].secret == ring.current.secret
  }

  /** PBKDF2 over HMAC(pepper, pin). */
  datatype PinHash = Derived(pin: string, pepper: Secret, salt: string, iterations: int)

  /** A stored credential's material; anything that is not PIN material verifies nothing. */
  datatype Material =
    | PinMaterial(iterations: int, salt: string, hash: PinHash, pepperVer: KeyId)
    | OtherMaterial

  datatype Check = Check(ok: bool, upgraded: Option<Material>)

  function DeriveKeys(idOf: Secret -> KeyId, secret: Secret): Keys {
    Keys(idOf(secret), secret)
  }

  function Enroll(ring: KeyRing, iterations: int, pin: string, salt: string): Material {
    PinMaterial(iterations, salt, Derived(pin, ring.current.secret, salt, iterations), ring.current.keyId)
  }

  /** `salt` is the fresh salt an upgrade would use. */
  function Verify(ring: KeyRing, iterations: int, pin: string, material: Material, salt: string): Check {
    match material
    case OtherMaterial => Check(false, None)
    case PinMaterial(its, oldSalt, hash, pepperVer) =>
      if pepperVer !in ring.byId then Check(false, None)
      else if Derived(pin, ring.byId[pepperVer].secret, oldSalt, its) != hash then Check(false, None)
      else if pepperVer != ring.current.keyId || its != iterations then
        Check(true, Some(Enroll(ring, iterations, pin, salt)))
      else Check(true, None)
  }
}
