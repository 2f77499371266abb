/**
 * The cryptographic collaborators of the account code. Key types, curve
 * labels and key objects are plain values; everything that computes
 * (scrypt with AES-256-GCM, base64, elliptic-curve key derivation, address
 * hashing and base58, BIP-39 and BIP-32) is an uninterpreted function held in
 * a `Primitives` value, about which only the stated round-trip laws are known.
 */
module Crypto {
  import opened Wrappers
  import opened Encoding

  /** Signature algorithm of a key; stored records carry its label. */
  datatype KeyType = ECDSA | SM2 | EDDSA {
    /** `keyType.label` */
    function Label(): string {
      match this
      case ECDSA => "ECDSA"
      case SM2 => "SM2"
      case EDDSA => "EDDSA"
    }
  }

  /** `KeyType.fromLabel`: the key type with that label; an unknown label has none. */
  function KeyTypeFromLabel(name: string): (r: Option<KeyType>)
    ensures r.Some? ==> r.value.Label() == name
    ensures r.None? ==> forall t: KeyType :: t.Label() != name
  {
    if name == "ECDSA" then Some(ECDSA)
    else if name == "SM2" then Some(SM2)
    else if name == "EDDSA" then Some(EDDSA)
    else None
  }

  /** Named elliptic curves; stored records carry the label. */
  datatype CurveLabel = Secp224r1 | Secp256r1 | Secp384r1 | Secp521r1 | Sm2p256v1 | Ed25519 {
    function Label(): string {
      match this
      case Secp224r1 => "P-224"
      case Secp256r1 => "P-256"
      case Secp384r1 => "P-384"
      case Secp521r1 => "P-521"
      case Sm2p256v1 => "sm2p256v1"
      case Ed25519 => "ed25519"
    }
  }

  /** `CurveLabel.fromLabel` */
  function CurveFromLabel(name: string): (r: Option<CurveLabel>)
    ensures r.Some? ==> r.value.Label() == name
    ensures r.None? ==> forall c: CurveLabel :: c.Label() != name
  {
    if name == "P-224" then Some(Secp224r1)
    else if name == "P-256" then Some(Secp256r1)
    else if name == "P-384" then Some(Secp384r1)
    else if name == "P-521" then Some(Secp521r1)
    else if name == "sm2p256v1" then Some(Sm2p256v1)
    else if name == "ed25519" then Some(Ed25519)
    else None
  }

  datatype KeyParameters = KeyParameters(curve: CurveLabel)

  /** The plain record `KeyParameters.serializeJson()` produces. */
  datatype ParametersRecord = ParametersRecord(curve: string)

  function ParametersToJson(p: KeyParameters): ParametersRecord {
    ParametersRecord(p.curve.Label())
  }

  /** `KeyParameters.deserializeJson`: fails on an unknown curve label. */
  function ParametersFromJson(r: ParametersRecord): (p: Option<KeyParameters>)
    ensures p.Some? ==> ParametersToJson(p.value) == r
  {
    match CurveFromLabel(r.curve)
    case Some(c) => Some(KeyParameters(c))
    case None => None
  }

  /** Key types and curve parameters survive their label encodings. */
  lemma LabelRoundTrips(t: KeyType, p: KeyParameters)
    ensures KeyTypeFromLabel(t.Label()) == Some(t)
    ensures ParametersFromJson(ParametersToJson(p)) == Some(p)
  {
  }

  datatype PrivateKey = PrivateKey(key: Bytes, algorithm: KeyType, parameters: KeyParameters)

  datatype PublicKey = PublicKey(key: Bytes, algorithm: KeyType, parameters: KeyParameters)

  /** An address: the program hash of a public key. Equality is `Address.equals`. */
  datatype Address = Address(value: Bytes)

  /** Cost profile of scrypt: CPU/memory cost, block size, parallelism and derived-key length. */
  datatype ScryptParams = ScryptParams(cost: nat, blockSize: nat, parallel: nat, size: nat)

  /** The key type `new PrivateKey(hex)` assigns when none is given. */
  const DefaultKeyType: KeyType := ECDSA

  /** The curve `new PrivateKey(hex)` assigns when none is given. */
  const DefaultParameters: KeyParameters := KeyParameters(Secp256r1)

  /** `new PrivateKey(hex)`: the key bytes are the hex-decoded string, with the default type and curve. */
  function PrivateKeyFromHex(hex: string): PrivateKey {
    PrivateKey(HexDecode(hex), DefaultKeyType, DefaultParameters)
  }

  /**
   * The functions the account code calls but does not define, named after
   * the calls it makes.
   */
  datatype Primitives = Primitives(
    // encryptWithGcm(key, address, salt, password, scrypt): scrypt-derived key, AES-256-GCM, address as associated data
    encryptWithGcm: (Bytes, string, Bytes, string, ScryptParams) -> string,
    // decryptWithGcm(ciphertext, address, salt, password, scrypt); None where it throws
    decryptWithGcm: (string, string, Bytes, string, ScryptParams) -> Option<Bytes>,
    // buf.toString('base64') and Buffer.from(s, 'base64')
    base64Encode: Bytes -> string,
    base64Decode: string -> Bytes,
    // privateKey.getPublicKey()
    getPublicKey: PrivateKey -> PublicKey,
    // publicKey.serialize()
    serializePublicKey: PublicKey -> Bytes,
    // Address.fromPubKey(publicKey)
    addressFromPubKey: PublicKey -> Address,
    // address.toBase58() and new Address(string)
    toBase58: Address -> string,
    parseAddress: string -> Address,
    // validateMnemonic(phrase) and toSeedHex(phrase) of BIP-39
    validateMnemonic: string -> bool,
    toSeedHex: string -> string,
    // HDKey.fromMasterSeed(seed).derive(path).privateKey of BIP-32
    derivePrivateKey: (Bytes, string) -> Bytes
  ) {

    /** Opening a sealed key with the same address, salt, password and profile gives the key back. */
    ghost predicate AeadRoundTrip() {
      forall k, a, s, pw, p :: decryptWithGcm(encryptWithGcm(k, a, s, pw, p), a, s, pw, p) == Some(k)
    }

    /** Base64 decoding inverts base64 encoding (section 4 of RFC 4648). */
    ghost predicate Base64RoundTrip() {
      forall b :: base64Decode(base64Encode(b)) == b
    }

    /** `new Address(addr.toBase58())` equals `addr`. */
    ghost predicate AddressRoundTrip() {
      forall addr :: parseAddress(toBase58(addr)) == addr
    }

    ghost predicate Lawful() {
      AeadRoundTrip() && Base64RoundTrip() && AddressRoundTrip()
    }
  }
}
