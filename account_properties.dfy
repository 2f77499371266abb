/**
 * What the account factories, the codec and key recovery promise, stated
 * over the value model of `Accounts` and the round-trip laws of `Crypto`.
 */
module AccountProperties {
  import opened Wrappers
  import opened Encoding
  import opened Crypto
  import opened Accounts

  /**
   * `importAccount` succeeds exactly when the key opens and the address
   * computed from its public key equals the claimed one; otherwise it reports
   * which of the two failed.
   */
  lemma ImportOutcome(
    name: string, encryptedKey: string, keyType: KeyType, keyParameters: KeyParameters,
    password: string, address: string, saltBase64: string, scrypt: ScryptParams,
    labelBytes: Bytes, P: Primitives)
    ensures
      var r := ImportedAccount(name, encryptedKey, keyType, keyParameters, password, address, saltBase64, scrypt, labelBytes, P);
      var sk := P.decryptWithGcm(encryptedKey, address, P.base64Decode(saltBase64), password, scrypt);
      && (r.Success? <==>
            sk.Some? && P.addressFromPubKey(P.getPublicKey(PrivateKey(sk.value, keyType, keyParameters))) == P.parseAddress(address))
      && (r.Failure? ==> r.error == if sk.None? then DecryptionFailed else AddressMismatch)
      && (r.Success? ==> r.value.publicKey == P.getPublicKey(PrivateKey(sk.value, keyType, keyParameters)))
  {
  }

  /**
   * An empty label is replaced by the hex of the four random bytes, eight
   * lower-case hex digits; any other label is kept as given.
   */
  lemma ImportLabel(
    name: string, encryptedKey: string, keyType: KeyType, keyParameters: KeyParameters,
    password: string, address: string, saltBase64: string, scrypt: ScryptParams,
    labelBytes: Bytes, P: Primitives)
    requires |labelBytes| == LabelEntropyLength
    ensures
      var r := ImportedAccount(name, encryptedKey, keyType, keyParameters, password, address, saltBase64, scrypt, labelBytes, P);
      r.Success? ==>
        && (name != "" ==> r.value.name == name)
        && (name == "" ==> |r.value.name| == 8 && forall i :: 0 <= i < 8 ==> IsLowerHexDigit(r.value.name[i]))
        && (name == "" ==> HexDecode(r.value.name) == labelBytes)
  {
    HexRoundTrip(labelBytes);
  }

  /**
   * The sealed key and the base64 salt are stored exactly as supplied, the
   * profile is the given one, both flags are off and there is no `extra`.
   */
  lemma ImportStoresInputs(
    name: string, encryptedKey: string, keyType: KeyType, keyParameters: KeyParameters,
    password: string, address: string, saltBase64: string, scrypt: ScryptParams,
    labelBytes: Bytes, P: Primitives)
    ensures
      var r := ImportedAccount(name, encryptedKey, keyType, keyParameters, password, address, saltBase64, scrypt, labelBytes, P);
      r.Success? ==>
        && r.value.encryptedKey == encryptedKey && r.value.salt == saltBase64 && r.value.scrypt == scrypt
        && !r.value.lock && !r.value.isDefault && r.value.extra == None
        && r.value.encAlg == DefaultEncAlg && r.value.hash == DefaultHash
  {
  }

  /**
   * `create` keeps the label verbatim (an empty one too), turns both flags
   * off, and stores a salt that decodes back to the 16 random bytes.
   */
  lemma CreateInitialises(name: string, privateKey: PrivateKey, password: string, scrypt: ScryptParams, salt: Bytes, P: Primitives)
    requires |salt| == SaltLength && P.Base64RoundTrip()
    ensures
      var a := CreatedAccount(name, privateKey, password, scrypt, salt, P);
      && a.name == name && !a.lock && !a.isDefault && a.extra == None && a.scrypt == scrypt
      && a.encAlg == DefaultEncAlg && a.hash == DefaultHash
      && P.base64Decode(a.salt) == salt && |P.base64Decode(a.salt)| == 16
  {
  }

  /**
   * The key sealed by `create` is recovered by `decryptKey` with the same
   * password: both use the base58 address, the same salt and the same
   * profile. The recovered key has the public key's type and curve, so it is
   * the original key when the public key keeps those of the private key.
   */
  lemma CreateDecryptRoundTrip(name: string, privateKey: PrivateKey, password: string, scrypt: ScryptParams, salt: Bytes, P: Primitives)
    requires P.AeadRoundTrip() && P.Base64RoundTrip()
    ensures
      var a := CreatedAccount(name, privateKey, password, scrypt, salt, P);
      var pub := P.getPublicKey(privateKey);
      && a.DecryptKey(password, P) == Success(PrivateKey(privateKey.key, pub.algorithm, pub.parameters))
      && (pub.algorithm == privateKey.algorithm && pub.parameters == privateKey.parameters ==>
            a.DecryptKey(password, P) == Success(privateKey))
  {
  }

  /** Changing the label or the flags of an account changes neither its key recovery nor its address binding. */
  lemma ManagementFieldsIndependent(a: AccountState, name: string, lock: bool, isDefault: bool, password: string, P: Primitives)
    ensures
      var b := a.(name := name, lock := lock, isDefault := isDefault);
      && b.DecryptKey(password, P) == a.DecryptKey(password, P)
      && (AddressBound(b, P) <==> AddressBound(a, P))
  {
  }

  /**
   * The mnemonic path fixes the key and the address from the phrase alone:
   * neither the label, the password, the profile nor the salt affects them.
   */
  lemma MnemonicAddressIndependent(
    name1: string, name2: string, mnemonic: string, password1: string, password2: string,
    scrypt1: ScryptParams, scrypt2: ScryptParams, salt1: Bytes, salt2: Bytes, P: Primitives)
    ensures
      var r1 := MnemonicAccount(name1, mnemonic, password1, scrypt1, salt1, P);
      var r2 := MnemonicAccount(name2, mnemonic, password2, scrypt2, salt2, P);
      && r1.Success? == r2.Success?
      && (r1.Success? ==> r1.value.address == r2.value.address && r1.value.publicKey == r2.value.publicKey)
  {
  }

  /** Surrounding whitespace of the phrase is irrelevant: it is trimmed before anything else. */
  lemma MnemonicTrimmed(name: string, mnemonic: string, password: string, scrypt: ScryptParams, salt: Bytes, P: Primitives)
    ensures MnemonicAccount(name, mnemonic, password, scrypt, salt, P) == MnemonicAccount(name, Trim(mnemonic), password, scrypt, salt, P)
  {
    TrimIdempotent(mnemonic);
  }

  /**
   * An account from a mnemonic gives back, under its password, the BIP-32
   * child key derived at `ONT_BIP44_PATH` from the trimmed phrase.
   */
  lemma MnemonicDecryptsToDerivedKey(name: string, mnemonic: string, password: string, scrypt: ScryptParams, salt: Bytes, P: Primitives)
    requires P.AeadRoundTrip() && P.Base64RoundTrip()
    ensures
      var r := MnemonicAccount(name, mnemonic, password, scrypt, salt, P);
      var raw := P.derivePrivateKey(HexDecode(P.toSeedHex(Trim(mnemonic))), OntBip44Path);
      r.Success? ==> r.value.DecryptKey(password, P).Success? && r.value.DecryptKey(password, P).value.key == raw
  {
    var phrase := Trim(mnemonic);
    if P.validateMnemonic(phrase) {
      CreateDecryptRoundTrip(name, MnemonicKey(phrase, P), password, scrypt, salt, P);
    }
  }

  /**
   * `deserializeJson` copies the stored fields and takes the address from
   * the record as it is, whatever the public key: it does not re-check the
   * binding. The profile is the argument, and `enc-alg` is not read.
   */
  lemma DeserializeCopiesFields(obj: AccountRecord, scrypt: ScryptParams, P: Primitives)
    ensures
      var r := DeserializedAccount(obj, scrypt, P);
      r.Success? ==>
        && r.value.address == P.parseAddress(obj.address)
        && r.value.name == obj.name && r.value.lock == obj.lock && r.value.isDefault == obj.isDefault
        && r.value.hash == obj.hash && r.value.salt == obj.salt && r.value.encryptedKey == obj.key
        && r.value.extra == obj.extra && r.value.scrypt == scrypt && r.value.encAlg == DefaultEncAlg
        && r.value.publicKey.key == HexDecode(obj.publicKey)
        && r.value.publicKey.algorithm.Label() == obj.algorithm
        && ParametersToJson(r.value.publicKey.parameters) == obj.parameters
  {
  }

  /**
   * Serializing and deserializing keeps every stored field but three: `extra`
   * is lost, `enc-alg` returns to its default, and the public key comes back
   * with the bytes of its serialized form. The profile is the one passed in.
   */
  lemma {:induction false} CodecRoundTrip(a: AccountState, scrypt: ScryptParams, P: Primitives)
    requires P.AddressRoundTrip()
    ensures DeserializedAccount(a.SerializeJson(P), scrypt, P) == Success(a.(
      extra := None,
      encAlg := DefaultEncAlg,
      scrypt := scrypt,
      publicKey := PublicKey(P.serializePublicKey(a.publicKey), a.publicKey.algorithm, a.publicKey.parameters)))
  {
    HexRoundTrip(P.serializePublicKey(a.publicKey));
    LabelRoundTrips(a.publicKey.algorithm, a.publicKey.parameters);
  }

  /**
   * An account without `extra`, with the default `enc-alg` and a public key
   * that serializes to its own bytes survives the codec unchanged, given its
   * own profile.
   */
  lemma CodecExactRoundTrip(a: AccountState, P: Primitives)
    requires P.AddressRoundTrip()
    requires a.extra == None && a.encAlg == DefaultEncAlg && P.serializePublicKey(a.publicKey) == a.publicKey.key
    ensures DeserializedAccount(a.SerializeJson(P), a.scrypt, P) == Success(a)
  {
    CodecRoundTrip(a, a.scrypt, P);
  }

  /** An account with `extra` never survives the codec. */
  lemma CodecLosesExtra(a: AccountState, scrypt: ScryptParams, P: Primitives)
    requires a.extra.Some?
    ensures DeserializedAccount(a.SerializeJson(P), scrypt, P) != Success(a)
  {
  }

  /**
   * Exporting a created account and importing it again with the same
   * password, key type and curve succeeds and rebuilds the same account, up
   * to the defaulting of an empty label.
   */
  lemma ExportImportRoundTrip(
    name: string, privateKey: PrivateKey, password: string, scrypt: ScryptParams, salt: Bytes,
    labelBytes: Bytes, P: Primitives)
    requires P.Lawful()
    ensures
      var a := CreatedAccount(name, privateKey, password, scrypt, salt, P);
      var rec := a.SerializeJson(P);
      ImportedAccount(name, rec.key, privateKey.algorithm, privateKey.parameters, password, rec.address, rec.salt, scrypt, labelBytes, P)
        == Success(a.(name := if name == "" then HexEncode(labelBytes) else name))
  {
  }
}
