/**
 * The wallet account of `src/wallet/account.ts`: a key pair, a label and the
 * private key sealed under a password, bound to the address of the public key.
 *
 * `label` is a keyword of Dafny, so the account's label is the field `name`.
 * Every operation takes the uninterpreted collaborators as `P`; the random
 * bytes the source draws (the 16-byte salt, the 4 bytes of a default label)
 * are parameters.
 */
module Accounts {
  import opened Wrappers
  import opened Encoding
  import opened Crypto

  /** `ONT_BIP44_PATH`: purpose 44', coin type 1024', account 0', external chain 0, index 0. */
  const OntBip44Path: string := "m/44'/1024'/0'/0/0"

  /** The BIP-44 path `m/44'/coin'/account'/change/index`. */
  function Bip44Path(coinType: nat, account: nat, change: nat, index: nat): string {
    "m/44'/" + Decimal(coinType) + "'/" + Decimal(account) + "'/" + Decimal(change) + "/" + Decimal(index)
  }

  /** The constant path is the BIP-44 path of coin type 1024, first account, external chain, first address. */
  lemma OntBip44PathLayout()
    ensures OntBip44Path == Bip44Path(1024, 0, 0, 0)
  {
  }

  /** Initial value of the `enc-alg` field, never changed by this code. */
  const DefaultEncAlg: string := "aes-256-gcm"

  /** Initial value of the `hash` field. */
  const DefaultHash: string := "sha256"

  /** `randomBytes(16)`: length of the salt `create` draws. */
  const SaltLength: nat := 16

  /** `randomBytes(4)`: length of the entropy behind a default label. */
  const LabelEntropyLength: nat := 4

  datatype Error =
    | DecryptionFailed  // thrown by decryptWithGcm: wrong password, address, salt or profile, or a corrupted key
    | AddressMismatch   // 'Computed address does not match the provided address.'
    | InvalidMnemonic   // 'Invalid mnemonics'
    | UnknownKeyType    // KeyType.fromLabel found no key type with the stored `algorithm`
    | UnknownCurve      // KeyParameters.deserializeJson found no curve with the stored label

  /**
   * The plain record of `serializeJson` and `deserializeJson`, one field per
   * key (`key` holds the sealed private key, `encAlg` the key `enc-alg`);
   * `extra` is `None` where the record has no `extra` key.
   */
  datatype AccountRecord = AccountRecord(
    address: string,
    name: string,
    lock: bool,
    key: string,
    encAlg: string,
    hash: string,
    salt: string,
    isDefault: bool,
    publicKey: string,
    algorithm: string,
    parameters: ParametersRecord,
    extra: Option<string>)
  {
    /** The keys present in the record. */
    function Keys(): set<string> {
      SerializedKeys + (if extra.Some? then {"extra"} else {})
    }
  }

  /** The keys `serializeJson` emits. */
  const SerializedKeys: set<string> :=
    {"address", "label", "lock", "key", "enc-alg", "hash", "salt", "isDefault", "publicKey", "algorithm", "parameters"}

  /** The fields of an `Account`, as a value. */
  datatype AccountState = AccountState(
    address: Address,
    name: string,
    lock: bool,
    encryptedKey: string,
    extra: Option<string>,
    encAlg: string,
    hash: string,
    salt: string,
    publicKey: PublicKey,
    isDefault: bool,
    scrypt: ScryptParams)
  {
    /** `serializeJson()`: the record of the stored fields, without `extra`. */
    function SerializeJson(P: Primitives): (r: AccountRecord)
      ensures r.Keys() == SerializedKeys && "extra" !in r.Keys()
      ensures r.publicKey == HexEncode(P.serializePublicKey(publicKey))
    {
      AccountRecord(
        address := P.toBase58(address),
        name := name,
        lock := lock,
        key := encryptedKey,
        encAlg := encAlg,
        hash := hash,
        salt := salt,
        isDefault := isDefault,
        publicKey := HexEncode(P.serializePublicKey(publicKey)),
        algorithm := publicKey.algorithm.Label(),
        parameters := ParametersToJson(publicKey.parameters),
        extra := None)
    }

    /**
     * `decryptKey(password)`: opens the sealed key with the base58 address as
     * associated data, the base64-decoded salt and the stored profile; the key
     * takes the public key's type and curve.
     */
    function DecryptKey(password: string, P: Primitives): (r: Result<PrivateKey, Error>)
      ensures r.Success? ==> r.value.algorithm == publicKey.algorithm && r.value.parameters == publicKey.parameters
      ensures r.Failure? ==> r.error == DecryptionFailed
    {
      match P.decryptWithGcm(encryptedKey, P.toBase58(address), P.base64Decode(salt), password, scrypt)
      case None => Failure(DecryptionFailed)
      case Some(sk) => Success(PrivateKey(sk, publicKey.algorithm, publicKey.parameters))
    }
  }

  /** Invariant of identity: the address is the one computed from the public key. */
  ghost predicate AddressBound(a: AccountState, P: Primitives) {
    a.address == P.addressFromPubKey(a.publicKey)
  }

  /** The account `create` builds from a key and a fresh salt. */
  function CreatedAccount(name: string, privateKey: PrivateKey, password: string, scrypt: ScryptParams, salt: Bytes, P: Primitives): (a: AccountState)
    ensures AddressBound(a, P) && a.publicKey == P.getPublicKey(privateKey)
  {
    var publicKey := P.getPublicKey(privateKey);
    var address := P.addressFromPubKey(publicKey);
    AccountState(
      address := address,
      name := name,
      lock := false,
      encryptedKey := P.encryptWithGcm(privateKey.key, P.toBase58(address), salt, password, scrypt),
      extra := None,
      encAlg := DefaultEncAlg,
      hash := DefaultHash,
      salt := P.base64Encode(salt),
      publicKey := publicKey,
      isDefault := false,
      scrypt := scrypt)
  }

  /**
   * The outcome of `importAccount`: the key is opened with the claimed address
   * string as associated data, and the account is rejected unless the address
   * computed from the recovered key equals the claimed one.
   */
  function ImportedAccount(
    name: string, encryptedKey: string, keyType: KeyType, keyParameters: KeyParameters,
    password: string, address: string, saltBase64: string, scrypt: ScryptParams,
    labelBytes: Bytes, P: Primitives): (r: Result<AccountState, Error>)
    ensures r.Success? ==> AddressBound(r.value, P) && r.value.address == P.parseAddress(address)
  {
    var salt := P.base64Decode(saltBase64);
    match P.decryptWithGcm(encryptedKey, address, salt, password, scrypt)
    case None => Failure(DecryptionFailed)
    case Some(sk) =>
      var publicKey := P.getPublicKey(PrivateKey(sk, keyType, keyParameters));
      var computed := P.addressFromPubKey(publicKey);
      if computed != P.parseAddress(address) then Failure(AddressMismatch)
      else
        Success(AccountState(
          address := computed,
          name := if name == "" then HexEncode(labelBytes) else name,
          lock := false,
          encryptedKey := encryptedKey,
          extra := None,
          encAlg := DefaultEncAlg,
          hash := DefaultHash,
          salt := saltBase64,
          publicKey := publicKey,
          isDefault := false,
          scrypt := scrypt))
  }

  /**
   * The key `importWithMnemonic` derives from a (trimmed) phrase: the BIP-39
   * seed, as hex and back, then the BIP-32 child at `ONT_BIP44_PATH`, as hex
   * and back through `new PrivateKey(hex)`.
   */
  function MnemonicKey(phrase: string, P: Primitives): (k: PrivateKey)
    ensures k.key == P.derivePrivateKey(HexDecode(P.toSeedHex(phrase)), OntBip44Path)
    ensures k.algorithm == DefaultKeyType && k.parameters == DefaultParameters
  {
    var raw := P.derivePrivateKey(HexDecode(P.toSeedHex(phrase)), OntBip44Path);
    HexRoundTrip(raw);
    PrivateKeyFromHex(HexEncode(raw))
  }

  /** The outcome of `importWithMnemonic`: validation of the trimmed phrase, then `create`. */
  function MnemonicAccount(name: string, mnemonic: string, password: string, scrypt: ScryptParams, salt: Bytes, P: Primitives): (r: Result<AccountState, Error>)
    ensures r.Success? <==> P.validateMnemonic(Trim(mnemonic))
    ensures r.Failure? ==> r.error == InvalidMnemonic
    ensures r.Success? ==> AddressBound(r.value, P)
  {
    var phrase := Trim(mnemonic);
    if !P.validateMnemonic(phrase) then Failure(InvalidMnemonic)
    else Success(CreatedAccount(name, MnemonicKey(phrase, P), password, scrypt, salt, P))
  }

  /**
   * The outcome of `deserializeJson`: the fields are copied from the record,
   * the public key is rebuilt from its hex, algorithm label and parameters,
   * and the profile comes from the argument. The address is not checked
   * against the public key.
   */
  function DeserializedAccount(obj: AccountRecord, scrypt: ScryptParams, P: Primitives): (r: Result<AccountState, Error>)
    ensures r.Success? <==> KeyTypeFromLabel(obj.algorithm).Some? && ParametersFromJson(obj.parameters).Some?
    ensures r.Failure? ==> r.error == if KeyTypeFromLabel(obj.algorithm).None? then UnknownKeyType else UnknownCurve
  {
    match KeyTypeFromLabel(obj.algorithm)
    case None => Failure(UnknownKeyType)
    case Some(algorithm) =>
      match ParametersFromJson(obj.parameters)
      case None => Failure(UnknownCurve)
      case Some(parameters) =>
        Success(AccountState(
          address := P.parseAddress(obj.address),
          name := obj.name,
          lock := obj.lock,
          encryptedKey := obj.key,
          extra := obj.extra,
          encAlg := DefaultEncAlg,
          hash := obj.hash,
          salt := obj.salt,
          publicKey := PublicKey(HexDecode(obj.publicKey), algorithm, parameters),
          isDefault := obj.isDefault,
          scrypt := scrypt))
  }

  /**
   * An account object. `name`, `lock` and `isDefault` are written by the
   * wallet after construction; the other fields are set once by a factory.
   */
  class Account {
    var address: Address
    var name: string
    var lock: bool
    var encryptedKey: string
    var extra: Option<string>
    var encAlg: string
    var hash: string
    var salt: string
    var publicKey: PublicKey
    var isDefault: bool
    var scrypt: ScryptParams

    /**
     * `new Account()`: only `enc-alg` and `hash` have initial values; the
     * factories assign every other field before the object is returned.
     */
    constructor ()
      ensures encAlg == DefaultEncAlg && hash == DefaultHash && extra == None
    {
      address := Address([]);
      name := "";
      lock := false;
      encryptedKey := "";
      extra := None;
      encAlg := DefaultEncAlg;
      hash := DefaultHash;
      salt := "";
      publicKey := PublicKey([], DefaultKeyType, DefaultParameters);
      isDefault := false;
      scrypt := ScryptParams(0, 0, 0, 0);
    }

    function State(): AccountState
      reads this
    {
      AccountState(address, name, lock, encryptedKey, extra, encAlg, hash, salt, publicKey, isDefault, scrypt)
    }

    /** `serializeJson()` of this account. */
    function SerializeJson(P: Primitives): AccountRecord
      reads this
    {
      State().SerializeJson(P)
    }

    /** `decryptKey(password)` of this account. */
    function DecryptKey(password: string, P: Primitives): Result<PrivateKey, Error>
      reads this
    {
      State().DecryptKey(password, P)
    }

    /** `Account.importAccount`; `labelBytes` stands for `randomBytes(4)`. */
    static method ImportAccount(
      name: string, encryptedKey: string, keyType: KeyType, keyParameters: KeyParameters,
      password: string, address: string, saltBase64: string, scrypt: ScryptParams,
      labelBytes: Bytes, P: Primitives) returns (r: Result<Account, Error>)
      requires |labelBytes| == LabelEntropyLength
      ensures r.Success? ==> fresh(r.value)
      ensures var spec := ImportedAccount(name, encryptedKey, keyType, keyParameters, password, address, saltBase64, scrypt, labelBytes, P);
        r.Success? == spec.Success?
        && (r.Success? ==> r.value.State() == spec.value)
        && (r.Failure? ==> r.error == spec.error)
    {
      var account := new Account();
      var salt := P.base64Decode(saltBase64);
      var sk := P.decryptWithGcm(encryptedKey, address, salt, password, scrypt);
      if sk.None? {
        return Failure(DecryptionFailed);
      }

      var label' := name;
      if label' == "" {
        label' := HexEncode(labelBytes);
      }
      account.name := label';
      account.lock := false;
      account.isDefault := false;
      account.salt := saltBase64;
      account.scrypt := scrypt;

      account.encryptedKey := encryptedKey;

      var privateKey := PrivateKey(sk.value, keyType, keyParameters);
      account.publicKey := P.getPublicKey(privateKey);

      account.address := P.addressFromPubKey(account.publicKey);

      if account.address != P.parseAddress(address) {
        return Failure(AddressMismatch);
      }

      return Success(account);
    }

    /** `Account.importWithMnemonic`; `salt` stands for the `randomBytes(16)` of `create`. */
    static method ImportWithMnemonic(name: string, mnemonic: string, password: string, scrypt: ScryptParams, salt: Bytes, P: Primitives)
      returns (r: Result<Account, Error>)
      requires |salt| == SaltLength
      ensures r.Success? ==> fresh(r.value)
      ensures var spec := MnemonicAccount(name, mnemonic, password, scrypt, salt, P);
        r.Success? == spec.Success?
        && (r.Success? ==> r.value.State() == spec.value)
        && (r.Failure? ==> r.error == spec.error)
    {
      var phrase := Trim(mnemonic);
      if !P.validateMnemonic(phrase) {
        return Failure(InvalidMnemonic);
      }
      var seed := P.toSeedHex(phrase);
      var pri := P.derivePrivateKey(HexDecode(seed), OntBip44Path);
      var key := HexEncode(pri);
      var privateKey := PrivateKeyFromHex(key);
      var account := Create(name, privateKey, password, scrypt, salt, P);
      return Success(account);
    }

    /** `Account.create`; `salt` stands for `randomBytes(16)`. */
    static method Create(name: string, privateKey: PrivateKey, password: string, scrypt: ScryptParams, salt: Bytes, P: Primitives)
      returns (account: Account)
      requires |salt| == SaltLength
      ensures fresh(account)
      ensures account.State() == CreatedAccount(name, privateKey, password, scrypt, salt, P)
    {
      account := new Account();
      var publicKey := P.getPublicKey(privateKey);
      var address := P.addressFromPubKey(publicKey);

      account.name := name;
      account.lock := false;
      account.isDefault := false;
      account.publicKey := publicKey;
      account.address := address;
      account.encryptedKey := P.encryptWithGcm(privateKey.key, P.toBase58(address), salt, password, scrypt);
      account.salt := P.base64Encode(salt);
      account.scrypt := scrypt;
    }

    /** `Account.deserializeJson` of a record (not of a JSON string). */
    static method DeserializeJson(obj: AccountRecord, scrypt: ScryptParams, P: Primitives) returns (r: Result<Account, Error>)
      ensures r.Success? ==> fresh(r.value)
      ensures var spec := DeserializedAccount(obj, scrypt, P);
        r.Success? == spec.Success?
        && (r.Success? ==> r.value.State() == spec.value)
        && (r.Failure? ==> r.error == spec.error)
    {
      var algorithm := KeyTypeFromLabel(obj.algorithm);
      if algorithm.None? {
        return Failure(UnknownKeyType);
      }
      var parameters := ParametersFromJson(obj.parameters);
      if parameters.None? {
        return Failure(UnknownCurve);
      }
      var pk := PublicKey(HexDecode(obj.publicKey), algorithm.value, parameters.value);

      var account := new Account();
      account.address := P.parseAddress(obj.address);
      account.name := obj.name;
      account.lock := obj.lock;
      account.isDefault := obj.isDefault;
      account.publicKey := pk;
      account.hash := obj.hash;
      account.salt := obj.salt;
      account.encryptedKey := obj.key;
      account.extra := obj.extra;
      account.scrypt := scrypt;
      return Success(account);
    }
  }
}
