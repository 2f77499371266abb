# Wallet account model

A Dafny model of the `Account` class of the Ontology TypeScript crypto library
(`src/wallet/account.ts`). An account binds a key pair, a label and the
private key sealed under a password. The key is sealed with scrypt feeding
AES-256-GCM (RFC 7914, NIST SP 800-38D), with the account's base58 address as
associated data. The account is bound to the address computed from its public
key. The model covers:

- the four ways to build an account: `create`, `importWithMnemonic`
  (BIP-39 phrase, BIP-32 child key at the BIP-44 path `m/44'/1024'/0'/0/0`),
  `importAccount` (re-import of a sealed key, checked against the claimed
  address) and `deserializeJson`;
- the codec `serializeJson` and key recovery `decryptKey`.

Layout:

- `wrappers.dfy`: `Option` and `Result`. A thrown error is a `Failure`.
- `encoding.dfy`: the encodings the account code applies itself. These are
  Node's `Buffer` hex encoding and lenient hex decoding, and ECMAScript
  `trim`. Both are concrete, with their proofs. Decimal numerals (`Decimal`,
  read back by `DecimalRoundTrip`) serve only to state the BIP-44 layout of
  the constant `ONT_BIP44_PATH`.
- `crypto.dfy`: the key, address and scrypt-profile values, the key-type and
  curve label tables, and `Primitives`. `Primitives` is a value holding every
  function the account code calls but does not define: `encryptWithGcm`,
  `decryptWithGcm`, base64, `getPublicKey`, `PublicKey.serialize`,
  `Address.fromPubKey`, `toBase58`, `new Address(string)`, `validateMnemonic`,
  `toSeedHex` and the HD derivation. These functions are uninterpreted. The
  only facts assumed about them are three predicates, which lemmas take as
  `requires`:
  - `AeadRoundTrip`: decryption opens what encryption sealed under the same
    address, salt, password and profile;
  - `Base64RoundTrip`: section 4 of RFC 4648;
  - `AddressRoundTrip`: `new Address(a.toBase58())` equals `a`.
- `account.dfy`: the account itself.
  - `AccountState` is the value of an account's fields. `SerializeJson` and
    `DecryptKey` are pure functions on it.
  - `CreatedAccount`, `ImportedAccount`, `MnemonicAccount` and
    `DeserializedAccount` give each factory's outcome as a value.
  - The class `Account` has the source's fields. Its static factory methods
    allocate `new Account()` and assign the fields one by one, as the source
    does. Each is proved to produce exactly the state its specification
    function gives.
  - `label` is a Dafny keyword, so the label field is called `name`. In the
    record it stands for the key `label`.
- `account_properties.dfy`: lemmas relating the factories, the codec and key
  recovery.

Randomness becomes parameters. The 16-byte salt of `create` is `salt`. The 4
bytes behind a default label in `importAccount` are `labelBytes`.

The codec does not round-trip everything. `serializeJson` never emits
`extra`, so a codec round trip loses it (`CodecLosesExtra`).
`deserializeJson` checks no encoding itself, and hex is decoded leniently. In
this model its only failures are unknown key-type and curve labels; `new
Address` is taken as total (see "## Left out").

## Model

| member | source | states |
|---|---|---|
| `Encoding.HexEncode` | src/wallet/account.ts:59 | the hex of n bytes is 2n lower-case hex digits |
| `Encoding.HexDecode` | src/wallet/account.ts:153 | lenient `Buffer.from(s, 'hex')` yields at most half as many bytes as characters |
| `Encoding.HexRoundTrip` | src/wallet/account.ts:101-102 | hex decoding inverts hex encoding, so a key passed through `toString('hex')` and `new PrivateKey(hex)` keeps its bytes |
| `Encoding.Trim` | src/wallet/account.ts:94 | the trimmed phrase neither starts nor ends with ECMAScript whitespace |
| `Encoding.TrimSlice` | src/wallet/account.ts:94 | trimming keeps one contiguous slice of the phrase and removes only whitespace on either side |
| `Encoding.TrimIdempotent` | src/wallet/account.ts:94 | trimming a trimmed phrase changes nothing |
| `Crypto.KeyTypeFromLabel` | src/wallet/account.ts:154 | a found key type carries the looked-up label; none is found only when no key type has it |
| `Crypto.CurveFromLabel` | src/wallet/account.ts:155 | a found curve carries the looked-up label; none is found only when no curve has it |
| `Crypto.ParametersFromJson` | src/wallet/account.ts:155 | parsed key parameters serialize back to the record they came from |
| `Crypto.LabelRoundTrips` | src/wallet/account.ts:205-206 | key type and parameters are recovered from the `algorithm` and `parameters` that `serializeJson` writes |
| `Encoding.DecimalRoundTrip` | src/wallet/account.ts:32 | the numerals in the derivation path spell the numbers they stand for |
| `Accounts.OntBip44PathLayout` | src/wallet/account.ts:32 | `ONT_BIP44_PATH` is the BIP-44 path for coin type 1024: account 0, external chain, index 0 |
| `Accounts.AccountState.SerializeJson` | src/wallet/account.ts:195-207 | the record has exactly the 11 keys `address`, `label`, `lock`, `key`, `enc-alg`, `hash`, `salt`, `isDefault`, `publicKey`, `algorithm`, `parameters`; there is no `extra`; the public key is the hex of its serialized form |
| `Accounts.AccountState.DecryptKey` | src/wallet/account.ts:216-219 | a recovered key has the stored public key's type and curve; the only failure is the cipher's |
| `Accounts.CreatedAccount` | src/wallet/account.ts:123-135 | the new account satisfies the address-binding invariant; its public key is the key's own |
| `Accounts.ImportedAccount` | src/wallet/account.ts:54-78 | an imported account's address equals both the claimed address and the one computed from the recovered key |
| `Accounts.MnemonicKey` | src/wallet/account.ts:98-102 | the account key is exactly the child key derived at `ONT_BIP44_PATH` from the phrase's seed, with the default type and curve |
| `Accounts.MnemonicAccount` | src/wallet/account.ts:94-103 | succeeds if and only if the trimmed phrase validates; otherwise fails with `InvalidMnemonic`; a result satisfies the address binding |
| `Accounts.DeserializedAccount` | src/wallet/account.ts:152-169 | succeeds if and only if the algorithm and curve labels are known; otherwise it names which one is unknown |
| `Accounts.Account.constructor` | src/wallet/account.ts:172-186 | a new account starts with `enc-alg` `aes-256-gcm`, `hash` `sha256` and no `extra` |
| `Accounts.Account.ImportAccount` | src/wallet/account.ts:44-79 | the field-by-field import yields a fresh account whose fields are `ImportedAccount`, or that function's error |
| `Accounts.Account.ImportWithMnemonic` | src/wallet/account.ts:88-105 | trim, validate, derive and `Create` yield a fresh account whose fields are `MnemonicAccount`, or its error |
| `Accounts.Account.Create` | src/wallet/account.ts:117-138 | the field-by-field construction yields a fresh account whose fields are `CreatedAccount` |
| `Accounts.Account.DeserializeJson` | src/wallet/account.ts:147-170 | the field-by-field copy yields a fresh account whose fields are `DeserializedAccount`, or its error |
| `AccountProperties.ImportOutcome` | src/wallet/account.ts:56-76 | import succeeds if and only if decryption succeeds and the recomputed address equals the claimed one; the error says which check failed |
| `AccountProperties.ImportLabel` | src/wallet/account.ts:58-61 | an empty label becomes the 8 lower-case hex digits of the 4 random bytes; any other label is kept verbatim |
| `AccountProperties.ImportStoresInputs` | src/wallet/account.ts:61-67 | the sealed key and the base64 salt are stored as supplied; the profile is stored; `lock` and `isDefault` are false; there is no `extra` |
| `AccountProperties.CreateInitialises` | src/wallet/account.ts:123-135 | the label is verbatim, even when empty; both flags are false; the stored salt decodes to the 16 random bytes |
| `AccountProperties.CreateDecryptRoundTrip` | src/wallet/account.ts:133-135 | `decryptKey` with the password recovers the key bytes sealed by `create`, typed by the public key; it is the original key when the public key keeps the key's type and curve |
| `AccountProperties.ManagementFieldsIndependent` | src/wallet/account.ts:216-219 | changing the label or the flags changes neither key recovery nor the address binding |
| `AccountProperties.MnemonicAddressIndependent` | src/wallet/account.ts:94-103 | success, address and public key depend on the phrase alone, not on the label, password, profile or salt |
| `AccountProperties.MnemonicTrimmed` | src/wallet/account.ts:94-95 | a phrase and its trimmed form give the same outcome |
| `AccountProperties.MnemonicDecryptsToDerivedKey` | src/wallet/account.ts:98-103 | a mnemonic account's password recovers the child key derived at `ONT_BIP44_PATH` |
| `AccountProperties.DeserializeCopiesFields` | src/wallet/account.ts:159-168 | the record's address, label, flags, `hash`, `salt`, `key` and `extra` are copied; the address is not checked against the public key; the profile is the argument; `enc-alg` keeps its default |
| `AccountProperties.CodecRoundTrip` | src/wallet/account.ts:195-207 | deserializing a serialized account restores every field except three: `extra` is lost, `enc-alg` returns to its default, and the public key comes back with its serialized bytes; the profile is the argument |
| `AccountProperties.CodecExactRoundTrip` | src/wallet/account.ts:159-168 | an account with no `extra`, the default `enc-alg` and a public key that serializes to its own bytes round-trips exactly under its own profile |
| `AccountProperties.CodecLosesExtra` | src/wallet/account.ts:167 | an account that has `extra` never survives the codec |
| `AccountProperties.ExportImportRoundTrip` | src/wallet/account.ts:54-76 | a created account, serialized and re-imported with the same password, key type and curve, is rebuilt identically except for the empty-label default |

## Left out

- The insides of scrypt and AES-256-GCM (`encryptWithGcm`, `decryptWithGcm`
  in `scrypt.ts`) are out of scope: it is foreign cryptography. Only the
  round-trip law is assumed. Nothing is proved about authentication: that a
  wrong password, a wrong address or a tampered key makes decryption fail
  rests on the cipher. The nonce is internal to `encryptWithGcm`.
- `DEFAULT_SCRYPT` and the default arguments that use it are not modelled.
  `scrypt.ts` is not part of this model, so callers pass the profile
  explicitly.
- Elliptic-curve arithmetic (`getPublicKey`), `PublicKey.serialize`, address
  hashing and base58 (`Address`) are uninterpreted foreign code. `new
  Address(string)` is modelled as total. Whether it throws on a malformed
  string is decided in `src/crypto/address.ts`, which is not part of this
  model.
- BIP-39 validation and seed generation, and BIP-32 derivation, are external
  libraries. They are uninterpreted pure functions. The non-null assertion on
  the derived `privateKey` is not modelled: a key derived from a master seed
  always has one.
- The key-type and curve label tables follow `src/crypto/keyType.ts` and
  `src/crypto/key.ts`, which are not part of this model. The default type
  and curve of `new PrivateKey(hex)` (ECDSA, P-256) come from the same place.
- `randomBytes` is not modelled: randomness is not modelled. The salt and the
  label bytes are parameters.
- The following are dynamic string and JSON plumbing, not modelled: the
  `typeof obj === 'string'` branch and `JSON.parse` of `deserializeJson`, and
  the `stringify` flag and `JSON.stringify` of `serializeJson`. The record is
  a typed datatype, so a record with missing or ill-typed fields (other than
  `extra`) cannot be expressed.
- The `Promise<PrivateKey>` alternative of `decryptKey`'s return type is
  typing only, with no behaviour.
- Direct writes to `label`, `lock` and `isDefault` after construction are
  ordinary field assignments on `Account`. They need no operation of their
  own.
