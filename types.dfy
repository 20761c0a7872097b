/** The identity data the command-line front end reads and builds: ids, keys, claims,
    transaction bodies and transaction lists. Everything here is produced and validated by the
    identity library underneath the front end; the front end only inspects it. */
module Types {
  import opened Common

  /** An identity, transaction, claim or stamp id. Every id has a `Display` form; its
      `String::try_from` conversion (`text`) can fail. */
  datatype ObjectId = ObjectId(display: string, text: Option<string>)

  /** A point in time, in seconds since the Unix epoch. */
  type Timestamp = int

  // ---------------------------------------------------------------- keys

  datatype KeyKind = SignKey | CryptoKey | SecretKey

  datatype RevocationReason = Superseded | Compromised | Invalid | Unspecified

  datatype AdminKey = AdminKey(
    keyId: string,
    name: string,
    description: Option<string>,
    revocation: Option<RevocationReason>,
    hasPrivate: bool)

  datatype Subkey = Subkey(
    keyId: string,
    kind: KeyKind,
    name: string,
    description: Option<string>,
    revocation: Option<RevocationReason>,
    hasPrivate: bool)

  datatype Keychain = Keychain(adminKeys: seq<AdminKey>, subkeys: seq<Subkey>)

  /** The identity library's keychain lookups: the first key, in keychain order, whose
      name (or key-id string) equals the search (`Common.First`). */
  function AdminKeyByName(kc: Keychain, name: string): (r: Option<AdminKey>)
    ensures r.Some? ==> r.value in kc.adminKeys && r.value.name == name
    ensures r.None? ==> forall k :: k in kc.adminKeys ==> k.name != name
    ensures r.Some? ==>
      exists i :: 0 <= i < |kc.adminKeys| && kc.adminKeys[i] == r.value &&
        forall j :: 0 <= j < i ==> kc.adminKeys[j].name != name
  {
    First(kc.adminKeys, (k: AdminKey) => k.name == name)
  }

  function AdminKeyByKeyIdStr(kc: Keychain, keyId: string): (r: Option<AdminKey>)
    ensures r.Some? ==> r.value in kc.adminKeys && r.value.keyId == keyId
    ensures r.None? ==> forall k :: k in kc.adminKeys ==> k.keyId != keyId
    ensures r.Some? ==>
      exists i :: 0 <= i < |kc.adminKeys| && kc.adminKeys[i] == r.value &&
        forall j :: 0 <= j < i ==> kc.adminKeys[j].keyId != keyId
  {
    First(kc.adminKeys, (k: AdminKey) => k.keyId == keyId)
  }

  function SubkeyByName(kc: Keychain, name: string): (r: Option<Subkey>)
    ensures r.Some? ==> r.value in kc.subkeys && r.value.name == name
    ensures r.None? ==> forall k :: k in kc.subkeys ==> k.name != name
    ensures r.Some? ==>
      exists i :: 0 <= i < |kc.subkeys| && kc.subkeys[i] == r.value &&
        forall j :: 0 <= j < i ==> kc.subkeys[j].name != name
  {
    First(kc.subkeys, (k: Subkey) => k.name == name)
  }

  function SubkeyByKeyIdStr(kc: Keychain, keyId: string): (r: Option<Subkey>)
    ensures r.Some? ==> r.value in kc.subkeys && r.value.keyId == keyId
    ensures r.None? ==> forall k :: k in kc.subkeys ==> k.keyId != keyId
    ensures r.Some? ==>
      exists i :: 0 <= i < |kc.subkeys| && kc.subkeys[i] == r.value &&
        forall j :: 0 <= j < i ==> kc.subkeys[j].keyId != keyId
  {
    First(kc.subkeys, (k: Subkey) => k.keyId == keyId)
  }

  // ---------------------------------------------------------------- claims

  /** A value that is either in the clear or sealed under the master key. */
  datatype MaybePrivate<T> = Public(value: T) | Private(sealed: T)

  datatype RelationshipType = OrganizationMember | OtherRelationship

  datatype Relationship = Relationship(ty: RelationshipType, subject: ObjectId)

  datatype ClaimSpec =
    | IdentityClaim(id: ObjectId)
    | Name(name: MaybePrivate<string>)
    | Email(email: MaybePrivate<string>)
    | Photo(photo: MaybePrivate<seq<bv8>>)
    | Pgp(pgp: MaybePrivate<string>)
    | HomeAddress(address: MaybePrivate<string>)
    | Relation(relation: MaybePrivate<Relationship>)
    | Domain(domain: MaybePrivate<string>)
    | Url(url: MaybePrivate<string>)

  datatype Claim = Claim(id: ObjectId, spec: ClaimSpec, stampCount: nat)

  /** The master key derived from a passphrase, salted with a timestamp. The key derivation
      itself is not modelled: the key is identified by what it is derived from. */
  datatype MasterKey = MasterKey(passphrase: string, salt: Timestamp)

  /** How sure a stamper is of the claim it stamps. */
  datatype Confidence = NoConfidence | Low | Medium | High | Extreme

  /** A stamp: an identity vouching for another identity's claim. */
  datatype Stamp = Stamp(id: ObjectId, stamper: ObjectId, claimId: ObjectId, confidence: Confidence,
                         expires: Option<Timestamp>)

  // ---------------------------------------------------------------- transactions

  datatype TransactionBody =
    | CreateIdentityV1
    | ResetIdentityV1
    | AddAdminKeyV1(adminKey: AdminKey)
    | EditAdminKeyV1(adminKeyId: string, newName: Option<string>, newDescription: Option<Option<string>>)
    | RevokeAdminKeyV1(adminKeyId: string, adminReason: RevocationReason)
    | AddPolicyV1
    | DeletePolicyV1
    | MakeClaimV1(spec: ClaimSpec, claimName: Option<string>)
    | EditClaimV1(editedClaim: ObjectId, renamedTo: Option<string>)
    | DeleteClaimV1(deletedClaim: ObjectId)
    | MakeStampV1(stampedClaim: ObjectId)
    | RevokeStampV1(revokedStamp: ObjectId)
    | AcceptStampV1(stampTransaction: ObjectId)
    | DeleteStampV1(deletedStamp: ObjectId)
    | AddSubkeyV1(key: KeyKind, keyId: string, subkeyName: string, subkeyDescription: Option<string>)
    | EditSubkeyV1(subkeyId: string, subkeyNewName: Option<string>, subkeyNewDescription: Option<Option<string>>)
    | RevokeSubkeyV1(revokedSubkeyId: string, subkeyReason: RevocationReason)
    | DeleteSubkeyV1(deletedSubkeyId: string)
    | PublishV1
    | SignV1(creator: ObjectId, bodyHash: seq<bv8>)
    | ExtV1

  datatype Transaction = Transaction(id: ObjectId, body: TransactionBody, signatureCount: nat)

  /** An identity's transaction list, oldest first; `identityId` is absent when the list
      has no valid genesis. */
  datatype Transactions = Transactions(identityId: Option<ObjectId>, list: seq<Transaction>)

  /** The identity built by replaying a transaction list. */
  datatype Identity = Identity(
    id: ObjectId,
    keychain: Keychain,
    claims: seq<Claim>,
    names: seq<string>,
    emails: seq<string>,
    isOwned: bool)

  /** A subkey signature over a message: detached (the message travels separately) or
      attached (the message is carried inside). */
  datatype Signature =
    | Detached(signedByIdentity: ObjectId, signedByKey: string)
    | Attached(signedByIdentity: ObjectId, signedByKey: string, attachedMessage: seq<bv8>)

  /** The front end's errors: each variant is one `anyhow!`/`format!` error it raises, or
      `LibraryError` for an error passed up from the identity library or the database. */
  datatype CliError =
    | InputError
    | LibraryError(message: string)
    | IdNotConvertible
    | MissingIdentityId
    | MultipleIdentities(search: string)
    | NoIdentities(search: string)
    | MultipleIdentitiesMatchSearch
    | NoIdentitiesMatchSearch
    | IdentityNotFound(identitySearch: string)
    | IncorrectPassphrase
    | PassphraseMismatch
    | InvalidKeyType(keyType: string)
    | KeyNotFound(keySearch: string)
    | NoKeysMatchSearch(searchedType: string)
    | KeyChoiceNotAnOption
    | NoKeysOfType(wantedType: string)
    | InvalidShamirFormat
    | ShamirMinAboveTotal
    | AdminKeyNotFound
    | TransactionNotFound(txid: string)
    | InvalidTransactionId(badTxid: string)
    | SavedTransactionMissing
    | CreatedClaimNotFound
    | InstantValuesMissing
    | StampUrlUnsupported
    | UnreadableSignature
    | MessageRequired
    | InvalidIdentitySignature
    | IdentityNotImported
    | SigningKeyNotFound
    | HashMismatch
    | SubkeySignatureInvalid(reason: string)
    | ClaimIdentityNotFound(claimSearch: string)
    | ClaimNotFound(claimPrefix: string)
    | InvalidConfidence(confidence: string)
    | InvalidTime(time: string)
    | PhotoTooLarge(size: nat)
    | InvalidId(value: string)
    | InvalidRelationshipType(relType: string)
}
