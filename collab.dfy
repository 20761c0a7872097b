/** The identity library the command-line front end calls into. Its transaction hashing,
    signing, validity rules and serialisation are not part of this model: each operation the
    front end uses is a field of `Library`, so every property proved about the front end holds
    whatever the library does. Library errors are carried as their message. */
module Collab {
  import opened Common
  import opened Types

  datatype Library = Library(
    /** `Transactions::build_identity` */
    build: Transactions -> Result<Identity, string>,
    /** `Transactions::push_transaction`: admission of a signed transaction */
    push: (Transactions, Transaction) -> Result<Transactions, string>,
    /** The transaction builders of `Transactions` (`add_admin_key`, `edit_subkey`,
        `revoke_admin_key`, `delete_subkey`, `make_claim`, ...): an unsigned transaction with
        the given body, created now against the list */
    makeTransaction: (Transactions, TransactionBody) -> Result<Transaction, string>,
    /** `Transactions::reset`: rewind the list to the given transaction */
    reset: (Transactions, ObjectId) -> Result<Transactions, string>,
    /** `Transaction::verify(identity).is_ok()`: signatures present and policy satisfied */
    verify: (Transaction, Option<Identity>) -> bool,
    /** `Transaction::sign` with one admin key */
    signWithAdmin: (Transaction, AdminKey) -> Result<Transaction, string>,
    /** `sign_with_optimal_key` */
    signOptimal: (Identity, Transaction) -> Result<Transaction, string>,
    serializeBinary: Transaction -> Result<seq<bv8>, string>,
    serializeText: Transaction -> Result<string, string>,
    /** `sign::sign_attached` (when the flag is set) and `sign::sign`: a subkey signature over a
        message, made on behalf of the given identity */
    signSubkey: (ObjectId, Subkey, seq<bv8>, bool) -> Result<Signature, string>,
    /** `Signature::serialize_binary` */
    serializeSignature: Signature -> Result<seq<bv8>, string>,
    /** `Identity::serialize_text` */
    serializeIdentity: Identity -> Result<string, string>,
    /** `base64_encode`, as the bytes of the encoded text */
    base64Encode: seq<bv8> -> seq<bv8>,
    base64Decode: seq<bv8> -> Option<seq<bv8>>,
    decodeTransaction: seq<bv8> -> Option<Transaction>,
    decodeSignature: seq<bv8> -> Option<Signature>,
    /** `Hash::new_blake3` */
    blake3: seq<bv8> -> seq<bv8>,
    /** `sign::verify` (detached, with the message) and `sign::verify_attached` (no message) */
    verifySubkeySignature: (Subkey, Signature, Option<seq<bv8>>) -> Result<(), string>,
    /** `Claim::instant_verify_allowed_values` */
    instantValues: (Claim, ObjectId) -> Result<seq<string>, string>,
    /** `IdentityID::try_from(&str)` */
    parseIdentityId: string -> Option<ObjectId>,
    /** `Timestamp`'s `FromStr` */
    parseTimestamp: string -> Option<Timestamp>,
    /** The database's `find_identity_by_prefix("claim", prefix)` over the saved identities:
        the identity holding a claim whose id starts with the prefix */
    claimOwner: (seq<Transactions>, string) -> Option<Transactions>,
    /** The identity's `make_claim`: the identity with the claim added */
    makeClaim: (Transactions, ClaimSpec) -> Result<Transactions, string>,
    /** The identity's `remove_claim` */
    removeClaim: (Transactions, ObjectId) -> Result<Transactions, string>,
    /** The identity's `stamp`: a stamp by this identity, at this confidence, on the given
        identity's claim, expiring when given */
    stamp: (Transactions, Confidence, ObjectId, Claim, Option<Timestamp>) -> Result<Stamp, string>,
    serializeStamp: Stamp -> Result<string, string>,
    deserializeStamp: seq<bv8> -> Result<Stamp, string>,
    /** The identity's `accept_stamp`, given the stamper's identity */
    acceptStamp: (Transactions, Transactions, Stamp) -> Result<Transactions, string>,
    /** `Identity::new`: a fresh identity under the master key, created at the timestamp */
    newIdentity: (MasterKey, Timestamp) -> Result<Transactions, string>,
    /** `Identity::new_with_alpha_and_id`: an identity with a chosen id, created at the
        timestamp its id was generated with */
    newIdentityWithId: (MasterKey, Timestamp, string) -> Result<Transactions, string>,
    /** `TransactionID::try_from(&str)` */
    parseTransactionId: string -> Option<ObjectId>,
    /** the database's `list_local_identities(Some(search))` match rule */
    listMatches: (string, Transactions) -> bool,
    /** `IdentityID::short` */
    shortId: string -> string)
}
