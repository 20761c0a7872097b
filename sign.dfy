/** The `sign` commands: an identity signature (a signed `SignV1` transaction over the
    message's hash), a subkey signature (attached or detached), and `verify`, which tells the
    two apart and checks either against the saved identity that made it. File reads are
    their outcome (the bytes or the error `read_file` gives); the written file is the bytes
    returned. */
module Sign {
  import opened Common
  import opened Types
  import opened Collab
  import opened Store
  import opened Util
  import opened Identities
  import opened Keychain
  import opened Dag

  /** The bytes written out: base64 text when asked for, the serialized bytes otherwise. */
  function Encoded(lib: Library, serialized: seq<bv8>, base64: bool): seq<bv8> {
    if base64 then lib.base64Encode(serialized) else serialized
  }

  // ---------------------------------------------------------------- sign id

  /** What `sign id` produces: a staged signature and the message to show, or the bytes
      written to the output file. */
  datatype SignOutput = StagedSignature(printed: Option<string>) | Written(bytes: seq<bv8>)

  /** Everything `sign id` decides before it writes: the single identity matching `idSign`,
      the message, the passphrase check, and a `SignV1` transaction naming that identity as
      creator and carrying the message's hash, signed by `sign_helper`. The identity found by
      an id prefix always has an id, so its id is read without a failure case. */
  function SignIdPlan(db: Db, lib: Library, idSign: string, msg: Result<seq<bv8>, CliError>, passphraseOk: bool,
                      stage: bool, signWith: Option<string>)
    : (r: Result<(Transactions, Transaction), CliError>)
    reads db
    ensures r.Ok? ==>
      LoadSingle(db, lib, idSign) == Ok(r.value.0) && r.value.0.identityId.Some? &&
      msg.Ok? && passphraseOk && lib.build(r.value.0).Ok? &&
      var tx := lib.makeTransaction(r.value.0, SignV1(r.value.0.identityId.value, lib.blake3(msg.value)));
      tx.Ok? && SignHelper(lib, lib.build(r.value.0).value, tx.value, stage, signWith) == Ok(r.value.1)
    ensures (LoadSingle(db, lib, idSign).Ok? && lib.build(LoadSingle(db, lib, idSign).value).Ok?) ==>
      (msg.Err? ==> r == Err(msg.error)) &&
      (msg.Ok? && lib.build(LoadSingle(db, lib, idSign).value).value.id.text.Some? && !passphraseOk ==>
         r == Err(IncorrectPassphrase))
  {
    var transactions :- LoadSingle(db, lib, idSign);
    SignTransaction(lib, transactions, transactions.identityId.value, msg, passphraseOk, stage, signWith)
  }

  /** `sign id` once the identity is found: build it, check the passphrase, make and sign the
      `SignV1` transaction. */
  function SignTransaction(lib: Library, transactions: Transactions, identityId: ObjectId, msg: Result<seq<bv8>, CliError>,
                           passphraseOk: bool, stage: bool, signWith: Option<string>)
    : (r: Result<(Transactions, Transaction), CliError>)
    ensures r.Ok? ==> r.value.0 == transactions && msg.Ok? && passphraseOk && lib.build(transactions).Ok?
    ensures r.Ok? ==>
      var tx := lib.makeTransaction(transactions, SignV1(identityId, lib.blake3(msg.value)));
      tx.Ok? && SignHelper(lib, lib.build(transactions).value, tx.value, stage, signWith) == Ok(r.value.1)
    ensures lib.build(transactions).Ok? && msg.Err? ==> r == Err(msg.error)
    ensures lib.build(transactions).Ok? && msg.Ok? && lib.build(transactions).value.id.text.Some? && !passphraseOk ==>
      r == Err(IncorrectPassphrase)
  {
    var identity :- BuildIdentity(lib, transactions);
    var bytes :- msg;
    var _ :- IdStr(identity.id);
    if !passphraseOk then Err(IncorrectPassphrase)
    else
      var tx :- Wrap(lib.makeTransaction(transactions, SignV1(identityId, lib.blake3(bytes))), "");
      var signed :- SignHelper(lib, identity, tx, stage, signWith);
      Ok((transactions, signed))
  }

  /** The output file of an unstaged signature: the signed transaction, serialized. */
  function WrittenSignature(lib: Library, signed: Transaction, base64: bool): (r: Result<SignOutput, CliError>)
    ensures r.Ok? <==> lib.serializeBinary(signed).Ok?
    ensures r.Ok? ==> r.value.Written? && r.value.bytes == Encoded(lib, lib.serializeBinary(signed).value, base64)
  {
    var serialized :- Wrap(lib.serializeBinary(signed), "Problem serializing the signature: ");
    Ok(Written(Encoded(lib, serialized, base64)))
  }

  /** `sign id`. Staged, the signature goes to the staging area under the signer's identity
      once `post_save` has produced its message, which cannot fail for an identity that
      built; otherwise nothing in the database changes and
      the signature is written out. */
  method SignId(db: Db, lib: Library, idSign: string, msg: Result<seq<bv8>, CliError>, passphraseOk: bool,
                base64: bool, stage: bool, signWith: Option<string>)
    returns (r: Result<SignOutput, CliError>)
    requires db.Valid()
    modifies db
    ensures db.Valid()
    ensures var plan := old(SignIdPlan(db, lib, idSign, msg, passphraseOk, stage, signWith));
      plan.Err? ==> r == Err(plan.error) && unchanged(db)
    ensures var plan := old(SignIdPlan(db, lib, idSign, msg, passphraseOk, stage, signWith));
      plan.Ok? && !stage ==> r == WrittenSignature(lib, plan.value.1, base64) && unchanged(db)
    ensures var plan := old(SignIdPlan(db, lib, idSign, msg, passphraseOk, stage, signWith));
      plan.Ok? && stage ==>
      var (transactions, signed) := plan.value;
      PostSave(lib, transactions, signed, true).Ok? &&
      r == Ok(StagedSignature(PostSave(lib, transactions, signed, true).value)) &&
      db.staged == old(db.staged)[signed.id := StagedEntry(transactions.identityId.value, signed)] &&
      db.identities == old(db.identities) &&
      db.effects == old(db.effects) + [StagedTransaction(signed.id)]
  {
    var plan := SignIdPlan(db, lib, idSign, msg, passphraseOk, stage, signWith);
    if plan.Err? {
      return Err(plan.error);
    }
    var (transactions, signed) := plan.value;
    if !stage {
      return WrittenSignature(lib, signed, base64);
    }
    // The identity built for the plan builds again here, so the staged message cannot fail.
    var printed := PostSave(lib, transactions, signed, true);
    assert printed.Ok?;
    var _ := db.StageTransaction(transactions.identityId.value, signed);
    r := Ok(StagedSignature(printed.value));
  }

  // ---------------------------------------------------------------- sign subkey

  /** A sign key: the kind of key `sign subkey` offers. */
  predicate IsSignKey(k: Subkey) {
    k.kind.SignKey?
  }

  /** `sign subkey`: the single identity matching `idSign`, the signing key chosen by search or
      menu, the message, the passphrase check, then the signature (attached or detached) made
      with that key on behalf of the identity, serialized and written out. */
  function SignSubkey(db: Db, lib: Library, idSign: string, keySearch: Option<string>, answer: string,
                      msg: Result<seq<bv8>, CliError>, passphraseOk: bool, attached: bool, base64: bool)
    : (r: Result<seq<bv8>, CliError>)
    reads db
    ensures r.Ok? ==> LoadSingle(db, lib, idSign).Ok? && lib.build(LoadSingle(db, lib, idSign).value).Ok?
    ensures r.Ok? ==>
      var identity := lib.build(LoadSingle(db, lib, idSign).value).value;
      var key := FindKeysBySearchOrPrompt(identity.keychain, keySearch, "sign", IsSignKey, answer);
      key.Ok? && key.value in identity.keychain.subkeys && msg.Ok? && passphraseOk &&
      lib.signSubkey(identity.id, key.value, msg.value, attached).Ok? &&
      var signature := lib.signSubkey(identity.id, key.value, msg.value, attached).value;
      lib.serializeSignature(signature).Ok? &&
      r.value == Encoded(lib, lib.serializeSignature(signature).value, base64)
    ensures (LoadSingle(db, lib, idSign).Ok? && lib.build(LoadSingle(db, lib, idSign).value).Ok? &&
             FindKeysBySearchOrPrompt(lib.build(LoadSingle(db, lib, idSign).value).value.keychain, keySearch, "sign",
                                      IsSignKey, answer).Ok? && msg.Ok? &&
             lib.build(LoadSingle(db, lib, idSign).value).value.id.text.Some? && !passphraseOk) ==>
      r == Err(IncorrectPassphrase)
  {
    var transactions :- LoadSingle(db, lib, idSign);
    var identity :- BuildIdentity(lib, transactions);
    var key :- FindKeysBySearchOrPrompt(identity.keychain, keySearch, "sign", IsSignKey, answer);
    var bytes :- msg;
    var _ :- IdStr(identity.id);
    if !passphraseOk then Err(IncorrectPassphrase)
    else
      var signature :- Wrap(lib.signSubkey(identity.id, key, bytes, attached), "Problem creating signature: ");
      var serialized :- Wrap(lib.serializeSignature(signature), "Problem serializing the signature: ");
      Ok(Encoded(lib, serialized, base64))
  }

  // ---------------------------------------------------------------- verify

  /** What the signature file was read as. */
  datatype Decoded = IdentitySignature(transaction: Transaction) | SubkeySignature(signature: Signature)

  /** Decoding as-is, and failing that from base64. */
  function RawOrBase64<T>(lib: Library, bytes: seq<bv8>, decode: seq<bv8> -> Option<T>): (r: Option<T>)
    ensures decode(bytes).Some? ==> r == decode(bytes)
    ensures decode(bytes).None? ==>
      r == (if lib.base64Decode(bytes).Some? then decode(lib.base64Decode(bytes).value) else None)
  {
    match decode(bytes)
    case Some(v) => Some(v)
    case None =>
      match lib.base64Decode(bytes)
      case Some(decoded) => decode(decoded)
      case None => None
  }

  /** `verify`'s reading of the signature file: a transaction (raw, then base64) is tried
      before a subkey signature (raw, then base64). */
  function DecodeSignatureFile(lib: Library, bytes: seq<bv8>): (r: Option<Decoded>)
    ensures RawOrBase64(lib, bytes, lib.decodeTransaction).Some? ==>
      r == Some(IdentitySignature(RawOrBase64(lib, bytes, lib.decodeTransaction).value))
    ensures RawOrBase64(lib, bytes, lib.decodeTransaction).None? ==>
      (r.Some? <==> RawOrBase64(lib, bytes, lib.decodeSignature).Some?) &&
      (r.Some? ==> r.value == SubkeySignature(RawOrBase64(lib, bytes, lib.decodeSignature).value))
  {
    match RawOrBase64(lib, bytes, lib.decodeTransaction)
    case Some(tx) => Some(IdentitySignature(tx))
    case None =>
      match RawOrBase64(lib, bytes, lib.decodeSignature)
      case Some(sig) => Some(SubkeySignature(sig))
      case None => None
  }

  /** The verdict `verify` prints when it gets that far; the command itself then succeeds. */
  datatype Verdict = ValidIdentity | ValidSubkey | InvalidSignature(reason: CliError)

  /** An identity signature: a message is required, the transaction must be a `SignV1`, its
      creator must be saved locally, the transaction must verify against the creator, and then
      the verdict is whether the message hashes to the signed hash. */
  function VerifyIdentity(db: Db, lib: Library, tx: Transaction, message: Option<Result<seq<bv8>, CliError>>)
    : (r: Result<Verdict, CliError>)
    reads db
    ensures message.None? ==> r == Err(MessageRequired)
    ensures message.Some? && message.value.Ok? && !tx.body.SignV1? ==> r == Err(InvalidIdentitySignature)
    ensures r.Ok? ==> r.value == ValidIdentity || r.value == InvalidSignature(HashMismatch)
    ensures r.Ok? ==>
      message.Some? && message.value.Ok? && tx.body.SignV1? &&
      db.LoadIdentity(tx.body.creator).Some? && lib.build(db.LoadIdentity(tx.body.creator).value).Ok? &&
      lib.verify(tx, Some(lib.build(db.LoadIdentity(tx.body.creator).value).value)) &&
      (r.value == ValidIdentity <==> lib.blake3(message.value.value) == tx.body.bodyHash)
  {
    if message.None? then Err(MessageRequired)
    else
      var bytes :- message.value;
      match tx.body
      case SignV1(creator, bodyHash) =>
        (match db.LoadIdentity(creator)
         case None => Err(IdentityNotImported)
         case Some(creatorTransactions) =>
           var creatorIdentity :- BuildIdentity(lib, creatorTransactions);
           if !lib.verify(tx, Some(creatorIdentity)) then Err(LibraryError("Identity signature invalid"))
           else if lib.blake3(bytes) == bodyHash then Ok(ValidIdentity)
           else Ok(InvalidSignature(HashMismatch)))
      case _ => Err(InvalidIdentitySignature)
  }

  /** The library's check of a subkey signature, as a verdict. */
  function SubkeyVerdict(check: Result<(), string>): (v: Verdict)
    ensures v == ValidSubkey <==> check.Ok?
    ensures v != ValidSubkey ==> v == InvalidSignature(SubkeySignatureInvalid(check.error))
  {
    match check
    case Ok(_) => ValidSubkey
    case Err(e) => InvalidSignature(SubkeySignatureInvalid(e))
  }

  /** A subkey signature: the signing identity must be saved locally and hold the signing key;
      a detached signature needs the message, an attached one carries it. */
  function VerifySubkey(db: Db, lib: Library, sig: Signature, message: Option<Result<seq<bv8>, CliError>>)
    : (r: Result<Verdict, CliError>)
    reads db
    ensures r.Ok? ==> r.value.ValidSubkey? || r.value.InvalidSignature?
    ensures r.Ok? ==>
      sig.signedByIdentity.text.Some? &&
      db.LoadIdentity(sig.signedByIdentity).Some? && lib.build(db.LoadIdentity(sig.signedByIdentity).value).Ok? &&
      var subkey := SubkeyByKeyIdStr(lib.build(db.LoadIdentity(sig.signedByIdentity).value).value.keychain, sig.signedByKey);
      subkey.Some? &&
      (sig.Detached? ==> message.Some? && message.value.Ok?) &&
      r.value == SubkeyVerdict(lib.verifySubkeySignature(subkey.value, sig,
                                 if sig.Detached? then Some(message.value.value) else None))
  {
    var _ :- IdStr(sig.signedByIdentity);
    match db.LoadIdentity(sig.signedByIdentity)
    case None => Err(IdentityNotImported)
    case Some(transactions) =>
      var identity :- BuildIdentity(lib, transactions);
      match SubkeyByKeyIdStr(identity.keychain, sig.signedByKey)
      case None => Err(SigningKeyNotFound)
      case Some(subkey) =>
        if sig.Detached? then
          if message.None? then Err(MessageRequired)
          else
            var bytes :- message.value;
            Ok(SubkeyVerdict(lib.verifySubkeySignature(subkey, sig, Some(bytes))))
        else Ok(SubkeyVerdict(lib.verifySubkeySignature(subkey, sig, None)))
  }

  /** `verify`: an error ends the command; otherwise the verdict is printed and the command
      succeeds, valid or not. The only verdicts of "invalid" are a message whose hash differs
      from an identity signature's and a subkey signature the library rejects. */
  function Verify(db: Db, lib: Library, sigFile: Result<seq<bv8>, CliError>, message: Option<Result<seq<bv8>, CliError>>)
    : (r: Result<Verdict, CliError>)
    reads db
    ensures sigFile.Err? ==> r == Err(sigFile.error)
    ensures sigFile.Ok? && DecodeSignatureFile(lib, sigFile.value).None? ==> r == Err(UnreadableSignature)
    ensures r.Ok? && r.value.InvalidSignature? ==> r.value.reason == HashMismatch || r.value.reason.SubkeySignatureInvalid?
    ensures r.Ok? && r.value == ValidIdentity ==> DecodeSignatureFile(lib, sigFile.value).value.IdentitySignature?
    ensures r.Ok? && r.value == ValidSubkey ==> DecodeSignatureFile(lib, sigFile.value).value.SubkeySignature?
  {
    var bytes :- sigFile;
    match DecodeSignatureFile(lib, bytes)
    case None => Err(UnreadableSignature)
    case Some(IdentitySignature(tx)) => VerifyIdentity(db, lib, tx, message)
    case Some(SubkeySignature(sig)) => VerifySubkey(db, lib, sig, message)
  }

  // ---------------------------------------------------------------- round trips

  /** The saved identity found by its own id is the one saved under that id. */
  lemma LoadsSavedList(db: Db, t: Transactions)
    requires db.Valid() && t in db.identities && t.identityId.Some?
    ensures db.LoadIdentity(t.identityId.value) == Some(t)
  {
  }

  /** A signature `sign id` writes out verifies against the same message: the creator it
      names is the saved identity that signed, and the hash it carries is the message's. What
      is assumed of the library is that it keeps the body it was given when it signs, that the
      signed transaction verifies against the signer, and that the written bytes decode back to
      it (from base64 when base64 was asked for, and not as a raw transaction then). */
  lemma SignedIdentityVerifies(db: Db, lib: Library, idSign: string, msg: Result<seq<bv8>, CliError>,
                               signWith: Option<string>, base64: bool, transactions: Transactions, signed: Transaction)
    requires db.Valid()
    requires SignIdPlan(db, lib, idSign, msg, true, false, signWith) == Ok((transactions, signed))
    requires signed.body == SignV1(transactions.identityId.value, lib.blake3(msg.value))
    requires lib.verify(signed, Some(lib.build(transactions).value))
    requires lib.serializeBinary(signed).Ok?
    requires var serialized := lib.serializeBinary(signed).value;
      lib.decodeTransaction(serialized) == Some(signed) &&
      (base64 ==> lib.decodeTransaction(lib.base64Encode(serialized)).None? &&
                  lib.base64Decode(lib.base64Encode(serialized)) == Some(serialized))
    ensures WrittenSignature(lib, signed, base64).Ok?
    ensures Verify(db, lib, Ok(WrittenSignature(lib, signed, base64).value.bytes), Some(msg)) == Ok(ValidIdentity)
  {
    assert LoadSingle(db, lib, idSign) == Ok(transactions);
    SavedSignerVerifies(db, lib, transactions, signed, msg);
    WrittenSignatureReadsBack(lib, signed, base64);
    VerifyReadsIdentitySignature(db, lib, WrittenSignature(lib, signed, base64).value.bytes, Some(msg), signed);
  }

  /** A file that reads as an identity signature is judged by `VerifyIdentity` alone. */
  lemma VerifyReadsIdentitySignature(db: Db, lib: Library, bytes: seq<bv8>, message: Option<Result<seq<bv8>, CliError>>,
                                     tx: Transaction)
    requires DecodeSignatureFile(lib, bytes) == Some(IdentitySignature(tx))
    ensures Verify(db, lib, Ok(bytes), message) == VerifyIdentity(db, lib, tx, message)
  {
  }

  /** A `SignV1` transaction made by a saved identity over a message's hash, which the
      library verifies against that identity, is a valid identity signature of the message. */
  lemma SavedSignerVerifies(db: Db, lib: Library, transactions: Transactions, signed: Transaction,
                            msg: Result<seq<bv8>, CliError>)
    requires db.Valid() && transactions in db.identities && transactions.identityId.Some?
    requires msg.Ok? && signed.body == SignV1(transactions.identityId.value, lib.blake3(msg.value))
    requires lib.build(transactions).Ok? && lib.verify(signed, Some(lib.build(transactions).value))
    ensures VerifyIdentity(db, lib, signed, Some(msg)) == Ok(ValidIdentity)
  {
    LoadsSavedList(db, transactions);
  }

  /** The bytes `sign id` writes are read back by `verify` as the signed transaction, given
      that the library decodes what it serialized (and, for base64, not the encoded text). */
  lemma WrittenSignatureReadsBack(lib: Library, signed: Transaction, base64: bool)
    requires lib.serializeBinary(signed).Ok?
    requires var serialized := lib.serializeBinary(signed).value;
      lib.decodeTransaction(serialized) == Some(signed) &&
      (base64 ==> lib.decodeTransaction(lib.base64Encode(serialized)).None? &&
                  lib.base64Decode(lib.base64Encode(serialized)) == Some(serialized))
    ensures WrittenSignature(lib, signed, base64).Ok?
    ensures DecodeSignatureFile(lib, WrittenSignature(lib, signed, base64).value.bytes) == Some(IdentitySignature(signed))
  {
    var serialized := lib.serializeBinary(signed).value;
    var bytes := Encoded(lib, serialized, base64);
    assert RawOrBase64(lib, bytes, lib.decodeTransaction) == Some(signed);
  }

  /** A signature `sign subkey` writes out verifies: detached against the same message,
      attached with no message at all. What is assumed of the library is that the signature
      names the signing identity and key and has the asked-for form, that the written bytes
      decode back to it and not to a transaction, that the key id is unique in the keychain,
      and that the library accepts the signature with that key. */
  lemma SignedSubkeyVerifies(db: Db, lib: Library, idSign: string, keySearch: Option<string>, answer: string,
                             msg: Result<seq<bv8>, CliError>, attached: bool, base64: bool)
    requires db.Valid()
    requires SignSubkey(db, lib, idSign, keySearch, answer, msg, true, attached, base64).Ok?
    requires var transactions := LoadSingle(db, lib, idSign).value;
      var identity := lib.build(transactions).value;
      var key := FindKeysBySearchOrPrompt(identity.keychain, keySearch, "sign", IsSignKey, answer).value;
      var signature := lib.signSubkey(identity.id, key, msg.value, attached).value;
      var bytes := SignSubkey(db, lib, idSign, keySearch, answer, msg, true, attached, base64).value;
      transactions.identityId == Some(identity.id) &&
      signature.signedByIdentity == identity.id && signature.signedByKey == key.keyId &&
      signature.Attached? == attached &&
      RawOrBase64(lib, bytes, lib.decodeTransaction).None? &&
      RawOrBase64(lib, bytes, lib.decodeSignature) == Some(signature) &&
      (forall k :: k in identity.keychain.subkeys && k.keyId == key.keyId ==> k == key) &&
      lib.verifySubkeySignature(key, signature, if attached then None else Some(msg.value)).Ok?
    ensures var message := if attached then None else Some(msg);
      Verify(db, lib, Ok(SignSubkey(db, lib, idSign, keySearch, answer, msg, true, attached, base64).value), message) ==
        Ok(ValidSubkey)
  {
    var transactions := LoadSingle(db, lib, idSign).value;
    var identity := lib.build(transactions).value;
    LoadsSavedList(db, transactions);
  }

  /** Whatever else holds, a file that reads as a transaction is checked as an identity
      signature, even when it would also read as a subkey signature. */
  lemma TransactionReadingWins(lib: Library, bytes: seq<bv8>)
    requires lib.decodeTransaction(bytes).Some? && lib.decodeSignature(bytes).Some?
    ensures DecodeSignatureFile(lib, bytes) == Some(IdentitySignature(lib.decodeTransaction(bytes).value))
  {
  }

  /** A message that does not hash to the signed hash gives the "invalid" verdict, not an
      error, once the identity signature itself checks out; the same file with the right
      message is valid. */
  lemma AlteredMessageIsInvalid(db: Db, lib: Library, tx: Transaction, good: seq<bv8>, altered: seq<bv8>)
    requires tx.body.SignV1? && lib.blake3(good) == tx.body.bodyHash && lib.blake3(altered) != tx.body.bodyHash
    requires db.LoadIdentity(tx.body.creator).Some? && lib.build(db.LoadIdentity(tx.body.creator).value).Ok?
    requires lib.verify(tx, Some(lib.build(db.LoadIdentity(tx.body.creator).value).value))
    ensures VerifyIdentity(db, lib, tx, Some(Ok(good))) == Ok(ValidIdentity)
    ensures VerifyIdentity(db, lib, tx, Some(Ok(altered))) == Ok(InvalidSignature(HashMismatch))
  {
  }
}
