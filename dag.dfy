/** The `dag` commands and the helpers every transaction-creating command shares: finding a
    transaction by id prefix, resetting and exporting, saving or staging a new transaction, the
    message shown after it, and the name of each transaction type. */
module Dag {
  import opened Common
  import opened Types
  import opened Collab
  import opened Store
  import opened Util
  import opened Identities

  // ---------------------------------------------------------------- finding a transaction

  /** The transaction's id converts to a string that starts with `txid`. */
  predicate TxIdStartsWith(tx: Transaction, txid: string) {
    tx.id.text.Some? && StartsWith(tx.id.text.value, txid)
  }

  /** The position of the first transaction, in chain order, whose id starts with `txid`.
      Ids that do not convert never match. */
  function FindTransactionByPrefix(txs: seq<Transaction>, txid: string): (r: Option<nat>)
    ensures r.Some? ==> r.value < |txs| && TxIdStartsWith(txs[r.value], txid)
    ensures r.Some? ==> forall j :: 0 <= j < r.value ==> !TxIdStartsWith(txs[j], txid)
    ensures r.None? <==> forall j :: 0 <= j < |txs| ==> !TxIdStartsWith(txs[j], txid)
    decreases |txs|
  {
    if |txs| == 0 then None
    else if TxIdStartsWith(txs[0], txid) then Some(0)
    else
      match FindTransactionByPrefix(txs[1..], txid)
      case None => None
      case Some(i) => Some(i + 1)
  }

  // ---------------------------------------------------------------- reset and export

  /** The largest `usize` plus one. */
  const USIZE_MODULUS: nat := USIZE_MAX + 1

  /** `before - after` on `usize`: exact when the list did not grow, wrapped otherwise (the
      original panics there when built with overflow checks). */
  function RemovedCount(before: nat, after: nat): (n: nat)
    ensures n <= USIZE_MAX || before > USIZE_MAX
    ensures after <= before ==> n == before - after
  {
    if after <= before then before - after else (before - after) % USIZE_MODULUS
  }

  /** Everything `dag reset` decides before saving: the identity must build and have a
      printable id, the transaction is the first whose id starts with `txid`, and the library
      rewinds the list to it. The result is the rewound list and the number of transactions
      removed. */
  function ResetPlan(lib: Library, transactions: Transactions, txid: string): (r: Result<(Transactions, nat), CliError>)
    ensures (FindTransactionByPrefix(transactions.list, txid).None? && lib.build(transactions).Ok? &&
             lib.build(transactions).value.id.text.Some?) ==> r == Err(TransactionNotFound(txid))
    ensures r.Ok? ==> FindTransactionByPrefix(transactions.list, txid).Some?
    ensures r.Ok? ==>
      var i := FindTransactionByPrefix(transactions.list, txid).value;
      var rewound := lib.reset(transactions, transactions.list[i].id);
      rewound.Ok? && r.value.0 == rewound.value &&
      r.value.1 == RemovedCount(|transactions.list|, |rewound.value.list|)
  {
    var identity :- BuildIdentity(lib, transactions);
    var _ :- IdStr(identity.id);
    match FindTransactionByPrefix(transactions.list, txid)
    case None => Err(TransactionNotFound(txid))
    case Some(i) =>
      match lib.reset(transactions, transactions.list[i].id)
      case Err(e) => Err(LibraryError("Problem resetting transactions: " + e))
      case Ok(rewound) => Ok((rewound, RemovedCount(|transactions.list|, |rewound.list|)))
  }

  /** `dag reset`: rewinds the single identity matching `id` and saves it, returning the number
      of transactions removed. Nothing is saved on any error. */
  method Reset(db: Db, lib: Library, id: string, txid: string) returns (r: Result<nat, CliError>)
    requires db.Valid()
    modifies db
    ensures db.Valid()
    ensures r.Err? ==> unchanged(db)
    ensures var loaded := old(LoadSingle(db, lib, id));
      loaded.Err? ==> r == Err(loaded.error)
    ensures var loaded := old(LoadSingle(db, lib, id));
      loaded.Ok? && ResetPlan(lib, loaded.value, txid).Err? ==> r == Err(ResetPlan(lib, loaded.value, txid).error)
    ensures var loaded := old(LoadSingle(db, lib, id));
      loaded.Ok? && ResetPlan(lib, loaded.value, txid).Ok? ==>
      var (rewound, removed) := ResetPlan(lib, loaded.value, txid).value;
      rewound.identityId.Some? ==>
        r == Ok(removed) &&
        db.identities == Upsert(old(db.identities), rewound) && db.staged == old(db.staged) &&
        db.effects == old(db.effects) + [SavedIdentity(rewound.identityId.value)]
    ensures r.Ok? ==>
      var loaded := old(LoadSingle(db, lib, id));
      loaded.Ok? && ResetPlan(lib, loaded.value, txid).Ok? &&
      ResetPlan(lib, loaded.value, txid).value.0.identityId.Some?
  {
    var loaded := LoadSingle(db, lib, id);
    if loaded.Err? {
      return Err(loaded.error);
    }
    var plan := ResetPlan(lib, loaded.value, txid);
    if plan.Err? {
      return Err(plan.error);
    }
    var (rewound, removed) := plan.value;
    var saved := db.SaveIdentity(rewound);
    if saved.Err? {
      return Err(saved.error);
    }
    r := Ok(removed);
  }

  /** `dag export`: the bytes written for the first transaction whose id starts with `txid`,
      base64 text when `base64` is set and raw binary otherwise. */
  function Export(lib: Library, transactions: Transactions, txid: string, base64: bool): (r: Result<seq<bv8>, CliError>)
    ensures (FindTransactionByPrefix(transactions.list, txid).None? && lib.build(transactions).Ok? &&
             lib.build(transactions).value.id.text.Some?) ==> r == Err(TransactionNotFound(txid))
    ensures r.Ok? ==> FindTransactionByPrefix(transactions.list, txid).Some?
    ensures r.Ok? ==>
      var tx := transactions.list[FindTransactionByPrefix(transactions.list, txid).value];
      lib.serializeBinary(tx).Ok? &&
      r.value == (if base64 then lib.base64Encode(lib.serializeBinary(tx).value) else lib.serializeBinary(tx).value)
  {
    var identity :- BuildIdentity(lib, transactions);
    var _ :- IdStr(identity.id);
    match FindTransactionByPrefix(transactions.list, txid)
    case None => Err(TransactionNotFound(txid))
    case Some(i) =>
      match lib.serializeBinary(transactions.list[i])
      case Err(e) => Err(LibraryError("Problem serializing transaction: " + e))
      case Ok(bytes) => if base64 then Ok(lib.base64Encode(bytes)) else Ok(bytes)
  }

  // ---------------------------------------------------------------- after saving

  /** How the message after staging points at the staged copy. */
  function ViewStaged(txId: ObjectId): string {
    "View the staged transaction with:\n  " + "stamp stage view " + txId.display
  }

  const SYNC_KEY_NAME := "stamp/sync"
  const SYNC_KEY_MESSAGE := "Syncing key created. Run `stamp sync token` to view the token"

  function KeyKindName(kind: KeyKind): string {
    match kind
    case SignKey => "sign"
    case CryptoKey => "crypto"
    case SecretKey => "secret"
  }

  /** The transaction types `post_save` has no message for. */
  predicate Silent(body: TransactionBody) {
    body.CreateIdentityV1? || body.ResetIdentityV1? || body.AddPolicyV1? || body.DeletePolicyV1? ||
    body.RevokeSubkeyV1? || body.PublishV1? || body.SignV1? || body.ExtV1?
  }

  /** The message for a newly made public Domain or Url claim: the instructions and the first
      `count` values the library allows for instant verification. The original indexes the
      values directly, so fewer than `count` values is a panic there and an error here. Text
      wrapping is not modelled. */
  function InstantClaimMessage(lib: Library, identity: Identity, tx: Transaction, intro: string, count: nat)
    : Result<string, CliError>
  {
    var claims := Filter(identity.claims, (c: Claim) => c.id == tx.id);
    if |claims| == 0 then Err(CreatedClaimNotFound)
    else
      match lib.instantValues(claims[0], identity.id)
      case Err(e) => Err(LibraryError("Problem grabbing allowed claim values: " + e))
      case Ok(values) =>
        if |values| < count then Err(InstantValuesMissing)
        else Ok(intro + "\n" + Concat(seq(count, i requires 0 <= i < count => "  " + values[i] + "\n")))
  }

  function DomainClaimIntro(domain: string): string {
    "Claim added. You can finalize this claim and make it verifiable instantly to others by adding a DNS TXT record to the domain "
    + domain + " that contains one of the following values:\n"
  }

  function UrlClaimIntro(url: string): string {
    "Claim added. You can finalize this claim and make it verifiable instantly to others by updating the URL "
    + url + " to contain one of the following values:\n"
  }

  /** The message after a claim is added: instructions for instant verification for a public
      Domain or Url claim, the claim's name otherwise. */
  function ClaimAddedMessage(lib: Library, identity: Identity, tx: Transaction, spec: ClaimSpec, name: Option<string>)
    : Result<string, CliError>
  {
    if spec.Domain? && spec.domain.Public? then
      InstantClaimMessage(lib, identity, tx, DomainClaimIntro(spec.domain.value), 2)
    else if spec.Url? && spec.url.Public? then
      InstantClaimMessage(lib, identity, tx, UrlClaimIntro(spec.url.value), 4)
    else
      Ok("Claim" + (if name.Some? then " with name " + name.value else "") + " added.")
  }

  /** `post_save`: the message shown after a transaction is saved or staged, or none for the
      transaction types it does not describe. The identity is built first, whatever the
      type; apart from that build, only the message for a saved claim can fail. */
  function PostSave(lib: Library, transactions: Transactions, tx: Transaction, stage: bool)
    : (r: Result<Option<string>, CliError>)
    ensures lib.build(transactions).Err? ==> r.Err?
    ensures r.Err? ==> lib.build(transactions).Err? || (!stage && tx.body.MakeClaimV1?)
  {
    var identity :- BuildIdentity(lib, transactions);
    var view := ViewStaged(tx.id);
    match tx.body
    case AddAdminKeyV1(adminKey) =>
      Ok(Some(if stage then "New key staged. " + view else "New admin key added: " + adminKey.keyId + "."))
    case EditAdminKeyV1(keyId, _, _) =>
      Ok(Some(if stage then "Key updated staged. " + view else "Key " + keyId + " updated"))
    case RevokeAdminKeyV1(keyId, _) =>
      Ok(Some(if stage then "Key " + keyId + " revocation staged. " + view else "Key " + keyId + " revoked."))
    case MakeClaimV1(spec, name) =>
      if stage then Ok(Some("Claim staged. " + view))
      else
        (match ClaimAddedMessage(lib, identity, tx, spec, name)
         case Ok(msg) => Ok(Some(msg))
         case Err(e) => Err(e))
    case EditClaimV1(claimId, renamedTo) =>
      Ok(Some(if stage then "Claim rename staged. " + view
              else if renamedTo.Some? then "Claim " + claimId.display + " renamed to " + renamedTo.value + "."
              else "Claim " + claimId.display + " name removed."))
    case DeleteClaimV1(claimId) =>
      Ok(Some(if stage then "Claim staged for deletion. " + view else "Claim " + claimId.display + " deleted."))
    case MakeStampV1(claimId) =>
      Ok(Some(if stage then "Stamp staged for creation. " + view else "Stamp on claim " + claimId.display + " created."))
    case RevokeStampV1(stampId) =>
      Ok(Some(if stage then "Stamp revocation staged. " + view else "Stamp " + stampId.display + " has been revoked."))
    case AcceptStampV1(stampTx) =>
      Ok(Some(if stage then "Stamp acceptance staged. " + view else "Stamp " + stampTx.display + " has been accepted."))
    case DeleteStampV1(stampId) =>
      Ok(Some(if stage then "Stamp deletion staged. " + view else "Stamp " + stampId.display + " has been deleted."))
    case AddSubkeyV1(kind, keyId, name, _) =>
      Ok(Some(if stage then "New key staged for creation. " + view
              else if KeyKindName(kind) == "secret" && name == SYNC_KEY_NAME then SYNC_KEY_MESSAGE
              else "New " + KeyKindName(kind) + " key added: " + keyId + "."))
    case EditSubkeyV1(keyId, _, _) =>
      Ok(Some(if stage then "Key update staged. " + view else "Key " + keyId + " updated."))
    case DeleteSubkeyV1(keyId) =>
      Ok(Some(if stage then "Key " + keyId + " deletion staged. " + view else "Key " + keyId + " deleted."))
    case _ => Ok(None)
  }

  lemma EndsWithView(prefix: string, txId: ObjectId)
    ensures Contains(prefix + ViewStaged(txId), "stamp stage view " + txId.display)
  {
    var a := prefix + "View the staged transaction with:\n  ";
    var b := "stamp stage view " + txId.display;
    assert prefix + ViewStaged(txId) == a + b + "";
    ContainsConcat(a, b, "");
  }

  /** The transaction types without a message are exactly the silent ones, staged or not. */
  lemma PostSaveSilent(lib: Library, transactions: Transactions, tx: Transaction, stage: bool)
    requires lib.build(transactions).Ok?
    ensures Silent(tx.body) <==> PostSave(lib, transactions, tx, stage) == Ok(None)
  {
  }

  /** Every described transaction, once staged, gets a message pointing at
      `stamp stage view <id>`. */
  lemma PostSaveStagedPointsAtView(lib: Library, transactions: Transactions, tx: Transaction)
    requires lib.build(transactions).Ok? && !Silent(tx.body)
    ensures PostSave(lib, transactions, tx, true).Ok? && PostSave(lib, transactions, tx, true).value.Some?
    ensures Contains(PostSave(lib, transactions, tx, true).value.value, "stamp stage view " + tx.id.display)
  {
    if IsAdminKeyBody(tx.body) {
      StagedAdminKeyPointsAtView(lib, transactions, tx);
    } else if IsClaimBody(tx.body) {
      StagedClaimPointsAtView(lib, transactions, tx);
    } else if IsStampBody(tx.body) {
      StagedStampPointsAtView(lib, transactions, tx);
    } else {
      StagedSubkeyPointsAtView(lib, transactions, tx);
    }
  }

  predicate IsAdminKeyBody(b: TransactionBody) { b.AddAdminKeyV1? || b.EditAdminKeyV1? || b.RevokeAdminKeyV1? }

  predicate IsClaimBody(b: TransactionBody) { b.MakeClaimV1? || b.EditClaimV1? || b.DeleteClaimV1? }

  predicate IsStampBody(b: TransactionBody) { b.MakeStampV1? || b.RevokeStampV1? || b.AcceptStampV1? || b.DeleteStampV1? }

  predicate IsSubkeyBody(b: TransactionBody) { b.AddSubkeyV1? || b.EditSubkeyV1? || b.DeleteSubkeyV1? }

  lemma StagedAdminKeyPointsAtView(lib: Library, transactions: Transactions, tx: Transaction)
    requires lib.build(transactions).Ok? && IsAdminKeyBody(tx.body)
    ensures PostSave(lib, transactions, tx, true).Ok? && PostSave(lib, transactions, tx, true).value.Some?
    ensures Contains(PostSave(lib, transactions, tx, true).value.value, "stamp stage view " + tx.id.display)
  {
    match tx.body
    case AddAdminKeyV1(_) => EndsWithView("New key staged. ", tx.id);
    case EditAdminKeyV1(_, _, _) => EndsWithView("Key updated staged. ", tx.id);
    case RevokeAdminKeyV1(keyId, _) => EndsWithView("Key " + keyId + " revocation staged. ", tx.id);
  }

  lemma StagedClaimPointsAtView(lib: Library, transactions: Transactions, tx: Transaction)
    requires lib.build(transactions).Ok? && IsClaimBody(tx.body)
    ensures PostSave(lib, transactions, tx, true).Ok? && PostSave(lib, transactions, tx, true).value.Some?
    ensures Contains(PostSave(lib, transactions, tx, true).value.value, "stamp stage view " + tx.id.display)
  {
    match tx.body
    case MakeClaimV1(_, _) => EndsWithView("Claim staged. ", tx.id);
    case EditClaimV1(_, _) => EndsWithView("Claim rename staged. ", tx.id);
    case DeleteClaimV1(_) => EndsWithView("Claim staged for deletion. ", tx.id);
  }

  lemma StagedStampPointsAtView(lib: Library, transactions: Transactions, tx: Transaction)
    requires lib.build(transactions).Ok? && IsStampBody(tx.body)
    ensures PostSave(lib, transactions, tx, true).Ok? && PostSave(lib, transactions, tx, true).value.Some?
    ensures Contains(PostSave(lib, transactions, tx, true).value.value, "stamp stage view " + tx.id.display)
  {
    match tx.body
    case MakeStampV1(_) => EndsWithView("Stamp staged for creation. ", tx.id);
    case RevokeStampV1(_) => EndsWithView("Stamp revocation staged. ", tx.id);
    case AcceptStampV1(_) => EndsWithView("Stamp acceptance staged. ", tx.id);
    case DeleteStampV1(_) => EndsWithView("Stamp deletion staged. ", tx.id);
  }

  lemma StagedSubkeyPointsAtView(lib: Library, transactions: Transactions, tx: Transaction)
    requires lib.build(transactions).Ok? && IsSubkeyBody(tx.body)
    ensures PostSave(lib, transactions, tx, true).Ok? && PostSave(lib, transactions, tx, true).value.Some?
    ensures Contains(PostSave(lib, transactions, tx, true).value.value, "stamp stage view " + tx.id.display)
  {
    match tx.body
    case AddSubkeyV1(_, _, _, _) => EndsWithView("New key staged for creation. ", tx.id);
    case EditSubkeyV1(_, _, _) => EndsWithView("Key update staged. ", tx.id);
    case DeleteSubkeyV1(keyId) => EndsWithView("Key " + keyId + " deletion staged. ", tx.id);
  }

  /** A committed secret subkey named `stamp/sync` gets the sync-token message; any other
      committed subkey is announced with its type and key id. */
  lemma PostSaveSyncKey(lib: Library, transactions: Transactions, tx: Transaction)
    requires lib.build(transactions).Ok? && tx.body.AddSubkeyV1?
    ensures PostSave(lib, transactions, tx, false) == Ok(Some(
      if tx.body.key == SecretKey && tx.body.subkeyName == SYNC_KEY_NAME then SYNC_KEY_MESSAGE
      else "New " + KeyKindName(tx.body.key) + " key added: " + tx.body.keyId + "."))
  {
    if tx.body.key != SecretKey {
      assert KeyKindName(tx.body.key) != "secret" by {
        assert KeyKindName(tx.body.key)[0] != 's' || |KeyKindName(tx.body.key)| != 6;
      }
    }
  }

  // ---------------------------------------------------------------- save or stage

  /** `save_or_stage`: a new transaction either goes to the staging area, leaving the saved
      identity as it was, or is admitted by the library and the grown list saved. The message
      `post_save` gives is returned in `printed`; its failure is reported after the write. */
  method SaveOrStage(db: Db, lib: Library, transactions: Transactions, tx: Transaction, stage: bool)
    returns (r: Result<Transactions, CliError>, printed: Option<string>)
    requires db.Valid()
    modifies db
    ensures db.Valid()
    ensures transactions.identityId.None? ==> r == Err(MissingIdentityId) && unchanged(db)
    ensures transactions.identityId.Some? && stage ==>
      db.staged == old(db.staged)[tx.id := StagedEntry(transactions.identityId.value, tx)] &&
      db.identities == old(db.identities) &&
      db.effects == old(db.effects) + [StagedTransaction(tx.id)] &&
      (r.Ok? ==> r.value == transactions)
    ensures transactions.identityId.Some? && !stage && lib.push(transactions, tx).Err? ==> r.Err? && unchanged(db)
    ensures (transactions.identityId.Some? && !stage && lib.push(transactions, tx).Ok? &&
             lib.push(transactions, tx).value.identityId.Some?) ==>
        var pushed := lib.push(transactions, tx).value;
        db.identities == Upsert(old(db.identities), pushed) && db.staged == old(db.staged) &&
        db.effects == old(db.effects) + [SavedIdentity(pushed.identityId.value)] &&
        (r.Ok? ==> r.value == pushed)
    ensures transactions.identityId.Some? && !stage && lib.push(transactions, tx).Ok? &&
            lib.push(transactions, tx).value.identityId.None? ==>
      r == Err(LibraryError("Problem saving identity")) && unchanged(db)
    ensures r.Ok? ==> PostSave(lib, r.value, tx, stage) == Ok(printed)
    ensures transactions.identityId.Some? && stage ==>
      var msg := PostSave(lib, transactions, tx, true);
      (msg.Ok? ==> r == Ok(transactions) && printed == msg.value) &&
      (msg.Err? ==> r == Err(msg.error))
    ensures (transactions.identityId.Some? && !stage && lib.push(transactions, tx).Ok? &&
             lib.push(transactions, tx).value.identityId.Some?) ==>
      var pushed := lib.push(transactions, tx).value;
      var msg := PostSave(lib, pushed, tx, false);
      (msg.Ok? ==> r == Ok(pushed) && printed == msg.value) &&
      (msg.Err? ==> r == Err(msg.error))
  {
    printed := None;
    if transactions.identityId.None? {
      return Err(MissingIdentityId), None;
    }
    var identityId := transactions.identityId.value;
    var result: Transactions;
    if stage {
      var _ := db.StageTransaction(identityId, tx);
      result := transactions;
    } else {
      var pushed := lib.push(transactions, tx);
      if pushed.Err? {
        return Err(LibraryError("Error saving transaction: " + pushed.error)), None;
      }
      var saved := db.SaveIdentity(pushed.value);
      if saved.Err? {
        return Err(saved.error), None;
      }
      result := saved.value;
    }
    var msg := PostSave(lib, result, tx, stage);
    if msg.Err? {
      return Err(msg.error), None;
    }
    r, printed := Ok(result), msg.value;
  }

  // ---------------------------------------------------------------- transaction type names

  /** `transaction_to_string`: the name of a transaction's type. */
  function TransactionToString(body: TransactionBody): string {
    match body
    case CreateIdentityV1 => "CreateIdentityV1"
    case ResetIdentityV1 => "ResetIdentityV1"
    case AddAdminKeyV1(_) => "AddAdminKeyV1"
    case EditAdminKeyV1(_, _, _) => "EditAdminKeyV1"
    case RevokeAdminKeyV1(_, _) => "RevokeAdminKeyV1"
    case AddPolicyV1 => "AddPolicyV1"
    case DeletePolicyV1 => "DeletePolicyV1"
    case MakeClaimV1(_, _) => "MakeClaimV1"
    case EditClaimV1(_, _) => "EditClaimV1"
    case DeleteClaimV1(_) => "DeleteClaimV1"
    case MakeStampV1(_) => "MakeStampV1"
    case RevokeStampV1(_) => "RevokeStampV1"
    case AcceptStampV1(_) => "AcceptStampV1"
    case DeleteStampV1(_) => "DeleteStampV1"
    case AddSubkeyV1(_, _, _, _) => "AddSubkeyV1"
    case EditSubkeyV1(_, _, _) => "EditSubkeyV1"
    case RevokeSubkeyV1(_, _) => "RevokeSubkeyV1"
    case DeleteSubkeyV1(_) => "DeleteSubkeyV1"
    case PublishV1 => "PublishV1"
    case SignV1(_, _) => "SignV1"
    case ExtV1 => "ExtV1"
  }

  /** The position of a transaction type in the list of types: the type a name stands for,
      so `TypeByName` reads every name `transaction_to_string` gives back. */
  function BodyKind(body: TransactionBody): (k: nat)
    ensures k < 21
    ensures TypeByName(TransactionToString(body)) == Some(k)
  {
    IdentityAndAdminKeyNames(body);
    PolicyAndClaimNames(body);
    StampNames(body);
    SubkeyNames(body);
    PublishSignAndExtNames(body);
    match body
    case CreateIdentityV1 => 0
    case ResetIdentityV1 => 1
    case AddAdminKeyV1(_) => 2
    case EditAdminKeyV1(_, _, _) => 3
    case RevokeAdminKeyV1(_, _) => 4
    case AddPolicyV1 => 5
    case DeletePolicyV1 => 6
    case MakeClaimV1(_, _) => 7
    case EditClaimV1(_, _) => 8
    case DeleteClaimV1(_) => 9
    case MakeStampV1(_) => 10
    case RevokeStampV1(_) => 11
    case AcceptStampV1(_) => 12
    case DeleteStampV1(_) => 13
    case AddSubkeyV1(_, _, _, _) => 14
    case EditSubkeyV1(_, _, _) => 15
    case RevokeSubkeyV1(_, _) => 16
    case DeleteSubkeyV1(_) => 17
    case PublishV1 => 18
    case SignV1(_, _) => 19
    case ExtV1 => 20
  }

  /** The type a name stands for: the inverse of `TransactionToString`. */
  function TypeByName(name: string): Option<nat> {
    if name == "CreateIdentityV1" then Some(0)
    else if name == "ResetIdentityV1" then Some(1)
    else if name == "AddAdminKeyV1" then Some(2)
    else if name == "EditAdminKeyV1" then Some(3)
    else if name == "RevokeAdminKeyV1" then Some(4)
    else if name == "AddPolicyV1" then Some(5)
    else if name == "DeletePolicyV1" then Some(6)
    else if name == "MakeClaimV1" then Some(7)
    else if name == "EditClaimV1" then Some(8)
    else if name == "DeleteClaimV1" then Some(9)
    else if name == "MakeStampV1" then Some(10)
    else if name == "RevokeStampV1" then Some(11)
    else if name == "AcceptStampV1" then Some(12)
    else if name == "DeleteStampV1" then Some(13)
    else if name == "AddSubkeyV1" then Some(14)
    else if name == "EditSubkeyV1" then Some(15)
    else if name == "RevokeSubkeyV1" then Some(16)
    else if name == "DeleteSubkeyV1" then Some(17)
    else if name == "PublishV1" then Some(18)
    else if name == "SignV1" then Some(19)
    else if name == "ExtV1" then Some(20)
    else None
  }

  // The names of each family of transaction types read back as their positions.

  lemma IdentityAndAdminKeyNames(body: TransactionBody)
    ensures body.CreateIdentityV1? ==> TypeByName(TransactionToString(body)) == Some(0)
    ensures body.ResetIdentityV1? ==> TypeByName(TransactionToString(body)) == Some(1)
    ensures body.AddAdminKeyV1? ==> TypeByName(TransactionToString(body)) == Some(2)
    ensures body.EditAdminKeyV1? ==> TypeByName(TransactionToString(body)) == Some(3)
    ensures body.RevokeAdminKeyV1? ==> TypeByName(TransactionToString(body)) == Some(4)
  {
  }

  lemma PolicyAndClaimNames(body: TransactionBody)
    ensures body.AddPolicyV1? ==> TypeByName(TransactionToString(body)) == Some(5)
    ensures body.DeletePolicyV1? ==> TypeByName(TransactionToString(body)) == Some(6)
    ensures body.MakeClaimV1? ==> TypeByName(TransactionToString(body)) == Some(7)
    ensures body.EditClaimV1? ==> TypeByName(TransactionToString(body)) == Some(8)
    ensures body.DeleteClaimV1? ==> TypeByName(TransactionToString(body)) == Some(9)
  {
  }

  lemma StampNames(body: TransactionBody)
    ensures body.MakeStampV1? ==> TypeByName(TransactionToString(body)) == Some(10)
    ensures body.RevokeStampV1? ==> TypeByName(TransactionToString(body)) == Some(11)
    ensures body.AcceptStampV1? ==> TypeByName(TransactionToString(body)) == Some(12)
    ensures body.DeleteStampV1? ==> TypeByName(TransactionToString(body)) == Some(13)
  {
  }

  lemma SubkeyNames(body: TransactionBody)
    ensures body.AddSubkeyV1? ==> TypeByName(TransactionToString(body)) == Some(14)
    ensures body.EditSubkeyV1? ==> TypeByName(TransactionToString(body)) == Some(15)
    ensures body.RevokeSubkeyV1? ==> TypeByName(TransactionToString(body)) == Some(16)
    ensures body.DeleteSubkeyV1? ==> TypeByName(TransactionToString(body)) == Some(17)
  {
  }

  lemma PublishSignAndExtNames(body: TransactionBody)
    ensures body.PublishV1? ==> TypeByName(TransactionToString(body)) == Some(18)
    ensures body.SignV1? ==> TypeByName(TransactionToString(body)) == Some(19)
    ensures body.ExtV1? ==> TypeByName(TransactionToString(body)) == Some(20)
  {
  }

  /** Reading a type's name back gives the type, so `transaction_to_string` is total and
      gives different types different names. */
  lemma TransactionNamesDistinct(a: TransactionBody, b: TransactionBody)
    ensures TypeByName(TransactionToString(a)) == Some(BodyKind(a))
    ensures TransactionToString(a) == TransactionToString(b) <==> BodyKind(a) == BodyKind(b)
  {
    if BodyKind(a) == BodyKind(b) {
      SameKindSameName(a, b);
    }
  }

  lemma SameKindSameName(a: TransactionBody, b: TransactionBody)
    requires BodyKind(a) == BodyKind(b)
    ensures TransactionToString(a) == TransactionToString(b)
  {
  }
}
