/** The `stage` commands: a transaction that needs more signatures than the user can give at
    once waits in the staging area; it can be viewed, signed again, applied to its identity or
    deleted. Each command is a fixed sequence of reads and writes on the database. */
module Stage {
  import opened Common
  import opened Types
  import opened Collab
  import opened Store
  import opened Util
  import opened Identities
  import opened Dag

  /** `TransactionID::try_from(txid)` then `load_staged_transaction`: the staged entry, an
      error if the id does not parse, or an error if nothing is staged under it. */
  function LoadStagedEntry(db: Db, lib: Library, txid: string): (r: Result<StagedEntry, CliError>)
    reads db
    ensures lib.parseTransactionId(txid).None? ==> r == Err(InvalidTransactionId(txid))
    ensures lib.parseTransactionId(txid).Some? && lib.parseTransactionId(txid).value !in db.staged ==>
      r == Err(TransactionNotFound(txid))
    ensures r.Ok? ==> lib.parseTransactionId(txid).Some? && r.value == db.staged[lib.parseTransactionId(txid).value]
  {
    match lib.parseTransactionId(txid)
    case None => Err(InvalidTransactionId(txid))
    case Some(txId) =>
      match db.LoadStaged(txId)
      case None => Err(TransactionNotFound(txid))
      case Some(entry) => Ok(entry)
  }

  /** `stage list`: the single saved identity matching `id`, built, and every transaction staged
      for it (`find_staged_transactions`); the table shows them in the database's order. */
  function List(db: Db, lib: Library, id: string): (r: Result<(Identity, set<Transaction>), CliError>)
    reads db
    ensures r.Ok? ==> LoadSingle(db, lib, id).Ok? && BuildIdentity(lib, LoadSingle(db, lib, id).value) == Ok(r.value.0)
    ensures r.Ok? ==> forall tx :: tx in r.value.1 <==>
      exists txId :: txId in db.staged && db.staged[txId].identityId == r.value.0.id && db.staged[txId].transaction == tx
  {
    var transactions :- LoadSingle(db, lib, id);
    var identity :- BuildIdentity(lib, transactions);
    Ok((identity, set txId | txId in db.staged && db.staged[txId].identityId == identity.id :: db.staged[txId].transaction))
  }

  /** `stage view`: the staged transaction as text. */
  function View(db: Db, lib: Library, txid: string): (r: Result<string, CliError>)
    reads db
    ensures LoadStagedEntry(db, lib, txid).Err? ==> r == Err(LoadStagedEntry(db, lib, txid).error)
    ensures r.Ok? ==> lib.serializeText(LoadStagedEntry(db, lib, txid).value.transaction) == Ok(r.value)
  {
    var entry :- LoadStagedEntry(db, lib, txid);
    match lib.serializeText(entry.transaction)
    case Ok(text) => Ok(text)
    case Err(e) => Err(LibraryError("Error serializing staged transaction: " + e))
  }

  /** `stage delete`: the entry must exist before the user is asked; a declined confirmation
      changes nothing. The result says whether the entry was deleted. */
  method Delete(db: Db, lib: Library, txid: string, answer: string) returns (r: Result<bool, CliError>)
    requires db.Valid()
    modifies db
    ensures db.Valid()
    ensures old(LoadStagedEntry(db, lib, txid)).Err? ==> r == Err(old(LoadStagedEntry(db, lib, txid)).error) && unchanged(db)
    ensures old(LoadStagedEntry(db, lib, txid)).Ok? && !YesnoPrompt(answer, "N") ==> r == Ok(false) && unchanged(db)
    ensures old(LoadStagedEntry(db, lib, txid)).Ok? && YesnoPrompt(answer, "N") ==>
      var txId := lib.parseTransactionId(txid).value;
      r == Ok(true) && db.staged == old(db.staged) - {txId} && db.identities == old(db.identities) &&
      db.effects == old(db.effects) + [UnstagedTransaction(txId)]
  {
    var entry := LoadStagedEntry(db, lib, txid);
    if entry.Err? {
      return Err(entry.error);
    }
    if !YesnoPrompt(answer, "N") {
      return Ok(false);
    }
    db.DeleteStaged(lib.parseTransactionId(txid).value);
    r := Ok(true);
  }

  /** Everything `stage sign` decides before writing: the staged entry, the single saved
      identity it was staged for, that identity built, and the transaction signed with the
      named admin key. */
  function SignPlan(db: Db, lib: Library, txid: string, signWith: string): (r: Result<(Identity, Transaction), CliError>)
    reads db
    ensures LoadStagedEntry(db, lib, txid).Err? ==> r == Err(LoadStagedEntry(db, lib, txid).error)
    ensures r.Ok? ==> LoadStagedEntry(db, lib, txid).Ok?
    ensures r.Ok? ==>
      var owner := LoadStagedEntry(db, lib, txid).value.identityId;
      owner.text.Some? && LoadSingle(db, lib, owner.text.value).Ok? &&
      lib.build(LoadSingle(db, lib, owner.text.value).value) == Ok(r.value.0)
    ensures r.Ok? ==>
      SignHelper(lib, r.value.0, LoadStagedEntry(db, lib, txid).value.transaction, true, Some(signWith)) == Ok(r.value.1)
  {
    var entry :- LoadStagedEntry(db, lib, txid);
    var idStr :- IdStr(entry.identityId);
    var transactions :- LoadSingle(db, lib, idStr);
    var identity :- BuildIdentity(lib, transactions);
    var signed :- SignHelper(lib, identity, entry.transaction, true, Some(signWith));
    Ok((identity, signed))
  }

  const SIGNED := "Transaction signed and saved! "

  /** What `stage sign` prints: it depends on nothing but readiness and the id typed. */
  function SignMessage(ready: bool, txid: string): string {
    if ready then
      SIGNED + "All" + " required signatures are present and the transaction can be applied with:\n  "
      + ("stamp stage apply " + txid)
    else SIGNED + "This" + " transaction requires more signatures to be valid."
  }

  /** `stage sign`: signs the staged transaction with the named admin key and always writes the
      signed copy back to staging, under the identity it was built for, whether or not the
      signed transaction verifies against that identity. The result is the message shown,
      which depends on nothing but that readiness. */
  method Sign(db: Db, lib: Library, txid: string, signWith: string) returns (r: Result<string, CliError>)
    requires db.Valid()
    modifies db
    ensures db.Valid()
    ensures var plan := old(SignPlan(db, lib, txid, signWith));
      plan.Err? ==> r == Err(plan.error) && unchanged(db)
    ensures var plan := old(SignPlan(db, lib, txid, signWith));
      plan.Ok? ==>
      var (identity, signed) := plan.value;
      r == Ok(SignMessage(lib.verify(signed, Some(identity)), txid)) &&
      db.staged == old(db.staged)[signed.id := StagedEntry(identity.id, signed)] &&
      db.identities == old(db.identities) &&
      db.effects == old(db.effects) + [StagedTransaction(signed.id)]
  {
    var plan := SignPlan(db, lib, txid, signWith);
    if plan.Err? {
      return Err(plan.error);
    }
    var (identity, signed) := plan.value;
    var ready := lib.verify(signed, Some(identity));
    var _ := db.StageTransaction(identity.id, signed);
    r := Ok(SignMessage(ready, txid));
  }

  /** The two messages `stage sign` shows differ, and only the one for a ready transaction
      points at `stage apply`. */
  lemma SignMessageTellsReadiness(txid: string)
    ensures SignMessage(true, txid) != SignMessage(false, txid)
    ensures Contains(SignMessage(true, txid), "stamp stage apply " + txid)
  {
    var n := |SIGNED|;
    assert SignMessage(true, txid)[n] == "All"[0];
    assert SignMessage(false, txid)[n] == "This"[0];
    var intro := SIGNED + "All" + " required signatures are present and the transaction can be applied with:\n  ";
    ContainsConcat(intro, "stamp stage apply " + txid, "");
    assert intro + ("stamp stage apply " + txid) + "" == SignMessage(true, txid);
  }

  /** The first transaction of the list with the given id. */
  function FindById(txs: seq<Transaction>, id: ObjectId): (r: Option<Transaction>)
    ensures r.Some? <==> exists i :: 0 <= i < |txs| && txs[i].id == id
    ensures r.Some? ==> r.value in txs && r.value.id == id
    decreases |txs|
  {
    if |txs| == 0 then None
    else if txs[0].id == id then Some(txs[0])
    else
      var r := FindById(txs[1..], id);
      assert forall i :: 1 <= i < |txs| ==> txs[i] == txs[1..][i - 1];
      r
  }

  /** Everything `stage apply` decides before writing: the staged entry, the single saved
      identity it belongs to, and that identity's list with the transaction pushed onto it.
      No readiness check of its own: admission is the library's `push` alone. */
  function ApplyPlan(db: Db, lib: Library, txid: string): (r: Result<(ObjectId, Transactions), CliError>)
    reads db
    ensures LoadStagedEntry(db, lib, txid).Err? ==> r == Err(LoadStagedEntry(db, lib, txid).error)
    ensures r.Ok? ==> LoadStagedEntry(db, lib, txid).Ok? && r.value.0 == lib.parseTransactionId(txid).value
    ensures r.Ok? ==>
      var entry := LoadStagedEntry(db, lib, txid).value;
      entry.identityId.text.Some? && LoadSingle(db, lib, entry.identityId.text.value).Ok? &&
      lib.push(LoadSingle(db, lib, entry.identityId.text.value).value, entry.transaction) == Ok(r.value.1)
    ensures LoadStagedEntry(db, lib, txid).Ok? ==>
      var entry := LoadStagedEntry(db, lib, txid).value;
      entry.identityId.text.Some? && LoadSingle(db, lib, entry.identityId.text.value).Ok? &&
      lib.push(LoadSingle(db, lib, entry.identityId.text.value).value, entry.transaction).Ok? ==>
      r == Ok((lib.parseTransactionId(txid).value,
               lib.push(LoadSingle(db, lib, entry.identityId.text.value).value, entry.transaction).value))
  {
    var entry :- LoadStagedEntry(db, lib, txid);
    var idStr :- IdStr(entry.identityId);
    var transactions :- LoadSingle(db, lib, idStr);
    match lib.push(transactions, entry.transaction)
    case Err(e) => Err(LibraryError("Problem saving staged transaction to identity: " + e))
    case Ok(pushed) => Ok((lib.parseTransactionId(txid).value, pushed))
  }

  /** `stage apply`: pushes the staged transaction onto its identity and saves it, and only
      after the message for the applied transaction is ready deletes the staged copy. Any
      failure before the save leaves the database as it was; a failure after it leaves the
      identity saved and the staged copy in place. The result is the message shown. */
  method Apply(db: Db, lib: Library, txid: string) returns (r: Result<Option<string>, CliError>)
    requires db.Valid()
    modifies db
    ensures db.Valid()
    ensures var plan := old(ApplyPlan(db, lib, txid));
      plan.Err? ==> r == Err(plan.error) && unchanged(db)
    ensures var plan := old(ApplyPlan(db, lib, txid));
      plan.Ok? && plan.value.1.identityId.None? ==> r.Err? && unchanged(db)
    ensures var plan := old(ApplyPlan(db, lib, txid));
      plan.Ok? && plan.value.1.identityId.Some? ==>
      var (txId, pushed) := plan.value;
      var applied := FindById(pushed.list, txId);
      db.identities == Upsert(old(db.identities), pushed) &&
      (applied.None? ==> r == Err(SavedTransactionMissing)) &&
      (applied.Some? && PostSave(lib, pushed, applied.value, false).Err? ==>
         r == Err(PostSave(lib, pushed, applied.value, false).error)) &&
      (r.Err? ==>
         db.staged == old(db.staged) && db.effects == old(db.effects) + [SavedIdentity(pushed.identityId.value)]) &&
      (applied.Some? && PostSave(lib, pushed, applied.value, false).Ok? ==>
         r == Ok(PostSave(lib, pushed, applied.value, false).value) &&
         db.staged == old(db.staged) - {txId} &&
         db.effects == old(db.effects) + [SavedIdentity(pushed.identityId.value), UnstagedTransaction(txId)])
  {
    var plan := ApplyPlan(db, lib, txid);
    if plan.Err? {
      return Err(plan.error);
    }
    var (txId, pushed) := plan.value;
    ghost var identities0, staged0, effects0 := db.identities, db.staged, db.effects;
    var saved := db.SaveIdentity(pushed);
    if saved.Err? {
      return Err(saved.error);
    }
    assert pushed.identityId.Some? && saved.value == pushed;
    assert db.identities == Upsert(identities0, pushed) && db.staged == staged0;
    var applied := FindById(saved.value.list, txId);
    if applied.None? {
      return Err(SavedTransactionMissing);
    }
    var msg := PostSave(lib, saved.value, applied.value, false);
    if msg.Err? {
      return Err(msg.error);
    }
    db.DeleteStaged(txId);
    r := Ok(msg.value);
  }

  /** One row of `print_transactions_table`: ID, Type, Signatures, Ready. The creation time
      column is not modelled; an id that does not convert is shown as a placeholder. */
  function TransactionRow(lib: Library, identity: Option<Identity>, tx: Transaction): (row: seq<string>)
    ensures |row| == 4
    ensures tx.id.text.Some? ==> row[0] == tx.id.text.value
    ensures row[1] == TransactionToString(tx.body)
    ensures tx.signatureCount <= USIZE_MAX ==> ParseUnsigned(row[2], USIZE_MAX) == Some(tx.signatureCount)
    ensures tx.signatureCount > USIZE_MAX ==> ParseUnsigned(row[2], USIZE_MAX) == None
    ensures row[3] == "x" <==> lib.verify(tx, identity)
  {
    ParsePrintedUpTo(tx.signatureCount, USIZE_MAX);
    var id := match IdStr(tx.id) case Ok(s) => s case Err(_) => "<bad id " + tx.id.display + ">";
    [id, TransactionToString(tx.body), NatToString(tx.signatureCount), if lib.verify(tx, identity) then "x" else ""]
  }

  /** `print_transactions_table` for staged transactions: one row per transaction, in order;
      the Ready cell is `x` exactly when the transaction verifies against the identity. */
  method PrintTransactionsTable(lib: Library, identity: Option<Identity>, txs: seq<Transaction>)
    returns (rows: seq<seq<string>>)
    ensures |rows| == |txs|
    ensures forall i :: 0 <= i < |txs| ==> |rows[i]| == 4 && (rows[i][3] == "x" <==> lib.verify(txs[i], identity))
    ensures forall i :: 0 <= i < |txs| ==>
      rows[i][1] == TransactionToString(txs[i].body) &&
      ParseUnsigned(rows[i][2], USIZE_MAX) == (if txs[i].signatureCount <= USIZE_MAX then Some(txs[i].signatureCount) else None)
  {
    rows := [];
    var i := 0;
    while i < |txs|
      invariant 0 <= i <= |txs| && |rows| == i
      invariant forall k :: 0 <= k < i ==> rows[k] == TransactionRow(lib, identity, txs[k])
    {
      rows := rows + [TransactionRow(lib, identity, txs[i])];
      i := i + 1;
    }
  }
}
