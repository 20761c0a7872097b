/** The local database the front end reads and writes: saved identities (each an identity's
    transaction list) and staged transactions (signed transactions waiting for more signatures,
    each filed under the identity it belongs to). The database itself lives below the front
    end; this class keeps exactly the state the front end can observe, plus a ghost history of
    the writes in the order they happen, so that the order of effects can be stated. */
module Store {
  import opened Common
  import opened Types

  /** A staged transaction and the identity it was staged for. */
  datatype StagedEntry = StagedEntry(identityId: ObjectId, transaction: Transaction)

  /** One write to the database. */
  datatype Effect =
    | SavedIdentity(identityId: ObjectId)
    | DeletedIdentity(idText: string)
    | StagedTransaction(txId: ObjectId)
    | UnstagedTransaction(txId: ObjectId)

  /** The identity's id converts to a string that starts with `prefix`. */
  predicate HasIdPrefix(t: Transactions, prefix: string) {
    t.identityId.Some? && t.identityId.value.text.Some? && StartsWith(t.identityId.value.text.value, prefix)
  }

  /** The identity's id converts to exactly `idText`. */
  predicate HasIdText(t: Transactions, idText: string) {
    t.identityId.Some? && t.identityId.value.text == Some(idText)
  }

  /** Saving drops any stored list of the same identity and files the new one. */
  function Upsert(stored: seq<Transactions>, t: Transactions): (r: seq<Transactions>)
    ensures t in r
    ensures forall u :: u in r && u != t ==> u in stored && u.identityId != t.identityId
    ensures forall u :: u in stored && u.identityId != t.identityId ==> u in r
  {
    Filter(stored, (u: Transactions) => u.identityId != t.identityId) + [t]
  }

  /** Every saved list has an identity id, and no two saved lists share one. */
  ghost predicate WellFiled(stored: seq<Transactions>) {
    (forall t :: t in stored ==> t.identityId.Some?) &&
    (forall t, u :: t in stored && u in stored && t.identityId == u.identityId ==> t == u)
  }

  class Db {
    /** Saved identities, in storage order. */
    var identities: seq<Transactions>
    /** Staged transactions by transaction id. */
    var staged: map<ObjectId, StagedEntry>
    /** Every write so far, oldest first. */
    ghost var effects: seq<Effect>

    /** Saved identities have an id, at most one list is stored per identity, and a staged
        transaction is filed under its own id. */
    ghost predicate Valid()
      reads this
    {
      WellFiled(identities) &&
      (forall txId :: txId in staged ==> staged[txId].transaction.id == txId)
    }

    constructor ()
      ensures Valid()
      ensures identities == [] && staged == map[] && effects == []
    {
      identities := [];
      staged := map[];
      effects := [];
    }

    /** `load_identities_by_prefix`: every saved identity whose id string starts with the prefix. */
    function IdentitiesByPrefix(prefix: string): (r: seq<Transactions>)
      reads this
      ensures forall t :: t in r <==> t in identities && HasIdPrefix(t, prefix)
    {
      Filter(identities, (t: Transactions) => HasIdPrefix(t, prefix))
    }

    /** `list_local_identities(Some(search))`, under the database's match rule `matches`. */
    function Search(matches: (string, Transactions) -> bool, search: string): (r: seq<Transactions>)
      reads this
      ensures forall t :: t in r <==> t in identities && matches(search, t)
    {
      Filter(identities, (t: Transactions) => matches(search, t))
    }

    /** `load_identity`: the saved list of the identity with this id. */
    function LoadIdentity(id: ObjectId): (r: Option<Transactions>)
      reads this
      ensures r.Some? ==> r.value in identities && r.value.identityId == Some(id)
      ensures r.None? ==> forall t :: t in identities ==> t.identityId != Some(id)
    {
      var found := Filter(identities, (t: Transactions) => t.identityId == Some(id));
      if |found| == 0 then None else assert found[0] in found; Some(found[0])
    }

    /** `load_staged_transaction` */
    function LoadStaged(txId: ObjectId): (r: Option<StagedEntry>)
      reads this
      ensures r.Some? <==> txId in staged
      ensures r.Some? ==> r.value == staged[txId]
    {
      if txId in staged then Some(staged[txId]) else None
    }

    /** `save_identity`. A list without an identity id cannot be filed. */
    method SaveIdentity(t: Transactions) returns (r: Result<Transactions, CliError>)
      requires Valid()
      modifies this
      ensures Valid()
      ensures t.identityId.None? ==> r == Err(LibraryError("Problem saving identity")) && unchanged(this)
      ensures t.identityId.Some? ==> r == Ok(t)
      ensures t.identityId.Some? ==> identities == Upsert(old(identities), t) && staged == old(staged)
      ensures t.identityId.Some? ==> effects == old(effects) + [SavedIdentity(t.identityId.value)]
      ensures t.identityId.Some? ==> LoadIdentity(t.identityId.value) == Some(t)
    {
      if t.identityId.None? {
        return Err(LibraryError("Problem saving identity"));
      }
      UpsertWellFiled(identities, t);
      identities := Upsert(identities, t);
      assert t in identities;
      effects := effects + [SavedIdentity(t.identityId.value)];
      r := Ok(t);
    }

    /** `delete_identity`: removes the identity whose id string is `idText`. */
    method DeleteIdentity(idText: string)
      requires Valid()
      modifies this
      ensures Valid()
      ensures identities == Filter(old(identities), (t: Transactions) => !HasIdText(t, idText))
      ensures forall t :: t in identities ==> !HasIdText(t, idText)
      ensures staged == old(staged)
      ensures effects == old(effects) + [DeletedIdentity(idText)]
    {
      var kept := Filter(identities, (t: Transactions) => !HasIdText(t, idText));
      identities := kept;
      effects := effects + [DeletedIdentity(idText)];
    }

    /** `stage_transaction`: files the transaction under its id, replacing any earlier copy. */
    method StageTransaction(identityId: ObjectId, tx: Transaction) returns (staged_: Transaction)
      requires Valid()
      modifies this
      ensures Valid()
      ensures staged_ == tx
      ensures staged == old(staged)[tx.id := StagedEntry(identityId, tx)]
      ensures identities == old(identities)
      ensures effects == old(effects) + [StagedTransaction(tx.id)]
    {
      staged := staged[tx.id := StagedEntry(identityId, tx)];
      effects := effects + [StagedTransaction(tx.id)];
      staged_ := tx;
    }

    /** `delete_staged_transaction` */
    method DeleteStaged(txId: ObjectId)
      requires Valid()
      modifies this
      ensures Valid()
      ensures staged == old(staged) - {txId}
      ensures identities == old(identities)
      ensures effects == old(effects) + [UnstagedTransaction(txId)]
    {
      staged := staged - {txId};
      effects := effects + [UnstagedTransaction(txId)];
    }
  }

  lemma UpsertWellFiled(stored: seq<Transactions>, t: Transactions)
    requires WellFiled(stored) && t.identityId.Some?
    ensures WellFiled(Upsert(stored, t))
  {
  }
}
