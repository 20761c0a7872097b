/** The `claim` commands: making a claim (an id, a name, an email, a PGP id, an address, a
    relation, a photo), public or sealed under the master key; deleting a claim found by id
    prefix; and the claims table, which hides sealed values unless the master key is given.

    These commands were written against the identity library's older interface, where the
    identity loaded by id prefix carries its claims directly; here the loaded transaction list
    is built with `build_identity` to reach them. */
module ClaimCommands {
  import opened Common
  import opened Types
  import opened Collab
  import opened Store
  import opened Util
  import opened Identities
  import opened StampCommands

  // ---------------------------------------------------------------- public or private

  /** `maybe_private`: sealed under the master key when the claim is private, in the clear
      otherwise. The sealing itself is not modelled: a sealed value holds the value, which
      only the master key opens, and sealing cannot fail. */
  function MaybePrivateOf<T>(private: bool, value: T): (m: MaybePrivate<T>)
    ensures m.Private? <==> private
    ensures Open(m) == value
  {
    if private then Private(value) else Public(value)
  }

  /** The value a holder of the master key reads. */
  function Open<T>(m: MaybePrivate<T>): T {
    match m
    case Public(v) => v
    case Private(v) => v
  }

  // ---------------------------------------------------------------- claim new

  /** The claim commands that read one typed value. */
  datatype ClaimCommand = NewId | NewName | NewEmail | NewPgp | NewAddress | NewRelation(relType: string)

  /** `new_relation`'s type: `org` is the only relationship type. */
  function ParseRelationType(ty: string): (r: Result<RelationshipType, CliError>)
    ensures r.Ok? <==> ty == "org"
    ensures r.Ok? ==> r.value == OrganizationMember
    ensures r.Err? ==> r.error == InvalidRelationshipType(ty)
  {
    if ty == "org" then Ok(OrganizationMember) else Err(InvalidRelationshipType(ty))
  }

  /** The text a name, email, PGP or address claim holds. */
  function TextOf(spec: ClaimSpec): Option<MaybePrivate<string>> {
    match spec
    case Name(v) => Some(v)
    case Email(v) => Some(v)
    case Pgp(v) => Some(v)
    case HomeAddress(v) => Some(v)
    case _ => None
  }

  /** The claim a command makes from the typed value: an id claim or a relation reads the value
      as an identity id first (a relation then reads its type); the others take the value as
      typed, public or sealed. */
  function ClaimSpecFor(lib: Library, cmd: ClaimCommand, value: string, private: bool): (r: Result<ClaimSpec, CliError>)
    ensures (cmd.NewId? || cmd.NewRelation?) && lib.parseIdentityId(value).None? ==> r == Err(InvalidId(value))
    ensures cmd.NewId? && lib.parseIdentityId(value).Some? ==> r == Ok(IdentityClaim(lib.parseIdentityId(value).value))
    ensures cmd.NewRelation? && lib.parseIdentityId(value).Some? ==>
      (r.Ok? <==> cmd.relType == "org") &&
      (r.Ok? ==> r.value == Relation(MaybePrivateOf(private, Relationship(OrganizationMember, lib.parseIdentityId(value).value))))
    ensures !cmd.NewId? && !cmd.NewRelation? ==>
      r.Ok? && TextOf(r.value).Some? && Open(TextOf(r.value).value) == value &&
      (TextOf(r.value).value.Private? <==> private)
  {
    match cmd
    case NewId =>
      (match lib.parseIdentityId(value)
       case None => Err(InvalidId(value))
       case Some(id) => Ok(IdentityClaim(id)))
    case NewName => Ok(Name(MaybePrivateOf(private, value)))
    case NewEmail => Ok(Email(MaybePrivateOf(private, value)))
    case NewPgp => Ok(Pgp(MaybePrivateOf(private, value)))
    case NewAddress => Ok(HomeAddress(MaybePrivateOf(private, value)))
    case NewRelation(ty) =>
      (match lib.parseIdentityId(value)
       case None => Err(InvalidId(value))
       case Some(id) =>
         var relType :- ParseRelationType(ty);
         Ok(Relation(MaybePrivateOf(private, Relationship(relType, id)))))
  }

  /** `claim_pre` then `claim_post` up to the save: the single identity matching `id`, the
      passphrase check, the claim made from the typed value, and the identity with the claim
      added. */
  function NewClaimPlan(db: Db, lib: Library, id: string, cmd: ClaimCommand, value: string, private: bool,
                        passphraseOk: bool)
    : (r: Result<Transactions, CliError>)
    reads db
    ensures r.Ok? ==>
      LoadSingle(db, lib, id).Ok? && passphraseOk && ClaimSpecFor(lib, cmd, value, private).Ok? &&
      lib.makeClaim(LoadSingle(db, lib, id).value, ClaimSpecFor(lib, cmd, value, private).value) == Ok(r.value)
    ensures LoadSingle(db, lib, id).Ok? && !passphraseOk ==> r == Err(IncorrectPassphrase)
  {
    var transactions :- LoadSingle(db, lib, id);
    if !passphraseOk then Err(IncorrectPassphrase)
    else
      var spec :- ClaimSpecFor(lib, cmd, value, private);
      Wrap(lib.makeClaim(transactions, spec), "There was a problem adding the claim to your identity: ")
  }

  /** The largest photo a claim may hold, in bytes. */
  const PHOTO_CUTOFF: nat := 1024 * 8

  /** `new_photo` up to the save: the photo is read and its size checked before the passphrase
      is asked for. */
  function NewPhotoPlan(db: Db, lib: Library, id: string, photo: Result<seq<bv8>, CliError>, private: bool,
                        passphraseOk: bool)
    : (r: Result<Transactions, CliError>)
    reads db
    ensures r.Ok? ==>
      LoadSingle(db, lib, id).Ok? && photo.Ok? && |photo.value| <= PHOTO_CUTOFF && passphraseOk &&
      lib.makeClaim(LoadSingle(db, lib, id).value, Photo(MaybePrivateOf(private, photo.value))) == Ok(r.value)
    ensures LoadSingle(db, lib, id).Ok? && photo.Ok? && |photo.value| > PHOTO_CUTOFF ==>
      r == Err(PhotoTooLarge(|photo.value|))
    ensures LoadSingle(db, lib, id).Ok? && photo.Ok? && |photo.value| <= PHOTO_CUTOFF && !passphraseOk ==>
      r == Err(IncorrectPassphrase)
  {
    var transactions :- LoadSingle(db, lib, id);
    var bytes :- photo;
    if |bytes| > PHOTO_CUTOFF then Err(PhotoTooLarge(|bytes|))
    else if !passphraseOk then Err(IncorrectPassphrase)
    else Wrap(lib.makeClaim(transactions, Photo(MaybePrivateOf(private, bytes))),
              "There was a problem adding the claim to your identity: ")
  }

  /** A photo of exactly the cutoff size gets past the size check; one byte more is refused,
      whatever the passphrase. */
  lemma PhotoCutoffIsInclusive(db: Db, lib: Library, id: string, bytes: seq<bv8>, private: bool, passphraseOk: bool)
    requires LoadSingle(db, lib, id).Ok?
    ensures |bytes| == PHOTO_CUTOFF ==> NewPhotoPlan(db, lib, id, Ok(bytes), private, passphraseOk) != Err(PhotoTooLarge(|bytes|))
    ensures |bytes| == PHOTO_CUTOFF + 1 ==> NewPhotoPlan(db, lib, id, Ok(bytes), private, passphraseOk) == Err(PhotoTooLarge(PHOTO_CUTOFF + 1))
  {
    if |bytes| == PHOTO_CUTOFF {
      var r := NewPhotoPlan(db, lib, id, Ok(bytes), private, passphraseOk);
      assert r.Err? ==> r.error != PhotoTooLarge(|bytes|) by {
        if r.Err? && !passphraseOk {
          assert r.error == IncorrectPassphrase;
        }
      }
    }
  }

  /** `db::save_identity` of the changed identity once the plan holds; a failed plan changes
      nothing. */
  method SaveChanged(db: Db, plan: Result<Transactions, CliError>) returns (r: Result<Transactions, CliError>)
    requires db.Valid()
    modifies db
    ensures db.Valid()
    ensures plan.Err? ==> r == Err(plan.error) && unchanged(db)
    ensures plan.Ok? && plan.value.identityId.None? ==> r.Err? && unchanged(db)
    ensures plan.Ok? && plan.value.identityId.Some? ==>
      r == Ok(plan.value) &&
      db.identities == Upsert(old(db.identities), plan.value) && db.staged == old(db.staged) &&
      db.effects == old(db.effects) + [SavedIdentity(plan.value.identityId.value)]
  {
    if plan.Err? {
      return Err(plan.error);
    }
    r := db.SaveIdentity(plan.value);
  }

  // ---------------------------------------------------------------- claim delete

  /** The claim `delete` removes: the first claim whose id string starts with the prefix. Unlike
      the search of `stamp new`, a claim whose id does not convert, met before a match, is an
      error. */
  function DeleteSearch(claims: seq<Claim>, prefix: string): (r: Result<Option<Claim>, CliError>)
    ensures r.Ok? && r.value.Some? ==>
      r.value.value in claims && r.value.value.id.text.Some? && StartsWith(r.value.value.id.text.value, prefix)
    ensures r.Err? ==> r.error == IdNotConvertible && exists c :: c in claims && c.id.text.None?
    ensures r == Ok(None) ==> forall c :: c in claims ==> c.id.text.Some? && !StartsWith(c.id.text.value, prefix)
    decreases |claims|
  {
    if |claims| == 0 then Ok(None)
    else
      assert forall c :: c in claims[1..] ==> c in claims;
      assert forall c :: c in claims ==> c == claims[0] || c in claims[1..];
      match claims[0].id.text
      case None => Err(IdNotConvertible)
      case Some(idStr) => if StartsWith(idStr, prefix) then Ok(Some(claims[0])) else DeleteSearch(claims[1..], prefix)
  }

  /** Where every claim id converts, `delete` and `stamp new` pick the same claim for a
      prefix. */
  lemma {:induction false} DeleteAndStampAgree(claims: seq<Claim>, prefix: string)
    requires forall c :: c in claims ==> c.id.text.Some?
    ensures DeleteSearch(claims, prefix) == Ok(FindClaimByPrefix(claims, prefix))
    decreases |claims|
  {
    if |claims| > 0 {
      assert forall c :: c in claims[1..] ==> c in claims;
      DeleteAndStampAgree(claims[1..], prefix);
    }
  }

  /** `delete`'s loop: walks the claims in order, stops at the first match, and fails on a
      claim whose id does not convert. */
  method FindClaimToDelete(claims: seq<Claim>, prefix: string) returns (r: Result<Option<Claim>, CliError>)
    ensures r == DeleteSearch(claims, prefix)
  {
    var found: Option<Claim> := None;
    var i := 0;
    while i < |claims|
      invariant 0 <= i <= |claims|
      invariant found.None?
      invariant DeleteSearch(claims, prefix) == DeleteSearch(claims[i..], prefix)
    {
      assert claims[i..][1..] == claims[i + 1..];
      var idStr :- IdStr(claims[i].id);
      if StartsWith(idStr, prefix) {
        found := Some(claims[i]);
        break;
      }
      i := i + 1;
    }
    return Ok(found);
  }

  /** What `delete` decides before saving: the single identity matching `id`, the claim to
      remove, the confirmation (default no; `None` when declined), and the identity without the
      claim. No passphrase check of its own: the key typed goes to the library. */
  function DeletePlan(db: Db, lib: Library, id: string, prefix: string, answer: string)
    : (r: Result<Option<Transactions>, CliError>)
    reads db
    ensures r.Ok? ==> LoadSingle(db, lib, id).Ok? && lib.build(LoadSingle(db, lib, id).value).Ok?
    ensures r.Ok? ==>
      var claims := lib.build(LoadSingle(db, lib, id).value).value.claims;
      DeleteSearch(claims, prefix).Ok? && DeleteSearch(claims, prefix).value.Some? &&
      (r.value.None? <==> !YesnoPrompt(answer, "n")) &&
      (r.value.Some? ==>
         lib.removeClaim(LoadSingle(db, lib, id).value, DeleteSearch(claims, prefix).value.value.id) == Ok(r.value.value))
    ensures (LoadSingle(db, lib, id).Ok? && lib.build(LoadSingle(db, lib, id).value).Ok? &&
             DeleteSearch(lib.build(LoadSingle(db, lib, id).value).value.claims, prefix) == Ok(None)) ==>
      r == Err(ClaimNotFound(prefix))
  {
    var transactions :- LoadSingle(db, lib, id);
    var identity :- BuildIdentity(lib, transactions);
    var found :- DeleteSearch(identity.claims, prefix);
    match found
    case None => Err(ClaimNotFound(prefix))
    case Some(claim) =>
      if !YesnoPrompt(answer, "n") then Ok(None)
      else
        var removed :- Wrap(lib.removeClaim(transactions, claim.id), "There was a problem removing the claim: ");
        Ok(Some(removed))
  }

  /** `claim delete`: a failed plan or a declined confirmation leaves the identity as it was;
      otherwise the identity without the claim replaces the saved one. The result says whether
      anything was removed. */
  method Delete(db: Db, lib: Library, id: string, prefix: string, answer: string) returns (r: Result<bool, CliError>)
    requires db.Valid()
    modifies db
    ensures db.Valid()
    ensures var plan := old(DeletePlan(db, lib, id, prefix, answer));
      plan.Err? ==> r == Err(plan.error) && unchanged(db)
    ensures var plan := old(DeletePlan(db, lib, id, prefix, answer));
      plan == Ok(None) ==> r == Ok(false) && unchanged(db)
    ensures var plan := old(DeletePlan(db, lib, id, prefix, answer));
      plan.Ok? && plan.value.Some? && plan.value.value.identityId.Some? ==>
      r == Ok(true) &&
      db.identities == Upsert(old(db.identities), plan.value.value) && db.staged == old(db.staged) &&
      db.effects == old(db.effects) + [SavedIdentity(plan.value.value.identityId.value)]
    ensures var plan := old(DeletePlan(db, lib, id, prefix, answer));
      plan.Ok? && plan.value.Some? && plan.value.value.identityId.None? ==> r.Err? && unchanged(db)
  {
    var loaded := LoadSingle(db, lib, id);
    if loaded.Err? {
      return Err(loaded.error);
    }
    var transactions := loaded.value;
    var identity := BuildIdentity(lib, transactions);
    if identity.Err? {
      return Err(identity.error);
    }
    var found := FindClaimToDelete(identity.value.claims, prefix);
    if found.Err? {
      return Err(found.error);
    }
    if found.value.None? {
      return Err(ClaimNotFound(prefix));
    }
    if !YesnoPrompt(answer, "n") {
      return Ok(false);
    }
    var removed := Wrap(lib.removeClaim(transactions, found.value.value.id), "There was a problem removing the claim: ");
    if removed.Err? {
      return Err(removed.error);
    }
    var saved := db.SaveIdentity(removed.value);
    if saved.Err? {
      return Err(saved.error);
    }
    r := Ok(true);
  }

  // ---------------------------------------------------------------- the claims table

  /** A sealed string without the master key. */
  const PRIVATE_CELL := "<private>"
  /** A sealed relation, with or without the master key. */
  const PRIVATE_RELATION_CELL := "******"

  /** A string value: in the clear with the master key or when public, masked otherwise. */
  function StringCell(m: MaybePrivate<string>, withKey: bool): (cell: string)
    ensures !withKey && m.Private? ==> cell == PRIVATE_CELL
    ensures (withKey || m.Public?) ==> cell == Open(m)
  {
    if withKey then Open(m)
    else
      match m
      case Public(v) => v
      case Private(_) => PRIVATE_CELL
  }

  /** How a photo's size is shown. */
  function BytesCell(n: nat): string {
    "<" + NatToString(n) + " bytes>"
  }

  /** A photo: its size with the master key or when public, masked otherwise. */
  function PhotoCell(m: MaybePrivate<seq<bv8>>, withKey: bool): (cell: string)
    ensures !withKey && m.Private? ==> cell == PRIVATE_CELL
    ensures (withKey || m.Public?) ==> cell == BytesCell(|Open(m)|)
  {
    if withKey then BytesCell(|Open(m)|)
    else
      match m
      case Public(v) => BytesCell(|v|)
      case Private(_) => PRIVATE_CELL
  }

  /** An id in the table: full when verbose, short otherwise. */
  function IdCell(lib: Library, id: ObjectId, verbose: bool): string {
    var (full, short) := IdStrSplit(lib, id);
    if verbose then full else short
  }

  /** A relation: its subject and type when public; masked when sealed, even with the master
      key. */
  function RelationCell(lib: Library, m: MaybePrivate<Relationship>, verbose: bool): (cell: string)
    ensures m.Private? <==> cell == PRIVATE_RELATION_CELL
  {
    match m
    case Public(rel) =>
      var tyStr := if rel.ty == OrganizationMember then "org" else "<unknown>";
      var cell := IdCell(lib, rel.subject, verbose) + " (" + tyStr + ")";
      assert cell[|cell| - 1] == ')';
      cell
    case Private(_) => PRIVATE_RELATION_CELL
  }

  /** The type and value columns of a claim. */
  function TypeAndValue(lib: Library, spec: ClaimSpec, withKey: bool, verbose: bool): (r: (string, string))
    ensures r.0 == "<unknown>" <==> spec.Domain? || spec.Url?
    ensures TextOf(spec).Some? ==> r.1 == StringCell(TextOf(spec).value, withKey)
  {
    match spec
    case IdentityClaim(id) => ("identity", IdCell(lib, id, verbose))
    case Name(name) => ("name", StringCell(name, withKey))
    case Email(email) => ("email", StringCell(email, withKey))
    case Photo(photo) => ("photo", PhotoCell(photo, withKey))
    case Pgp(pgp) => ("pgp", StringCell(pgp, withKey))
    case HomeAddress(address) => ("address", StringCell(address, withKey))
    case Relation(relation) => ("relation", RelationCell(lib, relation, verbose))
    case _ => ("<unknown>", "<unknown>")
  }

  /** One row of the claims table: id, type, value, number of stamps. The creation date is not
      modelled. */
  function ClaimRow(lib: Library, claim: Claim, withKey: bool, verbose: bool): (row: seq<string>)
    ensures |row| == 4
    ensures row[1] == "<unknown>" <==> claim.spec.Domain? || claim.spec.Url?
    ensures claim.stampCount <= USIZE_MAX ==> ParseUnsigned(row[3], USIZE_MAX) == Some(claim.stampCount)
  {
    ParsePrintedUpTo(claim.stampCount, USIZE_MAX);
    var (ty, val) := TypeAndValue(lib, claim.spec, withKey, verbose);
    [IdCell(lib, claim.id, verbose), ty, val, NatToString(claim.stampCount)]
  }

  /** `print_claims_table`: one row per claim, in order. */
  method PrintClaimsTable(lib: Library, claims: seq<Claim>, withKey: bool, verbose: bool) returns (rows: seq<seq<string>>)
    ensures |rows| == |claims|
    ensures forall i :: 0 <= i < |claims| ==> rows[i] == ClaimRow(lib, claims[i], withKey, verbose)
  {
    rows := [];
    for i := 0 to |claims|
      invariant |rows| == i
      invariant forall j :: 0 <= j < i ==> rows[j] == ClaimRow(lib, claims[j], withKey, verbose)
    {
      rows := rows + [ClaimRow(lib, claims[i], withKey, verbose)];
    }
  }

  /** The same kind of claim, sealed in both, whatever the sealed values. */
  predicate BothSealed(a: ClaimSpec, b: ClaimSpec) {
    match (a, b)
    case (Name(x), Name(y)) => x.Private? && y.Private?
    case (Email(x), Email(y)) => x.Private? && y.Private?
    case (Photo(x), Photo(y)) => x.Private? && y.Private?
    case (Pgp(x), Pgp(y)) => x.Private? && y.Private?
    case (HomeAddress(x), HomeAddress(y)) => x.Private? && y.Private?
    case (Relation(x), Relation(y)) => x.Private? && y.Private?
    case _ => false
  }

  /** Without the master key, a sealed claim's row does not depend on what is sealed: two
      claims that differ only in their sealed values look the same, and the value shown is a
      mask. */
  lemma SealedValuesHidden(lib: Library, a: Claim, b: Claim, verbose: bool)
    requires a.id == b.id && a.stampCount == b.stampCount && BothSealed(a.spec, b.spec)
    ensures ClaimRow(lib, a, false, verbose) == ClaimRow(lib, b, false, verbose)
    ensures ClaimRow(lib, a, false, verbose)[2] in {PRIVATE_CELL, PRIVATE_RELATION_CELL}
  {
  }

  /** A public photo shows its length, and the number shown reads back as that length. */
  lemma PublicPhotoShowsLength(lib: Library, bytes: seq<bv8>, withKey: bool)
    requires |bytes| <= USIZE_MAX
    ensures PhotoCell(Public(bytes), withKey) == "<" + NatToString(|bytes|) + " bytes>"
    ensures ParseUnsigned(NatToString(|bytes|), USIZE_MAX) == Some(|bytes|)
  {
    ParsePrinted(|bytes|, USIZE_MAX);
  }

  /** `claim list`: the single identity matching `id`, the passphrase check when private
      values are asked for, then the table of its claims. */
  method List(db: Db, lib: Library, id: string, private: bool, passphraseOk: bool, verbose: bool)
    returns (r: Result<seq<seq<string>>, CliError>)
    ensures LoadSingle(db, lib, id).Err? ==> r == Err(LoadSingle(db, lib, id).error)
    ensures LoadSingle(db, lib, id).Ok? && private && !passphraseOk ==> r == Err(IncorrectPassphrase)
    ensures r.Ok? ==>
      LoadSingle(db, lib, id).Ok? && lib.build(LoadSingle(db, lib, id).value).Ok? &&
      var claims := lib.build(LoadSingle(db, lib, id).value).value.claims;
      |r.value| == |claims| &&
      forall i :: 0 <= i < |claims| ==> r.value[i] == ClaimRow(lib, claims[i], private, verbose)
    ensures LoadSingle(db, lib, id).Ok? && (!private || passphraseOk) ==>
      (r.Ok? <==> lib.build(LoadSingle(db, lib, id).value).Ok?) &&
      (r.Err? ==> r == Err(LibraryError("Problem building identity: " + lib.build(LoadSingle(db, lib, id).value).error)))
  {
    var loaded := LoadSingle(db, lib, id);
    if loaded.Err? {
      return Err(loaded.error);
    }
    if private && !passphraseOk {
      return Err(IncorrectPassphrase);
    }
    var identity := BuildIdentity(lib, loaded.value);
    if identity.Err? {
      return Err(identity.error);
    }
    var rows := PrintClaimsTable(lib, identity.value.claims, private, verbose);
    r := Ok(rows);
  }
}
