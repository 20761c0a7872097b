/** The `stamp` commands: stamping another identity's claim (found by a claim-id prefix, at a
    confidence typed as a word, with an optional expiry) and accepting a stamp made on one of
    our own claims. Prompts are their answers; the stamp file is the outcome of `load_file`. */
module StampCommands {
  import opened Common
  import opened Types
  import opened Collab
  import opened Store
  import opened Util
  import opened Identities

  // ---------------------------------------------------------------- finding the claim

  /** The claim an id prefix names: the first claim, in the identity's order, whose id string
      starts with the prefix. A claim whose id does not convert to a string is passed over. */
  function FindClaimByPrefix(claims: seq<Claim>, prefix: string): (r: Option<Claim>)
    ensures r.Some? ==> r.value in claims && r.value.id.text.Some? && StartsWith(r.value.id.text.value, prefix)
    ensures r.None? <==> forall c :: c in claims ==> c.id.text.None? || !StartsWith(c.id.text.value, prefix)
    decreases |claims|
  {
    if |claims| == 0 then None
    else
      var rest := FindClaimByPrefix(claims[1..], prefix);
      assert forall c :: c in claims[1..] ==> c in claims;
      assert forall c :: c in claims ==> c == claims[0] || c in claims[1..];
      match claims[0].id.text
      case Some(idStr) => if StartsWith(idStr, prefix) then Some(claims[0]) else rest
      case None => rest
  }

  /** No claim before the one found answers to the prefix: it is the first match. */
  lemma {:induction false} FoundClaimIsFirst(claims: seq<Claim>, prefix: string, i: nat)
    requires i < |claims| && claims[i].id.text.Some? && StartsWith(claims[i].id.text.value, prefix)
    requires forall j :: 0 <= j < i ==> claims[j].id.text.None? || !StartsWith(claims[j].id.text.value, prefix)
    ensures FindClaimByPrefix(claims, prefix) == Some(claims[i])
    decreases i
  {
    if i > 0 {
      assert forall j :: 0 <= j < i - 1 ==> claims[1..][j] == claims[j + 1];
      FoundClaimIsFirst(claims[1..], prefix, i - 1);
    }
  }

  // ---------------------------------------------------------------- confidence and expiry

  /** The word `stamp new` shows for each confidence level. */
  function ConfidenceWord(c: Confidence): string {
    match c
    case NoConfidence => "none"
    case Low => "low"
    case Medium => "medium"
    case High => "high"
    case Extreme => "extreme"
  }

  /** The confidence typed at the prompt: exactly one of the five words, or an error. */
  function ParseConfidence(word: string): (r: Result<Confidence, CliError>)
    ensures r.Ok? <==> word in {"none", "low", "medium", "high", "extreme"}
    ensures r.Err? ==> r.error == InvalidConfidence(word)
  {
    match word
    case "none" => Ok(NoConfidence)
    case "low" => Ok(Low)
    case "medium" => Ok(Medium)
    case "high" => Ok(High)
    case "extreme" => Ok(Extreme)
    case _ => Err(InvalidConfidence(word))
  }

  /** Each level's word reads back as that level, and no two levels share a word. */
  lemma ConfidenceWordsReadBack(c: Confidence, d: Confidence)
    ensures ParseConfidence(ConfidenceWord(c)) == Ok(c)
    ensures ConfidenceWord(c) == ConfidenceWord(d) ==> c == d
  {
  }

  /** The expiry: none unless the yes/no question (default no) is answered yes, and then the
      typed time, which must parse. */
  function Expiry(lib: Library, wantsExpiry: string, typedTime: string): (r: Result<Option<Timestamp>, CliError>)
    ensures !YesnoPrompt(wantsExpiry, "n") ==> r == Ok(None)
    ensures YesnoPrompt(wantsExpiry, "n") ==>
      (r.Ok? <==> lib.parseTimestamp(typedTime).Some?) &&
      (r.Ok? ==> r.value == lib.parseTimestamp(typedTime)) &&
      (r.Err? ==> r.error == InvalidTime(typedTime))
  {
    if YesnoPrompt(wantsExpiry, "n") then
      match lib.parseTimestamp(typedTime)
      case Some(ts) => Ok(Some(ts))
      case None => Err(InvalidTime(typedTime))
    else Ok(None)
  }

  /** Pressing return at the expiry question means no expiry, whatever time is typed. */
  lemma NoExpiryByDefault(lib: Library, typedTime: string)
    ensures Expiry(lib, "", typedTime) == Ok(None)
  {
    YesnoDefaults("", "", "");
  }

  // ---------------------------------------------------------------- stamp new

  /** The answers `stamp new` reads: the confidence word, whether to expire, the expiry time,
      and whether the passphrase typed opens the master key. */
  datatype StampAnswers = StampAnswers(confidence: string, wantsExpiry: string, expiry: string, passphraseOk: bool)

  /** The claim and its identity once found: the identity holding a claim that starts with the
      prefix, built, and the first such claim in it. The claim holder's id is converted to a
      string before the claim is known to be missing, because the error message needs it. */
  function ClaimToStamp(db: Db, lib: Library, claimPrefix: string): (r: Result<(Identity, Claim), CliError>)
    reads db
    ensures lib.claimOwner(db.identities, claimPrefix).None? ==> r == Err(ClaimIdentityNotFound(claimPrefix))
    ensures r.Ok? ==>
      lib.claimOwner(db.identities, claimPrefix).Some? &&
      lib.build(lib.claimOwner(db.identities, claimPrefix).value) == Ok(r.value.0) &&
      r.value.0.id.text.Some? &&
      FindClaimByPrefix(r.value.0.claims, claimPrefix) == Some(r.value.1)
    ensures (lib.claimOwner(db.identities, claimPrefix).Some? &&
             lib.build(lib.claimOwner(db.identities, claimPrefix).value).Ok? &&
             lib.build(lib.claimOwner(db.identities, claimPrefix).value).value.id.text.Some? &&
             FindClaimByPrefix(lib.build(lib.claimOwner(db.identities, claimPrefix).value).value.claims, claimPrefix).None?) ==>
      r == Err(ClaimNotFound(claimPrefix))
  {
    match lib.claimOwner(db.identities, claimPrefix)
    case None => Err(ClaimIdentityNotFound(claimPrefix))
    case Some(theirs) =>
      var their := BuildIdentity(lib, theirs);
      if their.Err? then Err(their.error)
      else
        var found := FindClaimByPrefix(their.value.claims, claimPrefix);
        var _ :- IdStr(their.value.id);
        match found
        case None => Err(ClaimNotFound(claimPrefix))
        case Some(claim) => Ok((their.value, claim))
  }

  /** `stamp new`: the serialized stamp, made by the single identity matching `ourId`, on the
      claim found by prefix, at the typed confidence, with the chosen expiry. The passphrase is
      checked before the stamp is made. */
  function New(db: Db, lib: Library, ourId: string, claimPrefix: string, answers: StampAnswers)
    : (r: Result<string, CliError>)
    reads db
    ensures r.Ok? ==>
      LoadSingle(db, lib, ourId).Ok? && ClaimToStamp(db, lib, claimPrefix).Ok? &&
      ParseConfidence(answers.confidence).Ok? && Expiry(lib, answers.wantsExpiry, answers.expiry).Ok? &&
      answers.passphraseOk
    ensures r.Ok? ==>
      var (their, claim) := ClaimToStamp(db, lib, claimPrefix).value;
      var made := lib.stamp(LoadSingle(db, lib, ourId).value, ParseConfidence(answers.confidence).value, their.id, claim,
                            Expiry(lib, answers.wantsExpiry, answers.expiry).value);
      made.Ok? && lib.serializeStamp(made.value) == Ok(r.value)
    ensures (LoadSingle(db, lib, ourId).Ok? && ClaimToStamp(db, lib, claimPrefix).Ok? &&
             ParseConfidence(answers.confidence).Ok? && Expiry(lib, answers.wantsExpiry, answers.expiry).Ok? &&
             !answers.passphraseOk) ==>
      r == Err(IncorrectPassphrase)
    ensures LoadSingle(db, lib, ourId).Ok? && ClaimToStamp(db, lib, claimPrefix).Ok? && ParseConfidence(answers.confidence).Err? ==>
      r == Err(InvalidConfidence(answers.confidence))
  {
    var ours :- LoadSingle(db, lib, ourId);
    var (their, claim) :- ClaimToStamp(db, lib, claimPrefix);
    var confidence :- ParseConfidence(answers.confidence);
    var expires :- Expiry(lib, answers.wantsExpiry, answers.expiry);
    // our id string is known to convert: it matched the prefix
    if !answers.passphraseOk then Err(IncorrectPassphrase)
    else
      var made := lib.stamp(ours, confidence, their.id, claim, expires);
      if made.Err? then Err(LibraryError("Problem generating stamp: " + made.error))
      else
        var serialized := lib.serializeStamp(made.value);
        if serialized.Err? then Err(LibraryError("Problem serializing stamp: " + serialized.error))
        else Ok(serialized.value)
  }

  // ---------------------------------------------------------------- stamp accept

  /** Everything `stamp accept` decides before saving: the single identity matching `ourId`,
      the stamp read from the file, its stamper saved locally, the passphrase check, and our
      identity with the stamp accepted. */
  function AcceptPlan(db: Db, lib: Library, ourId: string, stampFile: Result<seq<bv8>, CliError>, passphraseOk: bool)
    : (r: Result<(Stamp, Transactions), CliError>)
    reads db
    ensures r.Ok? ==> LoadSingle(db, lib, ourId).Ok? && stampFile.Ok? && passphraseOk
    ensures r.Ok? ==>
      lib.deserializeStamp(stampFile.value) == Ok(r.value.0) &&
      db.LoadIdentity(r.value.0.stamper).Some? &&
      lib.acceptStamp(LoadSingle(db, lib, ourId).value, db.LoadIdentity(r.value.0.stamper).value, r.value.0) == Ok(r.value.1)
    ensures (LoadSingle(db, lib, ourId).Ok? && stampFile.Ok? && lib.deserializeStamp(stampFile.value).Ok? &&
             lib.deserializeStamp(stampFile.value).value.id.text.Some? &&
             lib.deserializeStamp(stampFile.value).value.stamper.text.Some? &&
             db.LoadIdentity(lib.deserializeStamp(stampFile.value).value.stamper).None?) ==>
      r == Err(IdentityNotImported)
  {
    var ours :- LoadSingle(db, lib, ourId);
    var contents :- stampFile;
    var stamp :- Wrap(lib.deserializeStamp(contents), "Problem deserializing stamp: ");
    var _ :- IdStr(stamp.id);
    var _ :- IdStr(stamp.stamper);
    match db.LoadIdentity(stamp.stamper)
    case None => Err(IdentityNotImported)
    case Some(theirs) =>
      if !passphraseOk then Err(IncorrectPassphrase)
      else
        var accepted :- Wrap(lib.acceptStamp(ours, theirs, stamp), "Error accepting stamp: ");
        Ok((stamp, accepted))
  }

  /** `stamp accept`: a failed plan changes nothing; otherwise our identity, with the stamp
      accepted, replaces the saved one. */
  method Accept(db: Db, lib: Library, ourId: string, stampFile: Result<seq<bv8>, CliError>, passphraseOk: bool)
    returns (r: Result<Stamp, CliError>)
    requires db.Valid()
    modifies db
    ensures db.Valid()
    ensures var plan := old(AcceptPlan(db, lib, ourId, stampFile, passphraseOk));
      plan.Err? ==> r == Err(plan.error) && unchanged(db)
    ensures var plan := old(AcceptPlan(db, lib, ourId, stampFile, passphraseOk));
      plan.Ok? && plan.value.1.identityId.None? ==> r.Err? && unchanged(db)
    ensures var plan := old(AcceptPlan(db, lib, ourId, stampFile, passphraseOk));
      plan.Ok? && plan.value.1.identityId.Some? ==>
      r == Ok(plan.value.0) &&
      db.identities == Upsert(old(db.identities), plan.value.1) && db.staged == old(db.staged) &&
      db.effects == old(db.effects) + [SavedIdentity(plan.value.1.identityId.value)]
  {
    var plan := AcceptPlan(db, lib, ourId, stampFile, passphraseOk);
    if plan.Err? {
      return Err(plan.error);
    }
    var (stamp, accepted) := plan.value;
    var saved := db.SaveIdentity(accepted);
    if saved.Err? {
      return Err(saved.error);
    }
    r := Ok(stamp);
  }
}
