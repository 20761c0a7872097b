/** The `keychain` commands: listing an identity's keys with type, revocation and search
    filters, the keys table and the numbered menu it doubles as, resolving a key search, the
    "M/S" parameters of a Shamir keyfile, and finding the key that `update`, `revoke` and
    `delete-subkey` act on before the transaction is signed and saved or staged. */
module Keychain {
  import opened Common
  import opened Types
  import opened Collab
  import opened Store
  import opened Util
  import opened Identities
  import opened Dag

  // ---------------------------------------------------------------- listing

  /** A row of the keys table, made from an admin key or a subkey. */
  datatype PrintableKey = PrintableKey(
    keyId: string,
    ty: string,
    name: string,
    description: Option<string>,
    revocation: Option<RevocationReason>,
    hasPrivate: bool)

  function FromAdmin(k: AdminKey): PrintableKey {
    PrintableKey(k.keyId, "admin", k.name, k.description, k.revocation, k.hasPrivate)
  }

  function FromSubkey(k: Subkey): PrintableKey {
    PrintableKey(k.keyId, KeyKindName(k.kind), k.name, k.description, k.revocation, k.hasPrivate)
  }

  /** Admin keys are listed for no type or the type `admin`. */
  predicate ShowsAdminKeys(ty: Option<string>) {
    ty.None? || ty == Some("admin")
  }

  /** Subkeys are listed for no type, `subkeys`, or one subkey kind. */
  predicate ShowsSubkeys(ty: Option<string>) {
    ty.None? || ty == Some("subkeys") || ty == Some("sign") || ty == Some("crypto") || ty == Some("secret")
  }

  /** An admin key passes the search (a substring of its name) and the revocation filter. */
  predicate AdminKeyListed(k: AdminKey, revoked: bool, search: Option<string>) {
    (search.None? || Contains(k.name, search.value)) && (revoked || k.revocation.None?)
  }

  /** A kind type keeps only subkeys of that kind. */
  predicate KindSelected(ty: Option<string>, kind: KeyKind) {
    (ty == Some("sign") ==> kind == SignKey) &&
    (ty == Some("crypto") ==> kind == CryptoKey) &&
    (ty == Some("secret") ==> kind == SecretKey)
  }

  /** A subkey passes the kind and the revocation filter; the search does not apply. */
  predicate SubkeyListed(k: Subkey, ty: Option<string>, revoked: bool) {
    KindSelected(ty, k.kind) && (revoked || k.revocation.None?)
  }

  /** The admin keys `list` keeps, in keychain order. */
  function ListedAdmins(keys: seq<AdminKey>, revoked: bool, search: Option<string>): (r: seq<PrintableKey>)
    ensures forall p :: p in r <==> exists k :: k in keys && AdminKeyListed(k, revoked, search) && p == FromAdmin(k)
    decreases |keys|
  {
    if |keys| == 0 then []
    else
      var last := keys[|keys| - 1];
      assert forall k :: k in keys <==> k in keys[..|keys| - 1] || k == last;
      ListedAdmins(keys[..|keys| - 1], revoked, search) + (if AdminKeyListed(last, revoked, search) then [FromAdmin(last)] else [])
  }

  /** The subkeys `list` keeps, in keychain order. */
  function ListedSubkeys(keys: seq<Subkey>, ty: Option<string>, revoked: bool): (r: seq<PrintableKey>)
    ensures forall p :: p in r <==> exists k :: k in keys && SubkeyListed(k, ty, revoked) && p == FromSubkey(k)
    decreases |keys|
  {
    if |keys| == 0 then []
    else
      var last := keys[|keys| - 1];
      assert forall k :: k in keys <==> k in keys[..|keys| - 1] || k == last;
      ListedSubkeys(keys[..|keys| - 1], ty, revoked) + (if SubkeyListed(last, ty, revoked) then [FromSubkey(last)] else [])
  }

  /** Everything `list` shows: the kept admin keys, then the kept subkeys. */
  function ListedKeys(kc: Keychain, ty: Option<string>, revoked: bool, search: Option<string>): seq<PrintableKey> {
    (if ShowsAdminKeys(ty) then ListedAdmins(kc.adminKeys, revoked, search) else []) +
    (if ShowsSubkeys(ty) then ListedSubkeys(kc.subkeys, ty, revoked) else [])
  }

  /** `keychain list`: loads and builds the single identity matching `id`, then gathers its
      keys with two filtering loops. */
  method List(db: Db, lib: Library, id: string, ty: Option<string>, revoked: bool, search: Option<string>)
    returns (r: Result<seq<PrintableKey>, CliError>)
    ensures r.Ok? <==> LoadSingle(db, lib, id).Ok? && lib.build(LoadSingle(db, lib, id).value).Ok?
    ensures r.Ok? ==> r.value == ListedKeys(lib.build(LoadSingle(db, lib, id).value).value.keychain, ty, revoked, search)
  {
    var transactions := LoadSingle(db, lib, id);
    if transactions.Err? {
      return Err(transactions.error);
    }
    var identity := BuildIdentity(lib, transactions.value);
    if identity.Err? {
      return Err(identity.error);
    }
    var kc := identity.value.keychain;
    var admins: seq<PrintableKey> := [];
    if ShowsAdminKeys(ty) {
      admins := CollectAdmins(kc.adminKeys, revoked, search);
    }
    var subkeys: seq<PrintableKey> := [];
    if ShowsSubkeys(ty) {
      subkeys := CollectSubkeys(kc.subkeys, ty, revoked);
    }
    var keys := admins + subkeys;
    r := Ok(keys);
  }

  /** `list`'s loop over the admin keys, with its `include` flag. */
  method CollectAdmins(adminKeys: seq<AdminKey>, revoked: bool, search: Option<string>) returns (keys: seq<PrintableKey>)
    ensures keys == ListedAdmins(adminKeys, revoked, search)
  {
    keys := [];
    var i := 0;
    while i < |adminKeys|
      invariant 0 <= i <= |adminKeys|
      invariant keys == ListedAdmins(adminKeys[..i], revoked, search)
    {
      var k := adminKeys[i];
      assert adminKeys[..i + 1][..i] == adminKeys[..i];
      var included := true;
      if included && search.Some? {
        included := Contains(k.name, search.value);
      }
      if included && !revoked {
        included := k.revocation.None?;
      }
      if included {
        keys := keys + [FromAdmin(k)];
      }
      i := i + 1;
    }
    assert adminKeys[..i] == adminKeys;
  }

  /** `list`'s loop over the subkeys, with its `include` flag. */
  method CollectSubkeys(subkeys: seq<Subkey>, ty: Option<string>, revoked: bool) returns (keys: seq<PrintableKey>)
    ensures keys == ListedSubkeys(subkeys, ty, revoked)
  {
    keys := [];
    var i := 0;
    while i < |subkeys|
      invariant 0 <= i <= |subkeys|
      invariant keys == ListedSubkeys(subkeys[..i], ty, revoked)
    {
      var k := subkeys[i];
      assert subkeys[..i + 1][..i] == subkeys[..i];
      var included := true;
      if included && ty == Some("sign") {
        included := k.kind == SignKey;
      }
      if included && ty == Some("crypto") {
        included := k.kind == CryptoKey;
      }
      if included && ty == Some("secret") {
        included := k.kind == SecretKey;
      }
      if included && !revoked {
        included := k.revocation.None?;
      }
      if included {
        keys := keys + [FromSubkey(k)];
      }
      i := i + 1;
    }
    assert subkeys[..i] == subkeys;
  }

  /** Admin keys are listed only for no type or `admin`, subkeys only for no type, `subkeys`
      or a kind; every admin key listed comes before every subkey listed. */
  lemma ListedTypeGating(kc: Keychain, ty: Option<string>, revoked: bool, search: Option<string>)
    ensures forall p :: p in ListedKeys(kc, ty, revoked, search) && p.ty == "admin" ==> ShowsAdminKeys(ty)
    ensures forall p :: p in ListedKeys(kc, ty, revoked, search) && p.ty != "admin" ==> ShowsSubkeys(ty)
    ensures forall i, j :: (0 <= i < j < |ListedKeys(kc, ty, revoked, search)| &&
                            ListedKeys(kc, ty, revoked, search)[j].ty == "admin") ==>
      ListedKeys(kc, ty, revoked, search)[i].ty == "admin"
  {
    var admins := if ShowsAdminKeys(ty) then ListedAdmins(kc.adminKeys, revoked, search) else [];
    var subs := if ShowsSubkeys(ty) then ListedSubkeys(kc.subkeys, ty, revoked) else [];
    assert forall p :: p in subs ==> p.ty != "admin" by {
      forall p | p in subs ensures p.ty != "admin" {
        var k :| k in kc.subkeys && SubkeyListed(k, ty, revoked) && p == FromSubkey(k);
        match k.kind
        case SignKey => assert p.ty[0] == 's';
        case CryptoKey => assert p.ty[0] == 'c';
        case SecretKey => assert p.ty[0] == 's';
      }
    }
    assert forall p :: p in admins ==> p.ty == "admin";
    forall i, j | 0 <= i < j < |admins + subs| && (admins + subs)[j].ty == "admin"
      ensures (admins + subs)[i].ty == "admin"
    {
      assert j < |admins|;
      assert (admins + subs)[i] in admins;
    }
  }

  /** With `revoked` unset no revoked key is listed, and with it set no listed key is lost to
      the revocation filter. */
  lemma ListedRevocation(kc: Keychain, ty: Option<string>, search: Option<string>)
    ensures forall p :: p in ListedKeys(kc, ty, false, search) ==> p.revocation.None?
    ensures forall p :: p in ListedKeys(kc, ty, false, search) ==> p in ListedKeys(kc, ty, true, search)
  {
  }

  /** A kind type lists exactly the subkeys of that kind (those not revoked, unless `revoked`). */
  lemma ListedKindExact(kc: Keychain, kind: KeyKind, revoked: bool, search: Option<string>)
    ensures var ty := Some(KeyKindName(kind));
      forall p :: p in ListedKeys(kc, ty, revoked, search) <==>
        exists k :: k in kc.subkeys && k.kind == kind && (revoked || k.revocation.None?) && p == FromSubkey(k)
  {
    var ty := Some(KeyKindName(kind));
    assert !ShowsAdminKeys(ty) by {
      assert KeyKindName(kind) != "admin" by {
        assert KeyKindName(kind)[0] != 'a';
      }
    }
    assert forall k: Subkey :: KindSelected(ty, k.kind) <==> k.kind == kind by {
      assert KeyKindName(SignKey) != KeyKindName(CryptoKey) && KeyKindName(SignKey) != KeyKindName(SecretKey) &&
        KeyKindName(CryptoKey) != KeyKindName(SecretKey) by {
        assert KeyKindName(SignKey)[1] == 'i' && KeyKindName(SecretKey)[1] == 'e';
      }
    }
  }

  /** The search narrows the admin keys only: the subkeys listed are the same whatever it is. */
  lemma SearchFiltersAdminsOnly(kc: Keychain, ty: Option<string>, revoked: bool, search: Option<string>)
    ensures forall p: PrintableKey :: p.ty != "admin" ==>
      (p in ListedKeys(kc, ty, revoked, search) <==> p in ListedKeys(kc, ty, revoked, None))
    ensures forall p :: p in ListedKeys(kc, ty, revoked, search) && p.ty == "admin" ==>
      search.None? || Contains(p.name, search.value)
  {
  }

  // ---------------------------------------------------------------- the keys table

  /** The description cell: the description, or empty. */
  function DescriptionCell(d: Option<string>): string {
    match d
    case Some(text) => text
    case None => ""
  }

  /** One row of `print_keys_table`; `idx` is the key's position in the table. */
  function KeyRow(key: PrintableKey, idx: nat, choice: bool, showRevoked: bool): seq<string> {
    (if choice then [NatToString(idx + 1)] else []) +
    [key.name, key.keyId, key.ty, DescriptionCell(key.description), if key.hasPrivate then "x" else ""] +
    (if showRevoked then [if key.revocation.Some? then "x" else ""] else [])
  }

  /** `print_keys_table`: a row per key in order; an optional 1-based Choose column first, then
      Name, ID, Type, Description and Owned, then an optional Revoked column. */
  method PrintKeysTable(keys: seq<PrintableKey>, choice: bool, showRevoked: bool) returns (rows: seq<seq<string>>)
    ensures |rows| == |keys|
    ensures forall i :: 0 <= i < |keys| ==>
      var o := if choice then 1 else 0;
      |rows[i]| == o + 5 + (if showRevoked then 1 else 0) &&
      rows[i][o] == keys[i].name && rows[i][o + 1] == keys[i].keyId && rows[i][o + 2] == keys[i].ty &&
      rows[i][o + 3] == DescriptionCell(keys[i].description) &&
      (rows[i][o + 4] == "x" <==> keys[i].hasPrivate) &&
      (showRevoked ==> (rows[i][o + 5] == "x" <==> keys[i].revocation.Some?))
    ensures choice ==> forall i :: 0 <= i < |keys| && i < USIZE_MAX ==> ParseUnsigned(rows[i][0], USIZE_MAX) == Some(i + 1)
  {
    rows := [];
    var idx := 0;
    while idx < |keys|
      invariant 0 <= idx <= |keys| && |rows| == idx
      invariant forall i :: 0 <= i < idx ==> rows[i] == KeyRow(keys[i], i, choice, showRevoked)
    {
      rows := rows + [KeyRow(keys[idx], idx, choice, showRevoked)];
      idx := idx + 1;
    }
    if choice {
      forall i | 0 <= i < |keys| && i < USIZE_MAX
        ensures ParseUnsigned(rows[i][0], USIZE_MAX) == Some(i + 1)
      {
        ParsePrinted(i + 1, USIZE_MAX);
      }
    }
  }

  // ---------------------------------------------------------------- choosing and searching

  /** `choose_key_from`: the answer read as a `usize`, counted from 1. A choice of 0, text that
      is not a number, or a number past the end chooses nothing. */
  function ChooseKeyFrom(keys: seq<Subkey>, answer: string): (r: Option<Subkey>)
    ensures r.Some? <==> ParseUnsigned(answer, USIZE_MAX).Some? && 1 <= ParseUnsigned(answer, USIZE_MAX).value <= |keys|
    ensures r.Some? ==> r.value == keys[ParseUnsigned(answer, USIZE_MAX).value - 1]
  {
    match ParseUnsigned(answer, USIZE_MAX)
    case None => None
    case Some(choice) => if choice > 0 && choice - 1 < |keys| then Some(keys[choice - 1]) else None
  }

  /** Typing the number the menu shows beside a key chooses that key. */
  lemma ChoosingShownNumber(keys: seq<Subkey>, i: nat)
    requires i < |keys| && i < USIZE_MAX
    ensures ChooseKeyFrom(keys, NatToString(i + 1)) == Some(keys[i])
  {
    ParsePrinted(i + 1, USIZE_MAX);
  }

  /** The menu's choice, or the error when the choice is not an option. */
  function MenuChoice(keys: seq<Subkey>, answer: string): (r: Result<Subkey, CliError>)
    ensures r.Ok? <==> ChooseKeyFrom(keys, answer).Some?
    ensures r.Ok? ==> r.value == ChooseKeyFrom(keys, answer).value
    ensures r.Err? ==> r.error == KeyChoiceNotAnOption
  {
    match ChooseKeyFrom(keys, answer)
    case Some(k) => Ok(k)
    case None => Err(KeyChoiceNotAnOption)
  }

  /** `find_keys_by_search_or_prompt`: with a search, a subkey named exactly that is taken as is;
      otherwise the subkeys passing `keep` whose key id starts with the search are one key, a
      menu, or an error. Without a search, the subkeys passing `keep` are one key, a menu, or an
      error. `answer` is what the user types at the menu. */
  function FindKeysBySearchOrPrompt(kc: Keychain, search: Option<string>, keyType: string, keep: Subkey -> bool, answer: string)
    : (r: Result<Subkey, CliError>)
    ensures search.Some? && SubkeyByName(kc, search.value).Some? ==> r == Ok(SubkeyByName(kc, search.value).value)
    ensures r.Ok? ==> r.value in kc.subkeys
    ensures r.Ok? && (search.None? || SubkeyByName(kc, search.value).None?) ==>
      keep(r.value) && (search.Some? ==> StartsWith(r.value.keyId, search.value))
    ensures (search.Some? && SubkeyByName(kc, search.value).None? &&
             forall k :: k in kc.subkeys ==> !(keep(k) && StartsWith(k.keyId, search.value))) ==>
      r == Err(NoKeysMatchSearch(keyType))
    ensures (search.None? && forall k :: k in kc.subkeys ==> !keep(k)) ==> r == Err(NoKeysOfType(keyType))
    ensures r.Err? ==> r.error in {NoKeysMatchSearch(keyType), NoKeysOfType(keyType), KeyChoiceNotAnOption}
  {
    match search
    case Some(s) =>
      (match SubkeyByName(kc, s)
       case Some(k) => Ok(k)
       case None =>
         var fromId := Filter(kc.subkeys, (k: Subkey) => keep(k) && StartsWith(k.keyId, s));
         assert |fromId| > 0 ==> fromId[0] in fromId;
         if |fromId| > 1 then MenuChoice(fromId, answer)
         else if |fromId| == 0 then Err(NoKeysMatchSearch(keyType))
         else assert fromId[0] in fromId; Ok(fromId[0]))
    case None =>
      var candidates := Filter(kc.subkeys, keep);
      assert |candidates| > 0 ==> candidates[0] in candidates;
      if |candidates| == 1 then assert candidates[0] in candidates; Ok(candidates[0])
      else if |candidates| > 1 then MenuChoice(candidates, answer)
      else Err(NoKeysOfType(keyType))
  }

  /** Without a search, a single key passing `keep` is taken without asking: the answer typed
      does not matter. */
  lemma SingleCandidateTakenWithoutMenu(kc: Keychain, keyType: string, keep: Subkey -> bool, a1: string, a2: string)
    requires |Filter(kc.subkeys, keep)| == 1
    ensures FindKeysBySearchOrPrompt(kc, None, keyType, keep, a1) == FindKeysBySearchOrPrompt(kc, None, keyType, keep, a2)
    ensures FindKeysBySearchOrPrompt(kc, None, keyType, keep, a1) == Ok(Filter(kc.subkeys, keep)[0])
  {
  }

  /** Several keys go to the menu, where the n-th shown number picks the n-th of them. */
  lemma SeveralCandidatesGoToMenu(kc: Keychain, keyType: string, keep: Subkey -> bool, i: nat)
    requires |Filter(kc.subkeys, keep)| > 1 && i < |Filter(kc.subkeys, keep)| && i < USIZE_MAX
    ensures FindKeysBySearchOrPrompt(kc, None, keyType, keep, NatToString(i + 1)) == Ok(Filter(kc.subkeys, keep)[i])
    ensures FindKeysBySearchOrPrompt(kc, None, keyType, keep, "0") == Err(KeyChoiceNotAnOption)
  {
    ChoosingShownNumber(Filter(kc.subkeys, keep), i);
    assert ParseUnsigned("0", USIZE_MAX) == Some(0) by {
      assert DigitsValue("0") == DigitsValue("") * 10 + 0;
    }
  }

  // ---------------------------------------------------------------- Shamir keyfiles

  /** `keyfile`'s "M/S" parameters: the first two `/`-separated fields as `u8`s, with M at most
      S; further fields are ignored. */
  function ParseShamir(shamir: string): (r: Result<(nat, nat), CliError>)
    ensures var parts := SplitOn(shamir, '/');
      r.Ok? <==> |parts| >= 2 && ParseUnsigned(parts[0], U8_MAX).Some? && ParseUnsigned(parts[1], U8_MAX).Some? &&
                 ParseUnsigned(parts[0], U8_MAX).value <= ParseUnsigned(parts[1], U8_MAX).value
    ensures r.Ok? ==> var parts := SplitOn(shamir, '/');
      r.value == (ParseUnsigned(parts[0], U8_MAX).value, ParseUnsigned(parts[1], U8_MAX).value)
    ensures r == Err(ShamirMinAboveTotal) <==> var parts := SplitOn(shamir, '/');
      |parts| >= 2 && ParseUnsigned(parts[0], U8_MAX).Some? && ParseUnsigned(parts[1], U8_MAX).Some? &&
      ParseUnsigned(parts[0], U8_MAX).value > ParseUnsigned(parts[1], U8_MAX).value
    ensures r.Err? ==> r.error in {InvalidShamirFormat, ShamirMinAboveTotal}
  {
    var parts := SplitOn(shamir, '/');
    match ParseUnsigned(parts[0], U8_MAX)
    case None => Err(InvalidShamirFormat)
    case Some(minShares) =>
      if |parts| < 2 then Err(InvalidShamirFormat)
      else
        match ParseUnsigned(parts[1], U8_MAX)
        case None => Err(InvalidShamirFormat)
        case Some(numShares) =>
          if minShares > numShares then Err(ShamirMinAboveTotal) else Ok((minShares, numShares))
  }

  /** "M/S" as printed reads back, whatever follows a second `/`. */
  lemma ShamirPrintedReadsBack(m: nat, s: nat, rest: string)
    requires m <= s <= U8_MAX
    requires rest == [] || rest[0] == '/'
    ensures ParseShamir(NatToString(m) + "/" + NatToString(s) + rest) == Ok((m, s))
  {
    var a, b := NatToString(m), NatToString(s);
    var text := a + "/" + b + rest;
    assert text == a + ['/'] + (b + rest);
    SplitOnAfterSeparator(a, '/', b + rest);
    FirstFieldBeforeSeparator(b, rest);
    var parts := SplitOn(text, '/');
    assert parts[0] == a && parts[1] == b;
    ParsePrinted(m, U8_MAX);
    ParsePrinted(s, U8_MAX);
  }

  lemma FirstFieldBeforeSeparator(b: string, rest: string)
    requires '/' !in b
    requires rest == [] || rest[0] == '/'
    ensures SplitOn(b + rest, '/')[0] == b
  {
    if rest == [] {
      assert b + rest == b;
      SplitOnNoSeparator(b, '/');
    } else {
      assert b + rest == b + ['/'] + rest[1..];
      SplitOnAfterSeparator(b, '/', rest[1..]);
    }
  }

  /** `keyfile`'s output: `S` shares from the dealer for threshold `M`, each base64 text,
      joined by newlines. The dealer and the passphrase check (`passphraseOk`) are inputs:
      share generation is random and the key derivation is not modelled. */
  function Keyfile(shamir: string, identityOk: Result<Identity, CliError>, passphraseOk: bool, dealer: (nat, nat) -> string)
    : (r: Result<string, CliError>)
    ensures ParseShamir(shamir).Err? ==> r == Err(ParseShamir(shamir).error)
    ensures r.Ok? ==> ParseShamir(shamir).Ok? && identityOk.Ok? && passphraseOk
    ensures r.Ok? ==> var (m, s) := ParseShamir(shamir).value;
      r.value == Join(seq(s, i requires 0 <= i => dealer(m, i)), "\n")
  {
    var (m, s) :- ParseShamir(shamir);
    var _ :- identityOk;
    if !passphraseOk then Err(IncorrectPassphrase)
    else Ok(Join(seq(s, i requires 0 <= i => dealer(m, i)), "\n"))
  }

  /** A keyfile holds exactly S lines, the dealt shares in order, since base64 text has no
      newline. */
  lemma KeyfileHoldsEachShare(shamir: string, identityOk: Result<Identity, CliError>, passphraseOk: bool, dealer: (nat, nat) -> string)
    requires Keyfile(shamir, identityOk, passphraseOk, dealer).Ok?
    requires ParseShamir(shamir).value.1 >= 1
    requires forall m: nat, i: nat :: '\n' !in dealer(m, i)
    ensures var (m, s) := ParseShamir(shamir).value;
      SplitOn(Keyfile(shamir, identityOk, passphraseOk, dealer).value, '\n') == seq(s, i requires 0 <= i => dealer(m, i))
  {
    var (m, s) := ParseShamir(shamir).value;
    SplitJoin(seq(s, i requires 0 <= i => dealer(m, i)), '\n');
  }

  // ---------------------------------------------------------------- the key a command acts on

  /** `revoke`'s reason: three words name a reason, anything else is `Unspecified`. */
  function ParseRevocationReason(reason: string): (r: RevocationReason)
    ensures r == Superseded <==> reason == "superseded"
    ensures r == Compromised <==> reason == "compromised"
    ensures r == Invalid <==> reason == "invalid"
    ensures r == Unspecified <==> reason != "superseded" && reason != "compromised" && reason != "invalid"
  {
    match reason
    case "superseded" => Superseded
    case "compromised" => Compromised
    case "invalid" => Invalid
    case _ => Unspecified
  }

  /** The key `update` or `revoke` acts on. */
  datatype KeyTarget = AdminTarget(admin: AdminKey) | SubkeyTarget(subkey: Subkey)

  predicate AdminMatches(k: AdminKey, search: string) { k.name == search || k.keyId == search }

  predicate SubkeyMatches(k: Subkey, search: string) { k.name == search || k.keyId == search }

  /** The key named `search`, or else whose key id is `search`; an admin key wins over a
      subkey. */
  function FindKeyTarget(kc: Keychain, search: string): (r: Option<KeyTarget>)
    ensures r.None? <==> (forall k :: k in kc.adminKeys ==> !AdminMatches(k, search)) &&
                         (forall k :: k in kc.subkeys ==> !SubkeyMatches(k, search))
    ensures (exists k :: k in kc.adminKeys && AdminMatches(k, search)) ==> r.Some? && r.value.AdminTarget?
    ensures r.Some? && r.value.AdminTarget? ==> r.value.admin in kc.adminKeys && AdminMatches(r.value.admin, search)
    ensures r.Some? && r.value.AdminTarget? && (exists k :: k in kc.adminKeys && k.name == search) ==>
      r.value.admin.name == search
    ensures r.Some? && r.value.SubkeyTarget? ==> r.value.subkey in kc.subkeys && SubkeyMatches(r.value.subkey, search)
    ensures r.Some? && r.value.SubkeyTarget? && (exists k :: k in kc.subkeys && k.name == search) ==>
      r.value.subkey.name == search
  {
    var admin := match AdminKeyByName(kc, search) case Some(k) => Some(k) case None => AdminKeyByKeyIdStr(kc, search);
    var subkey := match SubkeyByName(kc, search) case Some(k) => Some(k) case None => SubkeyByKeyIdStr(kc, search);
    if admin.Some? then Some(AdminTarget(admin.value))
    else if subkey.Some? then Some(SubkeyTarget(subkey.value))
    else None
  }

  /** The body of the transaction `update` makes for its key. */
  function UpdateBody(target: KeyTarget, name: Option<string>, desc: Option<Option<string>>): TransactionBody {
    match target
    case AdminTarget(k) => EditAdminKeyV1(k.keyId, name, desc)
    case SubkeyTarget(k) => EditSubkeyV1(k.keyId, name, desc)
  }

  /** The body of the transaction `revoke` makes for its key. */
  function RevokeBody(target: KeyTarget, reason: string): (body: TransactionBody)
    ensures target.AdminTarget? ==> body == RevokeAdminKeyV1(target.admin.keyId, ParseRevocationReason(reason))
    ensures target.SubkeyTarget? ==> body == RevokeSubkeyV1(target.subkey.keyId, ParseRevocationReason(reason))
  {
    match target
    case AdminTarget(k) => RevokeAdminKeyV1(k.keyId, ParseRevocationReason(reason))
    case SubkeyTarget(k) => RevokeSubkeyV1(k.keyId, ParseRevocationReason(reason))
  }

  /** The library's builder with its error wrapped under `context`. */
  function MakeTransaction(lib: Library, transactions: Transactions, body: TransactionBody, context: string)
    : (r: Result<Transaction, CliError>)
    ensures r.Ok? <==> lib.makeTransaction(transactions, body).Ok?
    ensures r.Ok? ==> r.value == lib.makeTransaction(transactions, body).value
  {
    match lib.makeTransaction(transactions, body)
    case Ok(tx) => Ok(tx)
    case Err(e) => Err(LibraryError(context + ": " + e))
  }

  /** The error context of `update` and `revoke`, by the kind of key. */
  function TargetContext(target: KeyTarget, adminContext: string, subkeyContext: string): string {
    if target.AdminTarget? then adminContext else subkeyContext
  }

  /** What `update` and `revoke` decide before saving: the single identity matching `id`, the
      key `search` names (an error before the passphrase is asked for), the passphrase check,
      the transaction `body` makes for the key, signed. */
  function TargetedPlan(db: Db, lib: Library, id: string, search: string, passphraseOk: bool,
                        body: KeyTarget -> TransactionBody, adminContext: string, subkeyContext: string,
                        stage: bool, signWith: Option<string>)
    : (r: Result<(Transactions, Transaction), CliError>)
    reads db
    ensures r.Ok? ==> LoadSingle(db, lib, id) == Ok(r.value.0) && r.value.0.identityId.Some?
    ensures (LoadSingle(db, lib, id).Ok? && lib.build(LoadSingle(db, lib, id).value).Ok? &&
             lib.build(LoadSingle(db, lib, id).value).value.id.text.Some? &&
             FindKeyTarget(lib.build(LoadSingle(db, lib, id).value).value.keychain, search).None?) ==>
      r == Err(KeyNotFound(search))
    ensures r.Ok? ==> passphraseOk
    ensures r.Ok? ==> lib.build(r.value.0).Ok?
    ensures r.Ok? ==>
      var identity := lib.build(r.value.0).value;
      var target := FindKeyTarget(identity.keychain, search);
      target.Some? &&
      lib.makeTransaction(r.value.0, body(target.value)).Ok? &&
      SignHelper(lib, identity, lib.makeTransaction(r.value.0, body(target.value)).value, stage, signWith) == Ok(r.value.1)
  {
    var transactions :- LoadSingle(db, lib, id);
    var identity :- BuildIdentity(lib, transactions);
    var _ :- IdStr(identity.id);
    match FindKeyTarget(identity.keychain, search)
    case None => Err(KeyNotFound(search))
    case Some(target) =>
      if !passphraseOk then Err(IncorrectPassphrase)
      else
        var tx :- MakeTransaction(lib, transactions, body(target), TargetContext(target, adminContext, subkeyContext));
        var signed :- SignHelper(lib, identity, tx, stage, signWith);
        Ok((transactions, signed))
  }

  /** `keychain update`'s plan. */
  function UpdatePlan(db: Db, lib: Library, id: string, search: string, name: Option<string>, desc: Option<Option<string>>,
                      passphraseOk: bool, stage: bool, signWith: Option<string>)
    : (r: Result<(Transactions, Transaction), CliError>)
    reads db
    ensures r.Ok? ==> LoadSingle(db, lib, id) == Ok(r.value.0) && passphraseOk && lib.build(r.value.0).Ok?
    ensures r.Ok? ==>
      var identity := lib.build(r.value.0).value;
      var target := FindKeyTarget(identity.keychain, search);
      target.Some? &&
      var body := UpdateBody(target.value, name, desc);
      lib.makeTransaction(r.value.0, body).Ok? &&
      SignHelper(lib, identity, lib.makeTransaction(r.value.0, body).value, stage, signWith) == Ok(r.value.1)
    ensures (LoadSingle(db, lib, id).Ok? && lib.build(LoadSingle(db, lib, id).value).Ok? &&
             lib.build(LoadSingle(db, lib, id).value).value.id.text.Some? &&
             FindKeyTarget(lib.build(LoadSingle(db, lib, id).value).value.keychain, search).None?) ==>
      r == Err(KeyNotFound(search))
  {
    TargetedPlan(db, lib, id, search, passphraseOk, (t: KeyTarget) => UpdateBody(t, name, desc),
                 "Error updating admin key", "Error updating subkey", stage, signWith)
  }

  /** `keychain revoke`'s plan. */
  function RevokePlan(db: Db, lib: Library, id: string, search: string, reason: string,
                      passphraseOk: bool, stage: bool, signWith: Option<string>)
    : (r: Result<(Transactions, Transaction), CliError>)
    reads db
    ensures r.Ok? ==> LoadSingle(db, lib, id) == Ok(r.value.0) && passphraseOk && lib.build(r.value.0).Ok?
    ensures r.Ok? ==>
      var identity := lib.build(r.value.0).value;
      var target := FindKeyTarget(identity.keychain, search);
      target.Some? &&
      var body := RevokeBody(target.value, reason);
      lib.makeTransaction(r.value.0, body).Ok? &&
      SignHelper(lib, identity, lib.makeTransaction(r.value.0, body).value, stage, signWith) == Ok(r.value.1)
    ensures (LoadSingle(db, lib, id).Ok? && lib.build(LoadSingle(db, lib, id).value).Ok? &&
             lib.build(LoadSingle(db, lib, id).value).value.id.text.Some? &&
             FindKeyTarget(lib.build(LoadSingle(db, lib, id).value).value.keychain, search).None?) ==>
      r == Err(KeyNotFound(search))
  {
    TargetedPlan(db, lib, id, search, passphraseOk, (t: KeyTarget) => RevokeBody(t, reason),
                 "Error revoking admin key", "Error revoking subkey", stage, signWith)
  }

  /** When an admin key and a subkey both answer to the search, `revoke` revokes the admin key. */
  lemma RevokePrefersAdminKey(db: Db, lib: Library, id: string, search: string, reason: string,
                              passphraseOk: bool, stage: bool, signWith: Option<string>)
    requires RevokePlan(db, lib, id, search, reason, passphraseOk, stage, signWith).Ok?
    requires var kc := lib.build(LoadSingle(db, lib, id).value).value.keychain;
      exists k :: k in kc.adminKeys && AdminMatches(k, search)
    ensures var kc := lib.build(LoadSingle(db, lib, id).value).value.keychain;
      var target := FindKeyTarget(kc, search).value;
      target.AdminTarget? && target.admin in kc.adminKeys &&
      lib.makeTransaction(LoadSingle(db, lib, id).value, RevokeAdminKeyV1(target.admin.keyId, ParseRevocationReason(reason))).Ok?
  {
  }

  /** The last subkey, in keychain order, named exactly `name`. */
  function LastSubkeyNamed(keys: seq<Subkey>, name: string): (r: Option<nat>)
    ensures r.Some? ==> r.value < |keys| && keys[r.value].name == name
    ensures r.Some? ==> forall j :: r.value < j < |keys| ==> keys[j].name != name
    ensures r.None? <==> forall j :: 0 <= j < |keys| ==> keys[j].name != name
    decreases |keys|
  {
    if |keys| == 0 then None
    else if keys[|keys| - 1].name == name then Some(|keys| - 1)
    else LastSubkeyNamed(keys[..|keys| - 1], name)
  }

  /** What `delete-subkey` decides before saving: the single identity matching `id`, the last
      subkey named `search`, the confirmation asked for a key that is not a secret key (`None`
      when it is declined), the passphrase check, and the deletion transaction, signed. */
  function DeleteSubkeyPlan(db: Db, lib: Library, id: string, search: string, answer: string, passphraseOk: bool,
                            stage: bool, signWith: Option<string>)
    : (r: Result<Option<(Transactions, Transaction)>, CliError>)
    reads db
    ensures r.Ok? ==> LoadSingle(db, lib, id).Ok? && lib.build(LoadSingle(db, lib, id).value).Ok?
    ensures (LoadSingle(db, lib, id).Ok? && lib.build(LoadSingle(db, lib, id).value).Ok? &&
             lib.build(LoadSingle(db, lib, id).value).value.id.text.Some? &&
             LastSubkeyNamed(lib.build(LoadSingle(db, lib, id).value).value.keychain.subkeys, search).None?) ==>
      r == Err(KeyNotFound(search))
    ensures r == Ok(None) ==>
      var subkeys := lib.build(LoadSingle(db, lib, id).value).value.keychain.subkeys;
      LastSubkeyNamed(subkeys, search).Some? && subkeys[LastSubkeyNamed(subkeys, search).value].kind != SecretKey &&
      !YesnoPrompt(answer, "n")
    ensures (LoadSingle(db, lib, id).Ok? && lib.build(LoadSingle(db, lib, id).value).Ok? &&
             lib.build(LoadSingle(db, lib, id).value).value.id.text.Some?) ==>
      var subkeys := lib.build(LoadSingle(db, lib, id).value).value.keychain.subkeys;
      var found := LastSubkeyNamed(subkeys, search);
      found.Some? && subkeys[found.value].kind != SecretKey && !YesnoPrompt(answer, "n") ==> r == Ok(None)
    ensures r.Ok? && r.value.Some? ==>
      var transactions := LoadSingle(db, lib, id).value;
      var identity := lib.build(transactions).value;
      var found := LastSubkeyNamed(identity.keychain.subkeys, search);
      r.value.value.0 == transactions && transactions.identityId.Some? && passphraseOk && found.Some? &&
      var body := DeleteSubkeyV1(identity.keychain.subkeys[found.value].keyId);
      lib.makeTransaction(transactions, body).Ok? &&
      SignHelper(lib, identity, lib.makeTransaction(transactions, body).value, stage, signWith) == Ok(r.value.value.1)
  {
    var transactions :- LoadSingle(db, lib, id);
    var identity :- BuildIdentity(lib, transactions);
    var _ :- IdStr(identity.id);
    match LastSubkeyNamed(identity.keychain.subkeys, search)
    case None => Err(KeyNotFound(search))
    case Some(i) =>
      var key := identity.keychain.subkeys[i];
      if key.kind != SecretKey && !YesnoPrompt(answer, "n") then Ok(None)
      else if !passphraseOk then Err(IncorrectPassphrase)
      else
        var tx :- MakeTransaction(lib, transactions, DeleteSubkeyV1(key.keyId), "Problem deleting subkey from keychain");
        var signed :- SignHelper(lib, identity, tx, stage, signWith);
        Ok(Some((transactions, signed)))
  }

  /** The body of the transaction `keychain new` makes for a key of type `ty`; `keyId` is the
      id of the freshly generated key. */
  function NewKeyBody(ty: string, name: string, desc: Option<string>, keyId: string): (r: Result<TransactionBody, CliError>)
    ensures r.Ok? <==> ty == "admin" || ty == "sign" || ty == "crypto" || ty == "secret"
    ensures r.Err? ==> r.error == InvalidKeyType(ty)
    ensures ty == "admin" ==> r == Ok(AddAdminKeyV1(AdminKey(keyId, name, desc, None, true)))
    ensures r.Ok? && ty != "admin" ==>
      r.value.AddSubkeyV1? && KeyKindName(r.value.key) == ty && r.value.keyId == keyId && r.value.subkeyName == name &&
      r.value.subkeyDescription == desc
  {
    match ty
    case "admin" => Ok(AddAdminKeyV1(AdminKey(keyId, name, desc, None, true)))
    case "sign" => Ok(AddSubkeyV1(SignKey, keyId, name, desc))
    case "crypto" => Ok(AddSubkeyV1(CryptoKey, keyId, name, desc))
    case "secret" => Ok(AddSubkeyV1(SecretKey, keyId, name, desc))
    case _ => Err(InvalidKeyType(ty))
  }

  /** What `keychain new` decides before saving: the single identity matching `id`, the
      passphrase check, then the key type (an unknown type is reported only after the
      passphrase), the new transaction, signed. */
  function NewKeyPlan(db: Db, lib: Library, id: string, ty: string, name: string, desc: Option<string>, keyId: string,
                      passphraseOk: bool, stage: bool, signWith: Option<string>)
    : (r: Result<(Transactions, Transaction), CliError>)
    reads db
    ensures r.Ok? ==> LoadSingle(db, lib, id) == Ok(r.value.0) && r.value.0.identityId.Some?
    ensures r.Ok? ==>
      var body := NewKeyBody(ty, name, desc, keyId);
      passphraseOk && body.Ok? && lib.build(r.value.0).Ok? && lib.makeTransaction(r.value.0, body.value).Ok? &&
      SignHelper(lib, lib.build(r.value.0).value, lib.makeTransaction(r.value.0, body.value).value, stage, signWith)
        == Ok(r.value.1)
    ensures (LoadSingle(db, lib, id).Ok? && lib.build(LoadSingle(db, lib, id).value).Ok? && passphraseOk &&
             NewKeyBody(ty, name, desc, keyId).Err?) ==> r == Err(InvalidKeyType(ty))
    ensures (LoadSingle(db, lib, id).Ok? && lib.build(LoadSingle(db, lib, id).value).Ok? && !passphraseOk) ==>
      r == Err(IncorrectPassphrase)
  {
    var transactions :- LoadSingle(db, lib, id);
    var identity :- BuildIdentity(lib, transactions);
    if !passphraseOk then Err(IncorrectPassphrase)
    else
      var body :- NewKeyBody(ty, name, desc, keyId);
      var tx :- MakeTransaction(lib, transactions, body, "Problem adding key to identity");
      var signed :- SignHelper(lib, identity, tx, stage, signWith);
      Ok((transactions, signed))
  }

  // ---------------------------------------------------------------- saving or staging

  /** The tail `new`, `update`, `revoke` and `delete-subkey` share once their plan holds (for
      `delete-subkey`, a plan of `Some`): a plan that failed changes nothing, and a plan that
      holds goes through `save_or_stage`. */
  method Commit(db: Db, lib: Library, plan: Result<(Transactions, Transaction), CliError>, stage: bool)
    returns (r: Result<Transactions, CliError>, printed: Option<string>)
    requires db.Valid()
    requires plan.Ok? ==> plan.value.0.identityId.Some?
    modifies db
    ensures db.Valid()
    ensures plan.Err? ==> r == Err(plan.error) && unchanged(db)
    ensures plan.Ok? && stage ==>
      var (transactions, signed) := plan.value;
      db.staged == old(db.staged)[signed.id := StagedEntry(transactions.identityId.value, signed)] &&
      db.identities == old(db.identities) && db.effects == old(db.effects) + [StagedTransaction(signed.id)]
    ensures plan.Ok? && !stage && lib.push(plan.value.0, plan.value.1).Err? ==> r.Err? && unchanged(db)
    ensures (plan.Ok? && !stage && lib.push(plan.value.0, plan.value.1).Ok? &&
             lib.push(plan.value.0, plan.value.1).value.identityId.Some?) ==>
      var pushed := lib.push(plan.value.0, plan.value.1).value;
      db.identities == Upsert(old(db.identities), pushed) && db.staged == old(db.staged) &&
      db.effects == old(db.effects) + [SavedIdentity(pushed.identityId.value)]
    ensures plan.Ok? && !stage && lib.push(plan.value.0, plan.value.1).Ok? &&
            lib.push(plan.value.0, plan.value.1).value.identityId.None? ==>
      r == Err(LibraryError("Problem saving identity")) && unchanged(db)
    ensures plan.Ok? && stage ==>
      var msg := PostSave(lib, plan.value.0, plan.value.1, true);
      (msg.Ok? ==> r == Ok(plan.value.0) && printed == msg.value) &&
      (msg.Err? ==> r == Err(msg.error))
    ensures (plan.Ok? && !stage && lib.push(plan.value.0, plan.value.1).Ok? &&
             lib.push(plan.value.0, plan.value.1).value.identityId.Some?) ==>
      var pushed := lib.push(plan.value.0, plan.value.1).value;
      var msg := PostSave(lib, pushed, plan.value.1, false);
      (msg.Ok? ==> r == Ok(pushed) && printed == msg.value) &&
      (msg.Err? ==> r == Err(msg.error))
  {
    if plan.Err? {
      return Err(plan.error), None;
    }
    r, printed := SaveOrStage(db, lib, plan.value.0, plan.value.1, stage);
  }
}
