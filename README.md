# Stamp command-line front end, modelled in Dafny

Stamp is a self-sovereign identity system. An identity is a hash-linked list of signed
transactions: key changes, claims, stamps and policies. The command-line tool in this
repository sits on top of two libraries. `stamp_core` holds the identity DAG: hashing,
signing, verification, policy checks, `push_transaction` and `reset`. `stamp_aux` holds the
local database of identities and staged transactions.

The tool's own logic is a set of small, sequential decisions around those library calls:
- which key to use, and which keys a listing shows;
- which transaction a prefix names, and whether to stage or save;
- what a staged transaction goes through on `view`, `sign`, `apply` and `delete`;
- how identity searches are classified, and how the fingerprint grid is filled;
- how a signature file is decoded and checked;
- how claims are looked up, stamped and masked;
- the vanity-id search.

This project models that logic and proves what each command promises.

Modules follow the source files:

| module | file | what it holds |
|---|---|---|
| `Common` | (none) | Option/Result; `starts_with`, `contains`, `join` and `split`; Rust's parsing and printing of unsigned integers |
| `Types` | (none) | ids, keys, keychains, claims, stamps, transaction bodies and signatures; the keychain lookups the commands call |
| `Collab` | (none) | `Library`: the `stamp_core`/`stamp_aux` operations the commands call, as function-valued fields |
| `Store` | `src/db.rs` | class `Db`: the identity list and the staged-transaction map the commands change in place, plus a history of effects |
| `Util` | `src/util.rs` | prompts, stdin trimming, `read_file`, `sign_helper`, `with_new_passphrase`, id printing |
| `Identities` | `src/commands/id.rs` | single-identity loading, `view`, `delete`, the fingerprint grid, the identities table |
| `Dag` | `src/commands/dag.rs` | `reset`, `export`, `save_or_stage`, `post_save`, `transaction_to_string` |
| `Stage` | `src/commands/stage.rs` | `list`, `view`, `delete`, `sign`, `apply`, the transactions table |
| `Keychain` | `src/commands/keychain.rs` | `list`, key search and menu choice, `keyfile`, `new`, `update`, `revoke`, `delete_subkey`, the keys table |
| `Sign` | `src/commands/sign.rs` | `sign_id`, `sign_subkey`, `verify` |
| `StampCommands` | `src/commands/stamp.rs` | `new`, `accept` |
| `ClaimCommands` | `src/commands/claim.rs` | the claim constructors, `delete`, `list`, the claims table |
| `IdCreate` | `src/id/mod.rs` | `create_new`, `create_vanity` with its filter and search loop, `prompt_claim_name_email` |

## Modelling choices

- **Library calls are parameters.** Every `stamp_core`/`stamp_aux` operation the commands call
  is a field of `Collab.Library`. Examples are `build`, `push`, `reset`, `verify`,
  `makeTransaction`, `makeClaim`, the serializers and decoders, `blake3` and base64.
- **Theorems hold for any library.** Each theorem holds for every `Library` value, so nothing
  depends on how the library behaves internally. Where a property needs a library fact, that
  fact is a `requires`. Examples are a serializer whose output decodes back, or `verify`
  succeeding on a signed transaction.
- **The database is a mutable object.** `Store.Db` is a class with two fields, changed in place.
  `identities` is a list of transaction lists, with at most one per identity id. `staged` is a
  map from transaction id to the staged entry. A ghost `effects` list records the order of
  saves, deletes, stages and unstages.
- **Plan, then commit.** Each command that writes has two parts:
  - a pure `...Plan` function computes everything the command decides before writing;
  - a method performs the writes, and its `ensures` gives the new database in terms of the old
    database and the plan.
  Effect order is part of those contracts: apply saves first and only then unstages.
- **Prompts and I/O are inputs.**
  - Prompt answers are inputs of type `string`.
  - Passphrase entry is a sequence of (passphrase, confirmation, retry) answers.
  - The master-key check (`test_master_key`) is a boolean input, `passphraseOk`.
  - Files and stdin are inputs, and so are the clock and key generation.
  - What a command would print is returned as a value. Tables are rows of cells.
- **Integer widths are explicit.** `u8` and `usize` are written out as limits on `nat`, and
  `parse()` is modelled exactly: one optional `+`, then ASCII digits, then a range check. The
  removed count of `dag reset` wraps on `usize`.

### What the staging commands do not check

`src/commands/stage.rs` leaves every admission decision to the library:
- `apply` performs no readiness check of its own. Whether the transaction is admitted is
  decided entirely by the library's `push_transaction`.
- `sign` does not look for a signer that has already signed; it re-stages whatever the
  signing helper returns, whether or not the transaction verifies yet.
- `apply` is not atomic. It saves the identity first and deletes the staged copy afterwards.
  If finding the applied transaction or building its message fails in between, the identity
  is already saved and the staged copy remains.

`Stage.Apply`'s contract states this order for every outcome of its plan.

## Model

| member | source | states |
|---|---|---|
| `Store.Db.IdentitiesByPrefix` | src/db.rs:19-21 | exactly the stored identities whose id starts with the prefix |
| `Store.Db.Search` | src/db.rs:24-26 | exactly the stored identities the library's search predicate accepts |
| `Store.Db.LoadIdentity` | src/db.rs:14-16 | the stored list with that identity id, or None exactly when none is stored |
| `Store.Db.SaveIdentity` | src/db.rs:9-11 | saving replaces the list with the same identity id (or adds it) and reads back by that id; the staged map is untouched; a list without an id is refused and nothing changes |
| `Store.Db.DeleteIdentity` | src/db.rs:33-35 | afterwards no stored identity has that id text, every other identity is kept in order, and the staged map is untouched |
| `Store.Db.StageTransaction` | src/commands/dag.rs:219 | the transaction is staged under its own id for the identity, and stored identities are untouched |
| `Store.Db.DeleteStaged` | src/commands/stage.rs:51 | exactly that staged entry is removed, and stored identities are untouched |
| `Store.Db.LoadStaged` | src/commands/stage.rs:33 | the staged entry under that id, present exactly when staged |
| `Store.Upsert` | src/db.rs:9-11 | the new list is present, lists of other identities are kept, and nothing else is added |
| `Types.AdminKeyByKeyIdStr` | src/util.rs:69 | the first admin key in keychain order with that key id, or None exactly when the keychain has none |
| `Types.AdminKeyByName` | src/util.rs:70 | the first admin key in keychain order with that name, or None exactly when the keychain has none |
| `Types.SubkeyByName` | src/commands/keychain.rs:460 | the first subkey in keychain order with that name, or None exactly when the keychain has none |
| `Types.SubkeyByKeyIdStr` | src/commands/sign.rs:140 | the first subkey in keychain order with that key id, or None exactly when the keychain has none |
| `Util.TextWrapWidth` | src/util.rs:13-15 | the wrap width is the smaller of the terminal width and 120 |
| `Util.YesnoPrompt` | src/util.rs:17-30 | yes exactly when the answer, or the default when nothing is typed, starts with `y` or `Y` |
| `Util.YesnoDefaults` | src/util.rs:17-30 | empty input with an empty default is no; the default decides only when nothing is typed; `yes`/`Yup` are yes, and `no` and ` y` are no |
| `Util.TrimLineOfTerminatedText` | src/util.rs:147 | a line read from a terminal loses all trailing carriage returns and newlines after its text, and nothing else |
| `Util.TrimLineKeepsNewlineBeforeReturn` | src/util.rs:147 | newlines are stripped before carriage returns, so `text\n\r` keeps its newline |
| `Util.TrimEndMatches` | src/util.rs:147 | the result is a prefix of the input, the removed tail is all the given byte, and the result does not end with it |
| `Util.LoadFile` | src/util.rs:180-188 | succeeds exactly when the file can be read |
| `Util.ReadFile` | src/util.rs:138-161 | `-` succeeds exactly when standard input reads without error, and a failed read gives the "Problem reading file" error; a terminal line is only shortened at its end; any other name that reads gives exactly that file's bytes |
| `Util.ReadFileDispatch` | src/util.rs:138-161 | `-` reads stdin: the whole of it when piped, and on a terminal the line with trailing newlines, then carriage returns, trimmed; a `stamp://` name is always an error; any other name goes to `load_file` |
| `Util.TerminalLineReadsBack` | src/util.rs:140-148 | a line typed at a terminal and ended by `\n` or `\r\n` is read back as exactly the text before the line end |
| `Util.IdStr` | src/util.rs:40-44 | succeeds exactly when the id converts to a string, and returns that string |
| `Util.IdStrSplit` | src/util.rs:46-56 | the full and short id, or the error placeholder twice when the id does not convert |
| `Util.Wrap` | src/util.rs:85-89 | adding error context keeps success and the value unchanged |
| `Util.BuildIdentity` | src/util.rs:85-89 | succeeds exactly when the library builds the identity, with that identity |
| `Util.ChooseSigningPath` | src/util.rs:58-83 | the optimal key unless staging with a key named; otherwise an admin key whose key id (preferred) or name matches, and no key exactly when none matches |
| `Util.SignHelper` | src/util.rs:58-83 | the admin-key-not-found error exactly when no admin key matches; the optimal-key signature when not staging or no key is named; otherwise exactly the library's signature by the admin key `ChooseSigningPath` picks (key id before name), with its error mapped |
| `Util.SigningError` | src/util.rs:72-80 | adding the signing-error context keeps success and the signed transaction |
| `Util.WithNewPassphrase` | src/util.rs:114-136 | on success the key is derived from a confirmed passphrase, salted with the given time or else the current time, and the result is what the generator returned for that key |
| `Util.PassphraseConfirmedAfterRetries` | src/util.rs:126-135 | after any number of mismatches answered yes, the first confirmed entry decides the key and the result |
| `Util.PassphraseMismatchDeclined` | src/util.rs:126-130 | a mismatch answered no, after any number answered yes, is the passphrase-mismatch error |
| `Identities.BuildAll` | src/commands/id.rs:59-61 | succeeds exactly when every match builds, in order and one for one |
| `Identities.TryLoadSingleIdentity` | src/commands/id.rs:56-68 | exactly one match is returned as is; none is the no-identities error; several that build are the multiple-identities error |
| `Identities.LoadSingle` | src/commands/id.rs:56-68 | a loaded identity is stored and its id starts with the search |
| `Identities.View` | src/commands/id.rs:152-168 | no match is the no-identities-match error |
| `Identities.ViewClassifiesLikeSingleLoad` | src/commands/id.rs:152-168 | `view` classifies 0, 1 or many matches exactly as single loading does; it succeeds only on one match, and one match that builds and serializes is always shown as that serialization |
| `Identities.PromptNameEmail` | src/commands/id.rs:29-43 | no name and email exactly when the answer is no; both otherwise |
| `Identities.ConvertiblePrefix` | src/commands/id.rs:144-146 | the number of leading identities whose id converts to a string |
| `Identities.DeleteEach` | src/commands/id.rs:143-147 | the loop deletes the matches in order and stops at the first id that does not convert, which is an error; the identities left are exactly those not deleted |
| `Identities.DeleteIdentities` | src/commands/id.rs:128-150 | no match is an error and nothing is deleted; a declined confirmation deletes nothing; confirmed, the matches are deleted in order up to the first id that does not convert, with exactly those deletions recorded; the result is the count of matches when all were deleted, else the id error |
| `Identities.PaintGrid` | src/commands/id.rs:184-190 | a fresh 16x16 grid in which each cell has the colour of the last entry at that position, or black |
| `Identities.RenderGrid` | src/commands/id.rs:191-194 | the output is the grid's rows, each row concatenated, joined by newlines |
| `Identities.Fingerprint` | src/commands/id.rs:180-195 | the fingerprint is the rows of last-entry-wins cells joined by newlines |
| `Identities.FingerprintLastEntryWins` | src/commands/id.rs:184-190 | a later entry overwrites an earlier one at the same position, and a position no entry names stays black |
| `Identities.FingerprintHasSixteenLines` | src/commands/id.rs:191-194 | the fingerprint splits back into exactly its 16 rows |
| `Identities.FirstOrEmpty` | src/commands/id.rs:207-208 | the first value, or the empty string when there is none |
| `Identities.IdentityRow` | src/commands/id.rs:205-217 | the owned mark exactly for an owned identity; the full id when verbose and the short id otherwise; the first name and the first email when there are any |
| `Identities.PrintIdentitiesTable` | src/commands/id.rs:200-220 | one row per identity: the owned mark, the full or short id, the first name and the first email |
| `Dag.FindTransactionByPrefix` | src/commands/dag.rs:37-39 | the first transaction in chain order whose id starts with the prefix, and None exactly when no id does |
| `Dag.RemovedCount` | src/commands/dag.rs:42 | the length before minus the length after when the list did not grow, and a `usize` value in any case |
| `Dag.ResetPlan` | src/commands/dag.rs:33-43 | a prefix no transaction has is an error; on success the list is rewound to the first match and the count is the lengths' difference |
| `Dag.Reset` | src/commands/dag.rs:33-46 | a load or plan error is returned and nothing is saved; when the plan holds and the rewound list has an identity id, the result is the removed count and the rewound list replaces the stored one, with nothing else changed |
| `Dag.Export` | src/commands/dag.rs:48-64 | the first transaction whose id starts with the prefix, serialized, and base64-encoded exactly when asked; no match is an error |
| `Dag.PostSave` | src/commands/dag.rs:66-212 | the message fails when the identity does not build, and otherwise only for a saved (not staged) claim, whose instant-verification values may be missing |
| `Dag.PostSaveSilent` | src/commands/dag.rs:66-212 | `post_save` is silent exactly for the body variants it does not list |
| `Dag.PostSaveStagedPointsAtView` | src/commands/dag.rs:68-209 | for every listed variant, a staged transaction's message names `stamp stage view <id>` |
| `Dag.StagedAdminKeyPointsAtView` | src/commands/dag.rs:70-90 | the same, for the admin-key variants |
| `Dag.StagedClaimPointsAtView` | src/commands/dag.rs:91-150 | the same, for the claim variants |
| `Dag.StagedStampPointsAtView` | src/commands/dag.rs:151-178 | the same, for the stamp variants |
| `Dag.StagedSubkeyPointsAtView` | src/commands/dag.rs:179-208 | the same, for the subkey variants |
| `Dag.PostSaveSyncKey` | src/commands/dag.rs:179-194 | an added secret subkey named `stamp/sync` gets the sync-token message, and any other added key the generic one |
| `Dag.EndsWithView` | src/commands/dag.rs:68 | the staged-transaction hint contains the view command for that transaction |
| `Dag.SaveOrStage` | src/commands/dag.rs:214-232 | a missing identity id is an error before anything changes; staging stores the transaction and, when `post_save` succeeds, returns the list unchanged; saving stores the pushed list and, when `post_save` succeeds, returns it; a failed push, or a pushed list without an id, saves nothing; the printed message is `post_save`'s, and its failure is the command's error |
| `Dag.BodyKind` | src/commands/dag.rs:234-260 | the name `transaction_to_string` (`Dag.TransactionToString`) gives each of the 21 body variants reads back, through `TypeByName`, as that variant's position |
| `Dag.TransactionNamesDistinct` | src/commands/dag.rs:234-260 | two bodies have the same name exactly when they are the same variant |
| `Dag.SameKindSameName` | src/commands/dag.rs:234-260 | the name depends only on the variant |
| `Stage.LoadStagedEntry` | src/commands/stage.rs:31-35 | an id that does not parse is an error, and so is one with no staged entry; otherwise the staged entry |
| `Stage.List` | src/commands/stage.rs:21-28 | exactly the staged transactions of the single loaded identity |
| `Stage.View` | src/commands/stage.rs:30-40 | the load errors are passed on; otherwise the staged transaction's text form |
| `Stage.Delete` | src/commands/stage.rs:42-55 | the entry's existence is checked before the question; declining (the default) changes nothing; confirming removes exactly that entry |
| `Stage.SignPlan` | src/commands/stage.rs:57-68 | a load error is returned as is; the signing identity is the one built from the single saved identity matching the id the entry was staged under; the signed transaction is the staged one signed through `sign_helper` with the named key |
| `Stage.Sign` | src/commands/stage.rs:57-85 | the signed transaction is always written back to staging, ready or not, and the message depends only on readiness; a failed plan changes nothing |
| `Stage.SignMessageTellsReadiness` | src/commands/stage.rs:76-83 | the ready and not-ready messages differ, and the ready one names `stamp stage apply <id>` |
| `Stage.FindById` | src/commands/stage.rs:99-100 | the transaction with that id in the list, present exactly when the list has one |
| `Stage.ApplyPlan` | src/commands/stage.rs:87-96 | a load error is returned as is; the pushed list is the library's push of the staged transaction onto the single saved identity matching the id the entry was staged under, and a push that succeeds always gives the plan |
| `Stage.Apply` | src/commands/stage.rs:87-108 | a failed plan saves and deletes nothing; a plan that holds always saves the pushed list; a missing applied transaction or a failed message is then an error with the staged entry kept; otherwise the message is returned and the staged entry is deleted last |
| `Stage.TransactionRow` | src/commands/stage.rs:115-127 | the id when it converts, the type's name, a signature count that parses back exactly when it fits `usize`, and the ready mark exactly when `verify` succeeds |
| `Stage.PrintTransactionsTable` | src/commands/stage.rs:110-130 | one row per transaction: the variant name, a signature count that parses back, and the ready mark exactly when `verify` succeeds |
| `Keychain.ListedAdmins` | src/commands/keychain.rs:120-131 | exactly the admin keys that pass the search and revocation filters |
| `Keychain.ListedSubkeys` | src/commands/keychain.rs:132-153 | exactly the subkeys that pass the kind and revocation filters |
| `Keychain.CollectAdmins` | src/commands/keychain.rs:121-131 | the loop with its `include` flag pushes exactly the listed admin keys, in order |
| `Keychain.CollectSubkeys` | src/commands/keychain.rs:133-152 | the loop with its `include` flag pushes exactly the listed subkeys, in order |
| `Keychain.List` | src/commands/keychain.rs:114-156 | fails exactly when loading or building fails; otherwise the listed admin keys, then the listed subkeys |
| `Keychain.ListedTypeGating` | src/commands/keychain.rs:120-153 | admin keys appear only for no type or `admin`; subkeys only for no type, `subkeys`, `sign`, `crypto` or `secret`; admin keys come first |
| `Keychain.ListedRevocation` | src/commands/keychain.rs:126-128 | without `revoked`, no listed key is revoked, and every listed key is also listed with it |
| `Keychain.ListedKindExact` | src/commands/keychain.rs:137-145 | `sign`, `crypto` or `secret` lists exactly the subkeys of that kind |
| `Keychain.SearchFiltersAdminsOnly` | src/commands/keychain.rs:123-125 | the search keeps admin keys whose name contains it and does not filter subkeys |
| `Keychain.PrintKeysTable` | src/commands/keychain.rs:400-436 | one row per key with name, key id, type, description, private and (optionally) revoked columns; in choice mode the first column numbers rows from 1 |
| `Keychain.ChooseKeyFrom` | src/commands/keychain.rs:448-457 | a choice is made exactly when the answer parses as a number from 1 to the list length, and it is the key at that 1-based position |
| `Keychain.ChoosingShownNumber` | src/commands/keychain.rs:448-457 | typing the number shown for a key chooses that key |
| `Keychain.MenuChoice` | src/commands/keychain.rs:492-493 | an answer that is not an option is the not-an-option error |
| `Keychain.FindKeysBySearchOrPrompt` | src/commands/keychain.rs:459-510 | an exact name wins without the filter; otherwise the key passes the filter and its id starts with the search; no candidate by search or by type is its own error |
| `Keychain.SingleCandidateTakenWithoutMenu` | src/commands/keychain.rs:502-504 | with no search and one filtered key, that key is taken whatever is answered |
| `Keychain.SeveralCandidatesGoToMenu` | src/commands/keychain.rs:505-507 | with no search and several filtered keys, the menu decides, and `0` is not an option |
| `Keychain.ParseShamir` | src/commands/keychain.rs:375-386 | `M/S` is accepted exactly when both fields parse as `u8` and M <= S; M > S is its own error |
| `Keychain.ShamirPrintedReadsBack` | src/commands/keychain.rs:375-386 | printed `M/S` reads back, and anything after a second `/` is ignored |
| `Keychain.Keyfile` | src/commands/keychain.rs:374-398 | format errors come first; on success the identity loaded, the passphrase was right, and the file is the S shares joined by newlines |
| `Keychain.KeyfileHoldsEachShare` | src/commands/keychain.rs:394-397 | the key file splits back into exactly S shares |
| `Keychain.ParseRevocationReason` | src/commands/keychain.rs:212-217 | the three known words map to their reasons, and every other string is unspecified |
| `Keychain.FindKeyTarget` | src/commands/keychain.rs:163-166 | an admin key matching by name or id wins over a subkey, a name match is preferred, and there is no target exactly when nothing matches |
| `Keychain.RevokeBody` | src/commands/keychain.rs:218-228 | an admin target gets an admin-key revocation and a subkey target a subkey revocation, with the parsed reason |
| `Keychain.MakeTransaction` | src/commands/keychain.rs:176-188 | the library's transaction, with error context added |
| `Keychain.UpdatePlan` | src/commands/keychain.rs:158-192 | an unknown key is an error; on success the passphrase was right and the edit of the found key, with the new name and description, is signed through `sign_helper` |
| `Keychain.RevokePlan` | src/commands/keychain.rs:194-234 | an unknown key is an error; on success the passphrase was right and the revocation of the found key, with the parsed reason, is signed through `sign_helper` |
| `Keychain.TargetedPlan` | src/commands/keychain.rs:158-234 | `update` and `revoke`: an unknown key is an error; on success the passphrase was right and the transaction for the found target is signed through `sign_helper` |
| `Keychain.RevokePrefersAdminKey` | src/commands/keychain.rs:212-229 | when an admin key matches, the revocation is an admin-key revocation |
| `Keychain.LastSubkeyNamed` | src/commands/keychain.rs:241-251 | the last subkey with exactly that name, and None exactly when there is none |
| `Keychain.DeleteSubkeyPlan` | src/commands/keychain.rs:236-269 | no subkey with that name is an error; for a key other than a secret key, declining the question always gives no transaction; otherwise the passphrase was right and the deletion of the last subkey with that name is signed through `sign_helper` |
| `Keychain.NewKeyBody` | src/commands/keychain.rs:75-108 | exactly the four key types are accepted, with a body of that kind carrying the new key's id, the given name and the given description |
| `Keychain.NewKeyPlan` | src/commands/keychain.rs:67-112 | a wrong passphrase and an unknown type are errors; on success the new key's body is made into a transaction on the loaded identity and signed through `sign_helper` |
| `Keychain.Commit` | src/commands/dag.rs:214-232 | a failed plan changes nothing; a plan that holds is staged or saved as in `save_or_stage`, with the same result and message |
| `Sign.SignTransaction` | src/commands/sign.rs:20-32 | the message must be readable and the passphrase right; the result is a SignV1 of the message's Blake3 hash signed through `sign_helper` |
| `Sign.SignIdPlan` | src/commands/sign.rs:20-32 | `sign_id`'s decisions on the single loaded identity, as in `SignTransaction` |
| `Sign.WrittenSignature` | src/commands/sign.rs:40-49 | the serialized transaction, base64-encoded exactly when asked |
| `Sign.SignId` | src/commands/sign.rs:20-51 | staging always produces `post_save`'s message, stores the signed transaction and writes nothing; otherwise the signature is written and the database is unchanged |
| `Sign.SignSubkey` | src/commands/sign.rs:53-79 | a sign subkey found by search or menu signs the message, attached or detached as asked, and the serialized signature is base64-encoded exactly when asked |
| `Sign.RawOrBase64` | src/commands/sign.rs:87-99 | a decoder is tried on the raw bytes, then on their base64 decoding |
| `Sign.DecodeSignatureFile` | src/commands/sign.rs:87-99 | transaction decoding is tried before signature decoding, and the file is unreadable only when all four attempts fail |
| `Sign.TransactionReadingWins` | src/commands/sign.rs:87-99 | bytes that decode both ways are read as an identity signature |
| `Sign.VerifyIdentity` | src/commands/sign.rs:100-128 | a message is required, a body other than SignV1 is invalid, and the signature is valid exactly when the stored creator verifies it and the Blake3 hash of the message matches |
| `Sign.SubkeyVerdict` | src/commands/sign.rs:142-170 | valid exactly when the subkey check passes, and otherwise invalid with the check's reason |
| `Sign.VerifySubkey` | src/commands/sign.rs:129-155 | the signing key must be in the stored signer's keychain, and a detached signature needs the message |
| `Sign.Verify` | src/commands/sign.rs:81-172 | an unreadable file is an error; an invalid signature is an Ok verdict; each verdict matches the kind of file decoded |
| `Sign.SignedIdentityVerifies` | src/commands/sign.rs:20-51 | a signature written by `sign_id` verifies as valid against the same message |
| `Sign.SavedSignerVerifies` | src/commands/sign.rs:106-124 | a SignV1 by a saved identity over the message's hash verifies as valid |
| `Sign.WrittenSignatureReadsBack` | src/commands/sign.rs:40-49 | a written identity signature decodes back to the signed transaction |
| `Sign.VerifyReadsIdentitySignature` | src/commands/sign.rs:100-105 | a file holding an identity signature is checked as one |
| `Sign.SignedSubkeyVerifies` | src/commands/sign.rs:53-79 | a signature written by `sign_subkey` verifies as valid, given the message exactly when it is detached |
| `Sign.AlteredMessageIsInvalid` | src/commands/sign.rs:115-123 | the same signature is valid for the signed message and invalid for a message with a different hash |
| `StampCommands.FindClaimByPrefix` | src/commands/stamp.rs:16-22 | a claim whose id starts with the prefix, skipping claims whose id does not convert, and None exactly when no claim qualifies |
| `StampCommands.FoundClaimIsFirst` | src/commands/stamp.rs:16-22 | the claim found is the first qualifying one in the identity's order |
| `StampCommands.ClaimToStamp` | src/commands/stamp.rs:12-25 | an unknown claim owner is an error, and so is no matching claim; otherwise the owner's first matching claim |
| `StampCommands.ParseConfidence` | src/commands/stamp.rs:41-48 | exactly the five words parse, and any other word is an error |
| `StampCommands.ConfidenceWordsReadBack` | src/commands/stamp.rs:41-48 | each level's word parses back to that level, and different levels have different words |
| `StampCommands.Expiry` | src/commands/stamp.rs:49-56 | no expiry unless the answer is yes, and then the typed time must parse |
| `StampCommands.NoExpiryByDefault` | src/commands/stamp.rs:49-56 | pressing return gives no expiry |
| `StampCommands.New` | src/commands/stamp.rs:12-66 | a wrong passphrase is an error after all answers are valid; on success the stamp is made over the found claim and serialized |
| `StampCommands.AcceptPlan` | src/commands/stamp.rs:73-89 | the stamper must be stored locally; on success the library accepts the deserialized stamp onto our identity |
| `StampCommands.Accept` | src/commands/stamp.rs:73-93 | a failed plan changes nothing; on success the updated identity is saved and nothing else changes |
| `ClaimCommands.MaybePrivateOf` | src/commands/claim.rs:49-59 | private exactly when the flag is set, and either way holding the given value |
| `ClaimCommands.ParseRelationType` | src/commands/claim.rs:124-127 | only `org` is accepted, as organization member |
| `ClaimCommands.ClaimSpecFor` | src/commands/claim.rs:61-133 | an id that does not parse is an error for identity and relation claims; text claims hold the value, private exactly when asked |
| `ClaimCommands.NewClaimPlan` | src/commands/claim.rs:31-47 | a wrong passphrase is an error; on success the claim is made on the loaded identity |
| `ClaimCommands.NewPhotoPlan` | src/commands/claim.rs:86-102 | a photo over 8192 bytes is rejected before the passphrase is tested; on success the photo claim is made |
| `ClaimCommands.PhotoCutoffIsInclusive` | src/commands/claim.rs:90-93 | 8192 bytes is accepted and 8193 is rejected |
| `ClaimCommands.SaveChanged` | src/commands/claim.rs:41-47 | a failed plan changes nothing; otherwise the changed identity is saved |
| `ClaimCommands.DeleteSearch` | src/commands/claim.rs:151-158 | a claim whose id starts with the prefix; an id that does not convert is an error |
| `ClaimCommands.DeleteAndStampAgree` | src/commands/claim.rs:151-158 | when all ids convert, `claim delete` finds the same claim as `stamp new` |
| `ClaimCommands.FindClaimToDelete` | src/commands/claim.rs:151-158 | the loop with `break` computes exactly the search |
| `ClaimCommands.DeletePlan` | src/commands/claim.rs:149-165 | no matching claim is an error; declining leaves the identity unchanged; otherwise the found claim is removed |
| `ClaimCommands.Delete` | src/commands/claim.rs:149-169 | a failed or declined plan changes nothing; otherwise the identity without the claim is saved |
| `ClaimCommands.StringCell` | src/commands/claim.rs:177-188 | a private value without the key shows `<private>`; otherwise the value |
| `ClaimCommands.PhotoCell` | src/commands/claim.rs:189-202 | a private photo without the key shows `<private>`; otherwise its length in bytes |
| `ClaimCommands.RelationCell` | src/commands/claim.rs:213-225 | a private relation shows `******` |
| `ClaimCommands.TypeAndValue` | src/commands/claim.rs:203-229 | the type is `<unknown>` exactly for domain and URL claims; a name, email, PGP or address claim shows its text cell |
| `ClaimCommands.ClaimRow` | src/commands/claim.rs:175-237 | the type cell is `<unknown>` exactly for domain and URL claims, and the stamp count parses back |
| `ClaimCommands.PrintClaimsTable` | src/commands/claim.rs:171-240 | one row per claim, in order |
| `ClaimCommands.SealedValuesHidden` | src/commands/claim.rs:175-229 | without the key, two claims that differ only in sealed values show identical rows, so nothing private is shown |
| `ClaimCommands.PublicPhotoShowsLength` | src/commands/claim.rs:196 | a public photo shows `<N bytes>` with N its length, and N parses back as a `usize` |
| `ClaimCommands.List` | src/commands/claim.rs:135-147 | load errors are passed on; listing private values needs the right passphrase; past those, it succeeds exactly when the identity builds, with the build error otherwise; one row per claim |
| `IdCreate.VanityFilter.Filter` | src/id/mod.rs:63-85 | each call raises the counter by exactly one; a progress line is written exactly at multiples of 100000; the answer is `Accepts`, and an accepted id is announced |
| `IdCreate.NoConstraints` | src/id/mod.rs:68-82 | no regex, no prefix and no needles accept every id |
| `IdCreate.MissingNeedleRefused` | src/id/mod.rs:78-82 | an id missing any one needle is refused |
| `IdCreate.ProgressCount` | src/id/mod.rs:64-67 | over n calls there are exactly n / 100000 progress lines |
| `IdCreate.Search` | src/id/mod.rs:92-102 | the loop stops at the first accepted candidate, and the filter is called once per candidate tried |
| `IdCreate.PromptClaimNameEmail` | src/id/mod.rs:9-27 | declined, the identity is returned unchanged; accepted, a name claim and then an email claim are added |
| `IdCreate.NameEmailByDefault` | src/id/mod.rs:11 | pressing return adds both claims |
| `IdCreate.CreateNew` | src/id/mod.rs:38-54 | the identity is created under the confirmed passphrase's key at the current time, then offered the name and email claims |
| `IdCreate.VanityIdentity` | src/id/mod.rs:104-110 | the key is salted with the accepted candidate's time, and the identity is built with that candidate's id |
| `IdCreate.CreateVanity` | src/id/mod.rs:56-116 | a regex that does not compile is an error before any search; when some candidate passes the filter, the result is the identity made from the first such candidate and exactly that many were tried; when none passes, all were tried and the result is an error |

## Left out

- `stamp_core` and `stamp_aux` internals are not modelled. This covers transaction hashing and
  signing, `push_transaction`, `reset`, `verify`, policy checks, building an identity, and the
  database. They are the fields of `Collab.Library`, and `Store.Db` stands for the database.
- Storage failures are not modelled. Saving, staging and deleting always succeed; the only
  failure modelled is a transaction list without an identity id.
- Terminal I/O and dialoguer prompts are inputs; colours, prettytable layout and `text_wrap`'s
  line breaking are not modelled. Tables are modelled as rows of cells.
- Key derivation and the master-key test are not modelled. The test is the boolean
  `passphraseOk`.
- `rgb_to_256` (floating-point colour distance) is not modelled. The colour mapping is an input
  to `Identities.Fingerprint`.
- `keychain passwd` (Shamir recovery and re-encryption) and `keychain sync-token` are left out:
  they only compose library calls. The Shamir split in `keyfile` is the input `dealer`.
- `src/main.rs`, networking, sync, agent, messages, config, debug, `src/claim/mod.rs` and
  `src/key/mod.rs` are left out. They are argument wiring, async networking, or one-call
  wrappers.
- `dump_id`, publishing, `mem_unlock` and re-keying the alpha keypair are left out. They are
  output and memory handling with no decision in the front end.
- `IdCreate.CreateVanity`: the endless search loop is run over a finite sequence of candidates,
  because key and id generation are inputs. Running out of candidates is an input error
  standing for a search that has not finished. Errors from generating a keypair or an id inside
  the loop are not modelled.
- `commands/id.rs`'s own `create_vanity` and `post_create` variant is not part of this model.
  It uses the auxiliary library; the model follows `src/id/mod.rs`.
- `Dag.RemovedCount`: where a debug build would panic on a grown list, the model wraps at the
  `usize` width.
- `Identities.View`: the view itself states only the no-match error. Its agreement with single
  loading is `Identities.ViewClassifiesLikeSingleLoad`.
- `Identities.PrintIdentitiesTable`: the creation-date column is not modelled.
- `Stage.List`: the staged transactions are a set, so their order is not modelled.
- `Stage.PrintTransactionsTable`: the creation-date column is not modelled.
- `Keychain.PrintKeysTable`: the menu numbering is stated only for rows below `usize`'s limit.
- `ClaimCommands.PrintClaimsTable`: rows are stated through `ClaimRow`. The cells for ids and
  stamps are not given individual meaning beyond masking.
- Decryption failures of private claim values when the key is present are not modelled. A
  private value shown with the key is its plain value.
- `claim.rs` and `stamp.rs` use the library through the older identity API, building
  identities with `build_identity`. They are modelled through the same `Library` fields.
- The "Unable to generate identity id" branch of `sign id` is not modelled. An identity found by
  an id prefix always has an identity id, so `Sign.SignIdPlan` reads it without a failure case.
- `ClaimCommands.DeletePlan` has no passphrase input. `claim delete` asks for the passphrase
  but never tests it, and the library's `remove_claim` is a field of `Library`.
- The SVG fingerprint format is not modelled. It is produced entirely by the auxiliary
  library; only the terminal grid is modelled.
- `Hash::new_blake3` failing is not modelled. `blake3` is a total library function.
- `post_save` has no message for `RevokeSubkeyV1`; the model follows the code.
- `Dag.InstantClaimMessage`: `post_save` indexes the instant-verification values directly
  (src/commands/dag.rs:105-106 and 118-121), which panics when the library returns fewer
  than two (domain) or four (URL). The model returns an error there instead.
- `ClaimCommands.MaybePrivateOf`: sealing is not modelled and cannot fail, so the "There was
  a problem creating the private claim" error (src/commands/claim.rs:53-54) never arises.
- `Keychain.NewKeyPlan`: the new key's id is an input, so the "Error generating key" and
  "Unable to generate key" failures of `keychain new` (src/commands/keychain.rs:77-98) are not
  modelled.
- `Util.LoadFile`: a file is either readable or not, so the "Problem reading file" error after a
  successful open (src/util.rs:186) is folded into the "Unable to open file" error.
- `Keychain.Keyfile`: the failures of `write_file` (src/util.rs:163-177: opening, writing, or
  writing to stdout) are not modelled; the output is the bytes written.
- `Sign.WrittenSignature`: `write_file`'s failures are not modelled; it gives the bytes written.
- `Sign.SignId`: `write_file`'s failures are not modelled; writing the signature always succeeds.
- `Sign.SignSubkey`: `write_file`'s failures are not modelled; writing the signature always
  succeeds.
- `ClaimCommands.ClaimRow`: the Created column (src/commands/claim.rs:230) is not modelled.
- Sealed values are not modelled as ciphertext: a sealed value holds its plain value, and
  only the table cells hide it.
