/** The front end's shared decision rules: how a yes/no answer is read, how a line typed at
    the terminal is trimmed, where `read_file` takes its bytes from, which signing path
    `sign_helper` takes, how a new passphrase is confirmed, and how ids are printed. */
module Util {
  import opened Common
  import opened Types
  import opened Collab

  // ---------------------------------------------------------------- text width

  /** The widest the front end ever wraps text. */
  const TERM_MAXWIDTH: nat := 120

  /** The width `text_wrap` fills to: the terminal's width, capped at `TERM_MAXWIDTH`. */
  function TextWrapWidth(termWidth: nat): (w: nat)
    ensures w <= TERM_MAXWIDTH && w <= termWidth
    ensures w == TERM_MAXWIDTH || w == termWidth
  {
    if termWidth < TERM_MAXWIDTH then termWidth else TERM_MAXWIDTH
  }

  // ---------------------------------------------------------------- yes/no answers

  /** What the prompt hands back: the typed line, or the prompt's default when the line is
      empty. */
  function PromptAnswer(typed: string, default: string): string {
    if typed == "" then default else typed
  }

  /** `yesno_prompt`: yes exactly when the answer begins with `y` or `Y`. */
  function YesnoPrompt(typed: string, default: string): (yes: bool)
    ensures yes <==> StartsWith(PromptAnswer(typed, default), "y") || StartsWith(PromptAnswer(typed, default), "Y")
  {
    var answer := PromptAnswer(typed, default);
    if |answer| > 0 then answer[0] == 'y' || answer[0] == 'Y' else false
  }

  /** An empty answer reads as no; pressing return takes the default, so it reads as yes under
      a `y` default and as no under an `n`/`N` default; a typed answer ignores the default. */
  lemma YesnoDefaults(typed: string, d1: string, d2: string)
    ensures !YesnoPrompt("", "")
    ensures YesnoPrompt("", "y") && !YesnoPrompt("", "n") && !YesnoPrompt("", "N")
    ensures typed != "" ==> YesnoPrompt(typed, d1) == YesnoPrompt(typed, d2)
    ensures YesnoPrompt("yes", d1) && YesnoPrompt("Yup", d1) && !YesnoPrompt("no", d1) && !YesnoPrompt(" y", d1)
  {
    assert "yes"[..1] == "y";
    assert "Yup"[..1] == "Y";
    assert " y"[..1] == " ";
  }

  // ---------------------------------------------------------------- reading input

  const NEWLINE: bv8 := 10
  const CARRIAGE_RETURN: bv8 := 13

  /** `trim_end_matches(c)` on bytes: drops every trailing `b`. */
  function TrimEndMatches(s: seq<bv8>, b: bv8): (r: seq<bv8>)
    ensures |r| <= |s| && r == s[..|r|]
    ensures |r| == 0 || r[|r| - 1] != b
    ensures forall i :: |r| <= i < |s| ==> s[i] == b
    decreases |s|
  {
    if |s| > 0 && s[|s| - 1] == b then TrimEndMatches(s[..|s| - 1], b) else s
  }

  /** A terminal line as `read_file("-")` returns it: trailing newlines dropped first, then
      trailing carriage returns. */
  function TrimLine(line: seq<bv8>): seq<bv8> {
    TrimEndMatches(TrimEndMatches(line, NEWLINE), CARRIAGE_RETURN)
  }

  function Repeat(b: bv8, n: nat): (r: seq<bv8>)
    ensures |r| == n && forall i :: 0 <= i < n ==> r[i] == b
  {
    if n == 0 then [] else Repeat(b, n - 1) + [b]
  }

  lemma {:induction false} TrimEndMatchesRepeat(s: seq<bv8>, b: bv8, n: nat)
    ensures TrimEndMatches(s + Repeat(b, n), b) == TrimEndMatches(s, b)
    decreases n
  {
    if n > 0 {
      var t := s + Repeat(b, n);
      assert t[..|t| - 1] == s + Repeat(b, n - 1);
      TrimEndMatchesRepeat(s, b, n - 1);
    } else {
      assert s + Repeat(b, 0) == s;
    }
  }

  /** A line typed as text, any number of carriage returns, then any number of newlines comes
      back as the text, so `\n` and `\r\n` line ends are both removed. */
  lemma TrimLineOfTerminatedText(text: seq<bv8>, crs: nat, newlines: nat)
    requires |text| == 0 || (text[|text| - 1] != NEWLINE && text[|text| - 1] != CARRIAGE_RETURN)
    ensures TrimLine(text + Repeat(CARRIAGE_RETURN, crs) + Repeat(NEWLINE, newlines)) == text
  {
    var withReturns := text + Repeat(CARRIAGE_RETURN, crs);
    TrimEndMatchesRepeat(withReturns, NEWLINE, newlines);
    assert TrimEndMatches(withReturns, NEWLINE) == withReturns;
    TrimEndMatchesRepeat(text, CARRIAGE_RETURN, crs);
  }

  /** Newlines are trimmed before carriage returns, so a `\n\r` ending keeps its newline. */
  lemma TrimLineKeepsNewlineBeforeReturn(text: seq<bv8>)
    ensures TrimLine(text + [NEWLINE, CARRIAGE_RETURN]) == TrimEndMatches(text + [NEWLINE], CARRIAGE_RETURN)
    ensures TrimLine(text + [NEWLINE, CARRIAGE_RETURN]) == text + [NEWLINE]
  {
    var s := text + [NEWLINE, CARRIAGE_RETURN];
    assert s[..|s| - 1] == text + [NEWLINE];
  }

  /** Standard input: whether it is a terminal, the first line typed at it, everything piped
      into it, and the error reading it reports, if it fails (an I/O error, or a typed line
      that is not UTF-8). */
  datatype Stdin = Stdin(isTerminal: bool, line: seq<bv8>, all: seq<bv8>, readError: Option<string>)

  /** `load_file`: the file's bytes, or an error when it cannot be opened or read. */
  function LoadFile(filename: string, files: string -> Option<seq<bv8>>): (r: Result<seq<bv8>, CliError>)
    ensures r.Ok? <==> files(filename).Some?
  {
    match files(filename)
    case Some(bytes) => Ok(bytes)
    case None => Err(LibraryError("Unable to open file: " + filename))
  }

  /** `read_file`: `-` reads standard input, `stamp://` names are refused, anything else is
      a file. */
  function ReadFile(filename: string, stdin: Stdin, files: string -> Option<seq<bv8>>): (r: Result<seq<bv8>, CliError>)
    ensures r.Ok? && filename != "-" ==> files(filename) == Some(r.value)
    ensures filename == "-" ==> (r.Ok? <==> stdin.readError.None?)
    ensures filename == "-" && stdin.readError.Some? ==>
      r == Err(LibraryError("Problem reading file: " + filename + ": " + stdin.readError.value))
    ensures filename == "-" && stdin.isTerminal && r.Ok? ==> r.value <= stdin.line
  {
    if filename == "-" then
      if stdin.readError.Some? then Err(LibraryError("Problem reading file: " + filename + ": " + stdin.readError.value))
      else if stdin.isTerminal then Ok(TrimLine(stdin.line))
      else Ok(stdin.all)
    else if StartsWith(filename, "stamp://") then Err(StampUrlUnsupported)
    else LoadFile(filename, files)
  }

  /** Whatever standard input and the file system hold, `stamp://` is refused, other names
      are loaded from the file system, piped input is taken whole, and a terminal line comes
      back without its line end. */
  lemma ReadFileDispatch(filename: string, stdin: Stdin, files: string -> Option<seq<bv8>>)
    ensures StartsWith(filename, "stamp://") ==> ReadFile(filename, stdin, files) == Err(StampUrlUnsupported)
    ensures filename != "-" && !StartsWith(filename, "stamp://") ==>
      ReadFile(filename, stdin, files) == LoadFile(filename, files)
    ensures filename == "-" && stdin.readError.None? && !stdin.isTerminal ==>
      ReadFile(filename, stdin, files) == Ok(stdin.all)
    ensures filename == "-" && stdin.readError.None? && stdin.isTerminal ==>
      ReadFile(filename, stdin, files) == Ok(TrimLine(stdin.line))
  {
    if StartsWith(filename, "stamp://") {
      assert filename[..1] == "s";
    }
  }

  /** A typed line ending in `\n` or `\r\n` is read back as the text before it. */
  lemma TerminalLineReadsBack(stdin: Stdin, files: string -> Option<seq<bv8>>, text: seq<bv8>, crlf: bool)
    requires stdin.isTerminal && stdin.readError.None?
    requires |text| == 0 || (text[|text| - 1] != NEWLINE && text[|text| - 1] != CARRIAGE_RETURN)
    requires stdin.line == text + (if crlf then [CARRIAGE_RETURN, NEWLINE] else [NEWLINE])
    ensures ReadFile("-", stdin, files) == Ok(text)
  {
    var crs := if crlf then 1 else 0;
    assert stdin.line == text + Repeat(CARRIAGE_RETURN, crs) + Repeat(NEWLINE, 1);
    TrimLineOfTerminatedText(text, crs, 1);
  }

  // ---------------------------------------------------------------- ids

  /** `id_str!`: an id's string form, or an error when it does not convert. */
  function IdStr(id: ObjectId): (r: Result<string, CliError>)
    ensures r.Ok? <==> id.text.Some?
    ensures r.Ok? ==> r.value == id.text.value
    ensures r.Err? ==> r.error == IdNotConvertible
  {
    match id.text
    case Some(s) => Ok(s)
    case None => Err(IdNotConvertible)
  }

  const ID_ERROR_TEXT := "<error serializing ID>"

  /** `id_str_split!`: the full and the short form of an id, or the error text in both when
      the id does not convert; it never fails. */
  function IdStrSplit(lib: Library, id: ObjectId): (r: (string, string))
    ensures id.text.None? ==> r == (ID_ERROR_TEXT, ID_ERROR_TEXT)
    ensures id.text.Some? ==> r.0 == id.text.value && r.1 == lib.shortId(id.text.value)
  {
    match id.text
    case Some(full) => (full, lib.shortId(full))
    case None => (ID_ERROR_TEXT, ID_ERROR_TEXT)
  }

  /** A library failure reported under the front end's `context`. */
  function Wrap<T>(r: Result<T, string>, context: string): (w: Result<T, CliError>)
    ensures w.Ok? <==> r.Ok?
    ensures w.Ok? ==> w.value == r.value
  {
    match r
    case Ok(v) => Ok(v)
    case Err(e) => Err(LibraryError(context + e))
  }

  /** `build_identity` with the library's error wrapped. */
  function BuildIdentity(lib: Library, t: Transactions): (r: Result<Identity, CliError>)
    ensures r.Ok? <==> lib.build(t).Ok?
    ensures r.Ok? ==> r.value == lib.build(t).value
  {
    match lib.build(t)
    case Ok(identity) => Ok(identity)
    case Err(e) => Err(LibraryError("Problem building identity: " + e))
  }

  // ---------------------------------------------------------------- signing

  /** The way `sign_helper` signs. */
  datatype SigningPath = WithAdminKey(key: AdminKey) | OptimalKey | NoAdminKey

  /** A staged transaction signed with a named key uses that admin key, looked up by key id
      first and by name second; everything else uses the library's optimal key. */
  function ChooseSigningPath(kc: Keychain, stage: bool, signWith: Option<string>): (p: SigningPath)
    ensures p.OptimalKey? <==> !stage || signWith.None?
    ensures p.WithAdminKey? ==> p.key in kc.adminKeys && (p.key.keyId == signWith.value || p.key.name == signWith.value)
    ensures p.NoAdminKey? <==>
      (stage && signWith.Some? && forall k :: k in kc.adminKeys ==> k.keyId != signWith.value && k.name != signWith.value)
    ensures p.WithAdminKey? && (exists k :: k in kc.adminKeys && k.keyId == signWith.value) ==>
      p.key.keyId == signWith.value
  {
    if stage && signWith.Some? then
      match AdminKeyByKeyIdStr(kc, signWith.value)
      case Some(k) => WithAdminKey(k)
      case None =>
        match AdminKeyByName(kc, signWith.value)
        case Some(k) => WithAdminKey(k)
        case None => NoAdminKey
    else OptimalKey
  }

  function SigningError(r: Result<Transaction, string>): (s: Result<Transaction, CliError>)
    ensures s.Ok? <==> r.Ok?
    ensures s.Ok? ==> s.value == r.value
  {
    match r
    case Ok(tx) => Ok(tx)
    case Err(e) => Err(LibraryError("Error signing transaction: " + e))
  }

  /** `sign_helper`. The master key is the library's concern and is not modelled. */
  function SignHelper(lib: Library, identity: Identity, tx: Transaction, stage: bool, signWith: Option<string>)
    : (r: Result<Transaction, CliError>)
    ensures r == Err(AdminKeyNotFound) <==> ChooseSigningPath(identity.keychain, stage, signWith).NoAdminKey?
    ensures !stage || signWith.None? ==> r == SigningError(lib.signOptimal(identity, tx))
    ensures r.Ok? && stage && signWith.Some? ==>
      exists k :: k in identity.keychain.adminKeys && (k.keyId == signWith.value || k.name == signWith.value) &&
        lib.signWithAdmin(tx, k) == Ok(r.value)
    ensures ChooseSigningPath(identity.keychain, stage, signWith).WithAdminKey? ==>
      r == SigningError(lib.signWithAdmin(tx, ChooseSigningPath(identity.keychain, stage, signWith).key))
  {
    match ChooseSigningPath(identity.keychain, stage, signWith)
    case WithAdminKey(k) => SigningError(lib.signWithAdmin(tx, k))
    case OptimalKey => SigningError(lib.signOptimal(identity, tx))
    case NoAdminKey => Err(AdminKeyNotFound)
  }

  // ---------------------------------------------------------------- new passphrases

  /** One round of `with_new_passphrase`'s prompts: the passphrase, its confirmation, and the
      answer to "Try again?" that is read when the two differ. */
  datatype PassphraseEntry = PassphraseEntry(passphrase: string, confirmation: string, retry: string)

  predicate Confirmed(e: PassphraseEntry) { e.passphrase == e.confirmation }

  predicate Retried(e: PassphraseEntry) { !Confirmed(e) && YesnoPrompt(e.retry, "y") }

  /** `with_new_passphrase`: prompts until a passphrase is confirmed or the user declines to try
      again, then derives the master key, salted with `now` or else the current time `clock`,
      and calls `gen`. Running out of typed rounds is an input error. */
  function WithNewPassphrase<T>(entries: seq<PassphraseEntry>, now: Option<Timestamp>, clock: Timestamp,
                                gen: (MasterKey, Timestamp) -> Result<T, CliError>)
    : (r: Result<(T, MasterKey), CliError>)
    ensures r.Ok? ==> r.value.1.salt == (if now.Some? then now.value else clock)
    ensures r.Ok? ==> exists i :: 0 <= i < |entries| && Confirmed(entries[i]) && r.value.1.passphrase == entries[i].passphrase
    ensures r.Ok? ==> gen(r.value.1, r.value.1.salt) == Ok(r.value.0)
    decreases |entries|
  {
    if |entries| == 0 then Err(InputError)
    else if !Confirmed(entries[0]) then
      if YesnoPrompt(entries[0].retry, "y") then
        var r := WithNewPassphrase(entries[1..], now, clock, gen);
        assert r.Ok? ==> exists i :: 1 <= i < |entries| && Confirmed(entries[i]) && r.value.1.passphrase == entries[i].passphrase by {
          if r.Ok? {
            var i :| 0 <= i < |entries[1..]| && Confirmed(entries[1..][i]) && r.value.1.passphrase == entries[1..][i].passphrase;
            assert entries[i + 1] == entries[1..][i];
          }
        }
        r
      else Err(PassphraseMismatch)
    else
      var ts := if now.Some? then now.value else clock;
      var key := MasterKey(entries[0].passphrase, ts);
      var res :- gen(key, ts);
      Ok((res, key))
  }

  /** After `k` mismatched rounds that were retried, a confirmed round derives its key and
      hands it to `gen`. */
  lemma {:induction false} PassphraseConfirmedAfterRetries<T>(entries: seq<PassphraseEntry>, k: nat, now: Option<Timestamp>,
                                                              clock: Timestamp, gen: (MasterKey, Timestamp) -> Result<T, CliError>)
    requires k < |entries|
    requires forall j :: 0 <= j < k ==> Retried(entries[j])
    requires Confirmed(entries[k])
    ensures var ts := if now.Some? then now.value else clock;
      var key := MasterKey(entries[k].passphrase, ts);
      WithNewPassphrase(entries, now, clock, gen) ==
        (if gen(key, ts).Ok? then Ok((gen(key, ts).value, key)) else Err(gen(key, ts).error))
    decreases k
  {
    if k > 0 {
      PassphraseConfirmedAfterRetries(entries[1..], k - 1, now, clock, gen);
    }
  }

  /** After `k` retried mismatches, a mismatch the user declines to retry is the
      "Passphrase mismatch" error, and `gen` is never called. */
  lemma {:induction false} PassphraseMismatchDeclined<T>(entries: seq<PassphraseEntry>, k: nat, now: Option<Timestamp>,
                                                         clock: Timestamp, gen: (MasterKey, Timestamp) -> Result<T, CliError>)
    requires k < |entries|
    requires forall j :: 0 <= j < k ==> Retried(entries[j])
    requires !Confirmed(entries[k]) && !YesnoPrompt(entries[k].retry, "y")
    ensures WithNewPassphrase(entries, now, clock, gen) == Err(PassphraseMismatch)
    decreases k
  {
    if k > 0 {
      PassphraseMismatchDeclined(entries[1..], k - 1, now, clock, gen);
    }
  }
}
