/** Creating identities: a new identity under a freshly confirmed passphrase, and a vanity
    identity, whose id is searched for until it passes a filter (a regular expression, a
    prefix, and substrings it must contain). The filter is an object with a call counter that
    reports progress every 100000 ids. Key generation and the clock are inputs: the search runs
    over the candidates they produce, in order. */
module IdCreate {
  import opened Common
  import opened Types
  import opened Collab
  import opened Util

  /** How often the search reports progress, in ids tried. */
  const PROGRESS_EVERY: nat := 100000

  /** A compiled regular expression, by the strings it matches. */
  datatype Regex = Regex(isMatch: string -> bool)

  /** The ids the filter lets through: the regex (when given) matches, the prefix (when given)
      starts the id, and every needle occurs in it. */
  predicate Passes(regex: Option<Regex>, prefix: Option<string>, contains: seq<string>, idStr: string) {
    (regex.None? || regex.value.isMatch(idStr)) &&
    (prefix.None? || StartsWith(idStr, prefix.value)) &&
    forall i :: 0 <= i < |contains| ==> Contains(idStr, contains[i])
  }

  /** The vanity filter: the constraints it checks and the number of ids it has seen. The lines
      it writes to standard error are kept in `log`. */
  class VanityFilter {
    const regex: Option<Regex>
    const prefix: Option<string>
    const contains: seq<string>
    var counter: nat
    var log: seq<string>

    constructor (regex: Option<Regex>, prefix: Option<string>, contains: seq<string>)
      ensures this.regex == regex && this.prefix == prefix && this.contains == contains
      ensures counter == 0 && log == []
    {
      this.regex := regex;
      this.prefix := prefix;
      this.contains := contains;
      counter := 0;
      log := [];
    }

    /** The ids this filter lets through. */
    predicate Accepts(idStr: string)
      reads this
    {
      Passes(regex, prefix, contains, idStr)
    }

    /** The progress line for the `n`th id, if one is due. */
    static function ProgressLines(n: nat): seq<string> {
      if n % PROGRESS_EVERY == 0 then ["Searched " + NatToString(n) + " IDs..."] else []
    }

    /** One call of the filter: the counter goes up by one, accepted or not; a progress line is
        written when the count reaches a multiple of 100000; the answer is `Accepts`, and an
        accepted id is announced. */
    method Filter(idStr: string) returns (accepted: bool)
      modifies this
      ensures counter == old(counter) + 1
      ensures accepted <==> Accepts(idStr)
      ensures log == old(log) + ProgressLines(counter) + (if accepted then ["Found it! " + idStr] else [])
    {
      counter := counter + 1;
      if counter % PROGRESS_EVERY == 0 {
        log := log + ["Searched " + NatToString(counter) + " IDs..."];
      }
      if regex.Some? && !regex.value.isMatch(idStr) {
        return false;
      }
      if prefix.Some? && !StartsWith(idStr, prefix.value) {
        return false;
      }
      for i := 0 to |contains|
        invariant forall j :: 0 <= j < i ==> Contains(idStr, contains[j])
      {
        if !Contains(idStr, contains[i]) {
          return false;
        }
      }
      log := log + ["Found it! " + idStr];
      return true;
    }
  }

  /** With no regex, no prefix and no needles, every id passes. */
  lemma NoConstraints(f: VanityFilter, idStr: string)
    requires f.regex.None? && f.prefix.None? && f.contains == []
    ensures f.Accepts(idStr)
  {
  }

  /** Each needle is a constraint of its own: an id missing any one of them is refused. */
  lemma MissingNeedleRefused(f: VanityFilter, idStr: string, k: nat)
    requires k < |f.contains| && !Contains(idStr, f.contains[k])
    ensures !f.Accepts(idStr)
  {
  }

  /** Over `n` calls from a fresh count, the progress lines fall exactly on the multiples of
      100000: there are `n / 100000` of them. */
  lemma {:induction false} ProgressCount(n: nat)
    ensures |ProgressLinesUpTo(n)| == n / PROGRESS_EVERY
    decreases n
  {
    if n > 0 {
      ProgressCount(n - 1);
      assert n / PROGRESS_EVERY == (n - 1) / PROGRESS_EVERY + (if n % PROGRESS_EVERY == 0 then 1 else 0);
    }
  }

  /** The progress lines written over the calls numbered 1 to `n`. */
  function ProgressLinesUpTo(n: nat): seq<string>
    decreases n
  {
    if n == 0 then [] else ProgressLinesUpTo(n - 1) + VanityFilter.ProgressLines(n)
  }

  /** One try of the search: the time it was made at and the generated id, as the base64 text
      the filter sees. */
  datatype Candidate = Candidate(now: Timestamp, idText: string)

  /** `create_vanity`'s loop: tries the candidates in order and stops at the first the filter
      accepts; the filter is called once per candidate tried. `None` means no candidate so far
      was accepted (the search itself would go on). */
  method Search(f: VanityFilter, candidates: seq<Candidate>) returns (found: Option<nat>)
    modifies f
    ensures found.Some? ==> found.value < |candidates| && f.Accepts(candidates[found.value].idText)
    ensures found.Some? ==> forall j :: 0 <= j < found.value ==> !f.Accepts(candidates[j].idText)
    ensures found.None? ==> forall j :: 0 <= j < |candidates| ==> !f.Accepts(candidates[j].idText)
    ensures f.counter == old(f.counter) + (if found.Some? then found.value + 1 else |candidates|)
  {
    var i := 0;
    while i < |candidates|
      invariant 0 <= i <= |candidates|
      invariant f.counter == old(f.counter) + i
      invariant forall j :: 0 <= j < i ==> !f.Accepts(candidates[j].idText)
    {
      var accepted := f.Filter(candidates[i].idText);
      if accepted {
        return Some(i);
      }
      i := i + 1;
    }
    return None;
  }

  // ---------------------------------------------------------------- name and email

  /** `prompt_claim_name_email`: declined (the default is yes), the identity is returned as it
      was; accepted, a public name claim is added and then a public email claim. */
  function PromptClaimNameEmail(lib: Library, identity: Transactions, answer: string, name: string, email: string)
    : (r: Result<Transactions, CliError>)
    ensures !YesnoPrompt(answer, "y") ==> r == Ok(identity)
    ensures YesnoPrompt(answer, "y") && r.Ok? ==>
      var named := lib.makeClaim(identity, Name(Public(name)));
      named.Ok? && lib.makeClaim(named.value, Email(Public(email))) == Ok(r.value)
  {
    if !YesnoPrompt(answer, "y") then Ok(identity)
    else
      var named :- Wrap(lib.makeClaim(identity, Name(Public(name))), "Error generating name claim: ");
      Wrap(lib.makeClaim(named, Email(Public(email))), "Error generating email claim: ")
  }

  /** Pressing return at the question adds both claims: the default is yes. */
  lemma NameEmailByDefault(lib: Library, identity: Transactions, name: string, email: string)
    requires lib.makeClaim(identity, Name(Public(name))).Ok?
    ensures var named := lib.makeClaim(identity, Name(Public(name))).value;
      PromptClaimNameEmail(lib, identity, "", name, email) ==
      Wrap(lib.makeClaim(named, Email(Public(email))), "Error generating email claim: ")
  {
    YesnoDefaults("", "", "");
  }

  // ---------------------------------------------------------------- creating identities

  /** `create_new`: an identity created under the confirmed passphrase's key at the current
      time, then offered the name and email claims. */
  function CreateNew(lib: Library, entries: seq<PassphraseEntry>, clock: Timestamp, answer: string, name: string,
                     email: string)
    : (r: Result<Transactions, CliError>)
    ensures r.Ok? ==>
      var made := WithNewPassphrase(entries, None, clock,
                                    (key: MasterKey, now: Timestamp) => Wrap(lib.newIdentity(key, now), "Failed to create identity: "));
      made.Ok? && made.value.1.salt == clock &&
      lib.newIdentity(made.value.1, clock) == Ok(made.value.0) &&
      PromptClaimNameEmail(lib, made.value.0, answer, name, email) == Ok(r.value)
  {
    var gen := (key: MasterKey, now: Timestamp) => Wrap(lib.newIdentity(key, now), "Failed to create identity: ");
    var made :- WithNewPassphrase(entries, None, clock, gen);
    PromptClaimNameEmail(lib, made.0, answer, name, email)
  }

  /** `create_vanity` after its search found `found`: the master key is salted with the
      candidate's own time, and the identity is created with the candidate's id at that time,
      then offered the name and email claims. */
  function VanityIdentity(lib: Library, found: Candidate, entries: seq<PassphraseEntry>, clock: Timestamp,
                          answer: string, name: string, email: string)
    : (r: Result<Transactions, CliError>)
    ensures r.Ok? ==>
      var keyed := WithNewPassphrase(entries, Some(found.now), clock, (key: MasterKey, now: Timestamp) => Ok(()));
      keyed.Ok? && keyed.value.1.salt == found.now &&
      lib.newIdentityWithId(keyed.value.1, found.now, found.idText).Ok? &&
      PromptClaimNameEmail(lib, lib.newIdentityWithId(keyed.value.1, found.now, found.idText).value, answer, name, email) ==
        Ok(r.value)
  {
    var keyed :- WithNewPassphrase(entries, Some(found.now), clock, (key: MasterKey, now: Timestamp) => Ok(()));
    var identity :- Wrap(lib.newIdentityWithId(keyed.1, found.now, found.idText), "Failed to create identity: ");
    PromptClaimNameEmail(lib, identity, answer, name, email)
  }

  /** `create_vanity`: the regex must compile; then the search runs over the candidates, and
      the identity is made from the accepted one. */
  method CreateVanity(lib: Library, regex: Option<Result<Regex, string>>, prefix: Option<string>, contains: seq<string>,
                      candidates: seq<Candidate>, entries: seq<PassphraseEntry>, clock: Timestamp,
                      answer: string, name: string, email: string)
    returns (r: Result<Transactions, CliError>, tried: nat)
    ensures regex.Some? && regex.value.Err? ==> r == Err(LibraryError("Problem compiling regex: " + regex.value.error)) && tried == 0
    ensures r.Ok? ==>
      var compiled := if regex.Some? then Some(regex.value.value) else None;
      exists i :: 0 <= i < |candidates| && tried == i + 1 &&
        Passes(compiled, prefix, contains, candidates[i].idText) &&
        (forall j :: 0 <= j < i ==> !Passes(compiled, prefix, contains, candidates[j].idText)) &&
        VanityIdentity(lib, candidates[i], entries, clock, answer, name, email) == Ok(r.value)
    ensures regex.None? || regex.value.Ok? ==>
      var compiled := if regex.Some? then Some(regex.value.value) else None;
      (forall i ::
         (0 <= i < |candidates| && Passes(compiled, prefix, contains, candidates[i].idText) &&
          forall j :: 0 <= j < i ==> !Passes(compiled, prefix, contains, candidates[j].idText)) ==>
         tried == i + 1 && r == VanityIdentity(lib, candidates[i], entries, clock, answer, name, email)) &&
      ((forall i :: 0 <= i < |candidates| ==> !Passes(compiled, prefix, contains, candidates[i].idText)) ==>
         tried == |candidates| && r == Err(InputError))
  {
    var compiled: Option<Regex> := None;
    if regex.Some? {
      if regex.value.Err? {
        return Err(LibraryError("Problem compiling regex: " + regex.value.error)), 0;
      }
      compiled := Some(regex.value.value);
    }
    var filter := new VanityFilter(compiled, prefix, contains);
    var found := Search(filter, candidates);
    tried := filter.counter;
    if found.None? {
      return Err(InputError), tried;
    }
    r := VanityIdentity(lib, candidates[found.value], entries, clock, answer, name, email);
  }
}
