/** The `id` commands: finding exactly one identity for an id prefix or a search, viewing and
    deleting identities, the terminal fingerprint grid, and the identities table. */
module Identities {
  import opened Common
  import opened Types
  import opened Collab
  import opened Store
  import opened Util

  // ---------------------------------------------------------------- finding one identity

  /** `collect::<Result<Vec<_>>>()` over `build_identity`: every identity, or the first error. */
  function BuildAll(lib: Library, ts: seq<Transactions>): (r: Result<seq<Identity>, CliError>)
    ensures r.Ok? <==> forall i :: 0 <= i < |ts| ==> lib.build(ts[i]).Ok?
    ensures r.Ok? ==> |r.value| == |ts| && forall i :: 0 <= i < |ts| ==> r.value[i] == lib.build(ts[i]).value
    decreases |ts|
  {
    if |ts| == 0 then Ok([])
    else
      var first :- BuildIdentity(lib, ts[0]);
      var rest :- BuildAll(lib, ts[1..]);
      assert forall i :: 1 <= i < |ts| ==> ts[i] == ts[1..][i - 1];
      Ok([first] + rest)
  }

  /** `try_load_single_identity`, given the saved identities whose id starts with `id`. */
  function TryLoadSingleIdentity(lib: Library, matches: seq<Transactions>, id: string): (r: Result<Transactions, CliError>)
    ensures r.Ok? <==> |matches| == 1
    ensures r.Ok? ==> r.value == matches[0]
    ensures |matches| == 0 ==> r == Err(NoIdentities(id))
    ensures |matches| > 1 && BuildAll(lib, matches).Ok? ==> r == Err(MultipleIdentities(id))
  {
    if |matches| > 1 then
      match BuildAll(lib, matches)
      case Err(e) => Err(e)
      case Ok(_) => Err(MultipleIdentities(id))
    else if |matches| == 0 then Err(NoIdentities(id))
    else Ok(matches[0])
  }

  /** `try_load_single_identity(id)` against the database. */
  function LoadSingle(db: Db, lib: Library, id: string): (r: Result<Transactions, CliError>)
    reads db
    ensures r.Ok? ==> r.value in db.identities && HasIdPrefix(r.value, id)
  {
    var matches := db.IdentitiesByPrefix(id);
    var r := TryLoadSingleIdentity(lib, matches, id);
    assert r.Ok? ==> r.value in matches;
    r
  }

  /** `id view`: the serialized identity when exactly one saved identity matches the search. */
  function View(lib: Library, matches: seq<Transactions>): (r: Result<string, CliError>)
    ensures |matches| == 0 ==> r == Err(NoIdentitiesMatchSearch)
  {
    if |matches| > 1 then
      match BuildAll(lib, matches)
      case Err(e) => Err(e)
      case Ok(_) => Err(MultipleIdentitiesMatchSearch)
    else if |matches| == 0 then Err(NoIdentitiesMatchSearch)
    else
      var identity :- BuildIdentity(lib, matches[0]);
      match lib.serializeIdentity(identity)
      case Ok(text) => Ok(text)
      case Err(e) => Err(LibraryError("Problem serializing identity: " + e))
  }

  /** `view` classifies the matches exactly as `try_load_single_identity` does: it succeeds only
      on a single match, and then shows the identity built from that match; a single match that
      builds and serializes is always shown; with no match or several matches both fail. */
  lemma ViewClassifiesLikeSingleLoad(lib: Library, matches: seq<Transactions>, id: string)
    ensures View(lib, matches).Ok? ==> TryLoadSingleIdentity(lib, matches, id).Ok?
    ensures View(lib, matches).Ok? ==>
      var t := TryLoadSingleIdentity(lib, matches, id).value;
      lib.build(t).Ok? && View(lib, matches) == Ok(lib.serializeIdentity(lib.build(t).value).value)
    ensures |matches| != 1 ==> View(lib, matches).Err? && TryLoadSingleIdentity(lib, matches, id).Err?
    ensures |matches| > 1 && BuildAll(lib, matches).Ok? ==> View(lib, matches) == Err(MultipleIdentitiesMatchSearch)
    ensures |matches| == 1 && lib.build(matches[0]).Ok? && lib.serializeIdentity(lib.build(matches[0]).value).Ok? ==>
      View(lib, matches) == Ok(lib.serializeIdentity(lib.build(matches[0]).value).value)
  {
  }

  /** `prompt_name_email`: the name and email typed, or neither when the user declines. */
  function PromptNameEmail(answer: string, name: string, email: string): (r: (Option<string>, Option<string>))
    ensures r == (None, None) <==> !YesnoPrompt(answer, "y")
    ensures r.0.Some? ==> r == (Some(name), Some(email))
  {
    if !YesnoPrompt(answer, "y") then (None, None) else (Some(name), Some(email))
  }

  // ---------------------------------------------------------------- deleting identities

  /** The number of leading identities whose id converts to a string: how far the deletion
      loop gets before `id_str!` fails. */
  function ConvertiblePrefix(identities: seq<Identity>): (n: nat)
    ensures n <= |identities|
    ensures forall i :: 0 <= i < n ==> identities[i].id.text.Some?
    ensures n < |identities| ==> identities[n].id.text.None?
    decreases |identities|
  {
    if |identities| == 0 || identities[0].id.text.None? then 0
    else
      var n := ConvertiblePrefix(identities[1..]);
      assert forall i :: 1 <= i <= n ==> identities[i] == identities[1..][i - 1];
      1 + n
  }

  /** The database writes that delete the first `n` identities, in order. */
  ghost function DeletionEffects(identities: seq<Identity>, n: nat): (r: seq<Effect>)
    requires n <= |identities|
    requires forall i :: 0 <= i < n ==> identities[i].id.text.Some?
    ensures |r| == n
    ensures forall i :: 0 <= i < n ==> r[i] == DeletedIdentity(identities[i].id.text.value)
    decreases n
  {
    if n == 0 then [] else DeletionEffects(identities, n - 1) + [DeletedIdentity(identities[n - 1].id.text.value)]
  }

  /** Some identity among the first `n` has the id string of `t`. */
  predicate DeletedAmong(t: Transactions, identities: seq<Identity>, n: nat)
    requires n <= |identities|
  {
    exists i :: 0 <= i < n && identities[i].id.text.Some? && HasIdText(t, identities[i].id.text.value)
  }

  /** The deletion loop of `id delete`: deletes the identities in order by their id string,
      stopping with an error at the first id that does not convert. */
  method DeleteEach(db: Db, found: seq<Identity>) returns (r: Result<(), CliError>)
    requires db.Valid()
    modifies db
    ensures db.Valid() && db.staged == old(db.staged)
    ensures r.Ok? <==> ConvertiblePrefix(found) == |found|
    ensures r.Err? ==> r.error == IdNotConvertible
    ensures db.effects == old(db.effects) + DeletionEffects(found, ConvertiblePrefix(found))
    ensures forall t :: t in db.identities <==> t in old(db.identities) && !DeletedAmong(t, found, ConvertiblePrefix(found))
  {
    var i := 0;
    while i < |found|
      invariant 0 <= i <= |found| && i <= ConvertiblePrefix(found)
      invariant db.Valid() && db.staged == old(db.staged)
      invariant db.effects == old(db.effects) + DeletionEffects(found, i)
      invariant forall t :: t in db.identities <==> t in old(db.identities) && !DeletedAmong(t, found, i)
    {
      match IdStr(found[i].id) {
        case Err(e) =>
          return Err(e);
        case Ok(idText) =>
          db.DeleteIdentity(idText);
          forall t
            ensures t in db.identities <==> t in old(db.identities) && !DeletedAmong(t, found, i + 1)
          {
            if DeletedAmong(t, found, i + 1) && !DeletedAmong(t, found, i) {
              assert HasIdText(t, idText);
            }
          }
      }
      i := i + 1;
    }
    r := Ok(());
  }

  /** `id delete`: lists the identities matching the search, asks for confirmation unless it is
      skipped, then deletes them one by one. `Ok(Some(n))` reports `n` deletions, `Ok(None)` a
      declined confirmation. An id that does not convert to a string stops the loop with an
      error after the identities before it are deleted. */
  method DeleteIdentities(db: Db, lib: Library, search: string, skipConfirm: bool, answer: string)
    returns (r: Result<Option<nat>, CliError>)
    requires db.Valid()
    modifies db
    ensures db.Valid()
    ensures db.staged == old(db.staged)
    ensures |old(db.Search(lib.listMatches, search))| == 0 ==> r == Err(NoIdentitiesMatchSearch) && unchanged(db)
    ensures BuildAll(lib, old(db.Search(lib.listMatches, search))).Err? ==> r.Err? && unchanged(db)
    ensures r == Ok(None) <==>
      |old(db.Search(lib.listMatches, search))| > 0 && BuildAll(lib, old(db.Search(lib.listMatches, search))).Ok? &&
      !skipConfirm && !YesnoPrompt(answer, "n")
    ensures r == Ok(None) ==> unchanged(db)
    ensures r.Ok? && r.value.Some? ==>
      var found := BuildAll(lib, old(db.Search(lib.listMatches, search))).value;
      r.value.value == |found| && ConvertiblePrefix(found) == |found| &&
      db.effects == old(db.effects) + DeletionEffects(found, |found|) &&
      (forall t :: t in db.identities <==> t in old(db.identities) && !DeletedAmong(t, found, |found|))
    ensures |old(db.Search(lib.listMatches, search))| > 0 && BuildAll(lib, old(db.Search(lib.listMatches, search))).Ok? &&
            (skipConfirm || YesnoPrompt(answer, "n")) ==>
      var found := BuildAll(lib, old(db.Search(lib.listMatches, search))).value;
      var k := ConvertiblePrefix(found);
      db.effects == old(db.effects) + DeletionEffects(found, k) &&
      (forall t :: t in db.identities <==> t in old(db.identities) && !DeletedAmong(t, found, k)) &&
      (k == |found| ==> r == Ok(Some(|found|))) &&
      (k < |found| ==> r == Err(IdNotConvertible))
  {
    var matches := db.Search(lib.listMatches, search);
    if |matches| == 0 {
      return Err(NoIdentitiesMatchSearch);
    }
    var built := BuildAll(lib, matches);
    if built.Err? {
      return Err(built.error);
    }
    var found := built.value;
    if !skipConfirm && !YesnoPrompt(answer, "n") {
      return Ok(None);
    }
    var deleted := DeleteEach(db, found);
    if deleted.Err? {
      return Err(deleted.error);
    }
    r := Ok(Some(|found|));
  }

  // ---------------------------------------------------------------- fingerprint

  /** One coloured square of the fingerprint: its column, its row and its colour. */
  datatype FingerprintEntry = FingerprintEntry(x: nat, y: nat, rgb: (bv8, bv8, bv8))

  const FINGERPRINT_SIZE: nat := 16

  /** The 256-colour index shown at `(x, y)`: that of the last entry for the square, or black
      (colour 0) when no entry names it. */
  function CellColour(entries: seq<FingerprintEntry>, toColour: ((bv8, bv8, bv8)) -> nat, x: int, y: int): nat
    decreases |entries|
  {
    if |entries| == 0 then 0
    else
      var last := entries[|entries| - 1];
      if last.x == x && last.y == y then toColour(last.rgb) else CellColour(entries[..|entries| - 1], toColour, x, y)
  }

  /** `cells.join("")` */
  function Concat(cells: seq<string>): string
    decreases |cells|
  {
    if |cells| == 0 then "" else Concat(cells[..|cells| - 1]) + cells[|cells| - 1]
  }

  /** Row `y` of the grid, each square painted in its colour. */
  function FingerprintRow(entries: seq<FingerprintEntry>, toColour: ((bv8, bv8, bv8)) -> nat,
                          paint: nat -> string, y: int): string
  {
    Concat(seq(FINGERPRINT_SIZE, x => paint(CellColour(entries, toColour, x, y))))
  }

  function FingerprintRows(entries: seq<FingerprintEntry>, toColour: ((bv8, bv8, bv8)) -> nat,
                           paint: nat -> string): seq<string>
  {
    seq(FINGERPRINT_SIZE, y => FingerprintRow(entries, toColour, paint, y))
  }

  /** The `Term` format of `fingerprint`: a 16 by 16 grid of black squares, each entry
      overwriting its square in turn, printed as 16 lines. `toColour` is the nearest
      256-colour index of an RGB value and `paint` the terminal rendering of a square in a
      colour. An entry outside the grid makes the original panic, so none is allowed. */
  method Fingerprint(entries: seq<FingerprintEntry>, toColour: ((bv8, bv8, bv8)) -> nat, paint: nat -> string)
    returns (out: string)
    requires forall i :: 0 <= i < |entries| ==> entries[i].x < FINGERPRINT_SIZE && entries[i].y < FINGERPRINT_SIZE
    ensures out == Join(FingerprintRows(entries, toColour, paint), "\n")
  {
    var grid := PaintGrid(entries, toColour, paint);
    out := RenderGrid(grid, entries, toColour, paint);
  }

  /** The grid filled in place: all black, then each entry overwriting its square. */
  method PaintGrid(entries: seq<FingerprintEntry>, toColour: ((bv8, bv8, bv8)) -> nat, paint: nat -> string)
    returns (grid: array2<string>)
    requires forall i :: 0 <= i < |entries| ==> entries[i].x < FINGERPRINT_SIZE && entries[i].y < FINGERPRINT_SIZE
    ensures fresh(grid) && grid.Length0 == FINGERPRINT_SIZE && grid.Length1 == FINGERPRINT_SIZE
    ensures forall y, x :: 0 <= y < FINGERPRINT_SIZE && 0 <= x < FINGERPRINT_SIZE ==>
      grid[y, x] == paint(CellColour(entries, toColour, x, y))
  {
    var black := paint(0);
    grid := new string[FINGERPRINT_SIZE, FINGERPRINT_SIZE]((_, _) => black);
    var i := 0;
    while i < |entries|
      invariant 0 <= i <= |entries|
      invariant forall y, x :: 0 <= y < FINGERPRINT_SIZE && 0 <= x < FINGERPRINT_SIZE ==>
        grid[y, x] == paint(CellColour(entries[..i], toColour, x, y))
    {
      var e := entries[i];
      grid[e.y, e.x] := paint(toColour(e.rgb));
      assert entries[..i + 1][..i] == entries[..i];
      i := i + 1;
    }
    assert entries[..|entries|] == entries;
  }

  /** Each row's squares concatenated, the rows joined by line breaks. */
  method RenderGrid(grid: array2<string>, ghost entries: seq<FingerprintEntry>, ghost toColour: ((bv8, bv8, bv8)) -> nat,
                    ghost paint: nat -> string)
    returns (out: string)
    requires grid.Length0 == FINGERPRINT_SIZE && grid.Length1 == FINGERPRINT_SIZE
    requires forall y, x :: 0 <= y < FINGERPRINT_SIZE && 0 <= x < FINGERPRINT_SIZE ==>
      grid[y, x] == paint(CellColour(entries, toColour, x, y))
    ensures out == Join(FingerprintRows(entries, toColour, paint), "\n")
  {
    var lines: seq<string> := [];
    var y := 0;
    while y < FINGERPRINT_SIZE
      invariant 0 <= y <= FINGERPRINT_SIZE && |lines| == y
      invariant forall k :: 0 <= k < y ==> lines[k] == FingerprintRow(entries, toColour, paint, k)
    {
      ghost var cells := seq(FINGERPRINT_SIZE, x => paint(CellColour(entries, toColour, x, y)));
      var row := "";
      var x := 0;
      while x < FINGERPRINT_SIZE
        invariant 0 <= x <= FINGERPRINT_SIZE
        invariant row == Concat(cells[..x])
      {
        assert cells[..x + 1][..x] == cells[..x];
        row := row + grid[y, x];
        x := x + 1;
      }
      assert cells[..FINGERPRINT_SIZE] == cells;
      lines := lines + [row];
      y := y + 1;
    }
    assert lines == FingerprintRows(entries, toColour, paint);
    out := Join(lines, "\n");
  }

  /** Later entries win: after an entry for a square, the square shows that entry's colour,
      whatever came before; a square no entry names stays black. */
  lemma {:induction false} FingerprintLastEntryWins(entries: seq<FingerprintEntry>, e: FingerprintEntry,
                                                   toColour: ((bv8, bv8, bv8)) -> nat, x: int, y: int)
    ensures CellColour(entries + [e], toColour, e.x, e.y) == toColour(e.rgb)
    ensures (forall i :: 0 <= i < |entries| ==> entries[i].x != x || entries[i].y != y) ==>
      CellColour(entries, toColour, x, y) == 0
    decreases |entries|
  {
    if |entries| > 0 && (forall i :: 0 <= i < |entries| ==> entries[i].x != x || entries[i].y != y) {
      var front := entries[..|entries| - 1];
      FingerprintLastEntryWins(front, e, toColour, x, y);
    }
  }

  /** The printed grid has exactly 16 lines, one per row, when no painted square contains a
      line break. */
  lemma FingerprintHasSixteenLines(entries: seq<FingerprintEntry>, toColour: ((bv8, bv8, bv8)) -> nat,
                                   paint: nat -> string)
    requires forall c :: '\n' !in paint(c)
    ensures SplitOn(Join(FingerprintRows(entries, toColour, paint), "\n"), '\n') == FingerprintRows(entries, toColour, paint)
    ensures |FingerprintRows(entries, toColour, paint)| == FINGERPRINT_SIZE
  {
    var rows := FingerprintRows(entries, toColour, paint);
    forall y | 0 <= y < |rows|
      ensures '\n' !in rows[y]
    {
      var cells := seq(FINGERPRINT_SIZE, x => paint(CellColour(entries, toColour, x, y)));
      forall x | 0 <= x < |cells|
        ensures '\n' !in cells[x]
      {
        assert cells[x] == paint(CellColour(entries, toColour, x, y));
      }
      ConcatAvoids(cells, '\n');
    }
    SplitJoin(rows, '\n');
  }

  lemma {:induction false} ConcatAvoids(cells: seq<string>, c: char)
    requires forall i :: 0 <= i < |cells| ==> c !in cells[i]
    ensures c !in Concat(cells)
    decreases |cells|
  {
    if |cells| > 0 {
      ConcatAvoids(cells[..|cells| - 1], c);
    }
  }

  // ---------------------------------------------------------------- identities table

  /** `names().get(0)`, or the empty string. */
  function FirstOrEmpty(values: seq<string>): (r: string)
    ensures |values| > 0 ==> r == values[0]
    ensures |values| == 0 ==> r == ""
  {
    if |values| > 0 then values[0] else ""
  }

  /** One row of `print_identities_table`: Mine, ID, Name, Email. The creation date column is
      not modelled. */
  function IdentityRow(lib: Library, identity: Identity, verbose: bool): (row: seq<string>)
    ensures |row| == 4
    ensures row[0] == "x" <==> identity.isOwned
    ensures identity.id.text.Some? ==>
      row[1] == (if verbose then identity.id.text.value else lib.shortId(identity.id.text.value))
    ensures |identity.names| > 0 ==> row[2] == identity.names[0]
    ensures |identity.emails| > 0 ==> row[3] == identity.emails[0]
  {
    var (full, short) := IdStrSplit(lib, identity.id);
    [if identity.isOwned then "x" else "", if verbose then full else short,
     FirstOrEmpty(identity.names), FirstOrEmpty(identity.emails)]
  }

  /** `print_identities_table`: one row per identity, in order. */
  method PrintIdentitiesTable(lib: Library, identities: seq<Identity>, verbose: bool) returns (rows: seq<seq<string>>)
    ensures |rows| == |identities|
    ensures forall i :: 0 <= i < |identities| ==>
      |rows[i]| == 4 &&
      rows[i][0] == (if identities[i].isOwned then "x" else "") &&
      rows[i][1] == (if verbose then IdStrSplit(lib, identities[i].id).0 else IdStrSplit(lib, identities[i].id).1) &&
      rows[i][2] == FirstOrEmpty(identities[i].names) &&
      rows[i][3] == FirstOrEmpty(identities[i].emails)
  {
    rows := [];
    var i := 0;
    while i < |identities|
      invariant 0 <= i <= |identities| && |rows| == i
      invariant forall k :: 0 <= k < i ==> rows[k] == IdentityRow(lib, identities[k], verbose)
    {
      rows := rows + [IdentityRow(lib, identities[i], verbose)];
      i := i + 1;
    }
  }
}
