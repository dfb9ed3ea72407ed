/**
 The CSV import job: find or create the board's "Imported" column, drop the
 header line, skip the blank lines and the rows without a title, and create
 one card per remaining row at consecutive positions after the column's
 current cards. The file's contents are an input; `str_getcsv` is the
 uninterpreted field splitter `split`.
 */
module CsvImport {
  import opened Wrappers
  import opened Positions
  import opened Records
  import opened Text
  import opened CacheStore
  import opened Hooks
  import opened Repositories
  import opened Events

  const ImportedName: string := "Imported"

  /** One imported task: its title and its description. */
  datatype Row = Row(title: string, description: Option<string>)

  /** `$data[i] ?? null`. */
  function FieldAt(data: seq<string>, i: nat): (r: Option<string>)
    ensures r.Some? <==> i < |data|
    ensures r.Some? ==> r.value == data[i]
  {
    if i < |data| then Some(data[i]) else None
  }

  /** One line of the body: nothing when it is blank after `trim` (or trims
      to "0", which `empty()` also takes for blank) or when its first field
      is missing or falsy; otherwise the title and the optional second field. */
  function RowOf(line: string, split: string -> seq<string>): (r: Option<Row>)
    ensures IsFalsy(Trim(line)) ==> r.None?
    ensures r.Some? <==> !IsFalsy(Trim(line)) && !IsFalsyOrNull(FieldAt(split(line), 0))
    ensures r.Some? ==> r.value == Row(split(line)[0], FieldAt(split(line), 1))
  {
    if IsFalsy(Trim(line)) then None
    else
      var data := split(line);
      var title := FieldAt(data, 0);
      if IsFalsyOrNull(title) then None else Some(Row(title.value, FieldAt(data, 1)))
  }

  /** Each body line read on its own. */
  function ParseLines(lines: seq<string>, split: string -> seq<string>): (r: seq<Option<Row>>)
    ensures |r| == |lines|
    ensures forall i | 0 <= i < |lines| :: r[i] == RowOf(lines[i], split)
  {
    MapLines(lines, line => RowOf(line, split))
  }

  /** `f` applied to every line. */
  function MapLines(lines: seq<string>, f: string -> Option<Row>): (r: seq<Option<Row>>)
    ensures |r| == |lines|
    ensures forall i | 0 <= i < |lines| :: r[i] == f(lines[i])
  {
    seq(|lines|, i requires 0 <= i < |lines| => f(lines[i]))
  }

  lemma MapLinesConcat(a: seq<string>, b: seq<string>, f: string -> Option<Row>)
    ensures MapLines(a + b, f) == MapLines(a, f) + MapLines(b, f)
  {
  }

  /** The rows present among the parsed lines, in order. */
  function Somes(xs: seq<Option<Row>>): (r: seq<Row>)
    ensures |r| <= |xs|
    ensures forall i | 0 <= i < |r| :: Some(r[i]) in xs
  {
    if xs == [] then []
    else
      var init := Somes(xs[..|xs| - 1]);
      match xs[|xs| - 1]
      case None => init
      case Some(row) => init + [row]
  }

  /** The rows the body lines yield, in file order. */
  function ImportRows(lines: seq<string>, split: string -> seq<string>): (r: seq<Row>)
    ensures |r| <= |lines|
    ensures forall i | 0 <= i < |r| :: !IsFalsy(r[i].title)
  {
    var xs := ParseLines(lines, split);
    var r := Somes(xs);
    forall i | 0 <= i < |r| ensures !IsFalsy(r[i].title) {
      assert Some(r[i]) in xs;
      var j :| 0 <= j < |xs| && xs[j] == Some(r[i]);
      assert RowOf(lines[j], split) == Some(r[i]);
    }
    r
  }

  /** The body lines after the header that `array_shift` removes. */
  function BodyLines(file: string): seq<string> {
    Explode(file)[1..]
  }

  // ---------------------------------------------------------------------
  // Rows: order and skipping
  // ---------------------------------------------------------------------

  lemma {:induction false} SomesConcat(a: seq<Option<Row>>, b: seq<Option<Row>>)
    ensures Somes(a + b) == Somes(a) + Somes(b)
    decreases |b|
  {
    if b == [] {
      assert a + b == a;
    } else {
      var b' := b[..|b| - 1];
      assert (a + b)[..|a + b| - 1] == a + b';
      assert (a + b)[|a + b| - 1] == b[|b| - 1];
      SomesConcat(a, b');
    }
  }

  /** The rows of two stretches of lines are the rows of each, in order: a
      skipped line yields nothing and disturbs nothing around it. */
  lemma ImportRowsConcat(a: seq<string>, b: seq<string>, split: string -> seq<string>)
    ensures ImportRows(a + b, split) == ImportRows(a, split) + ImportRows(b, split)
  {
    MapLinesConcat(a, b, line => RowOf(line, split));
    SomesConcat(ParseLines(a, split), ParseLines(b, split));
  }

  /** A single line yields its row, or nothing. */
  lemma ImportRowsOne(line: string, split: string -> seq<string>)
    ensures ImportRows([line], split) == match RowOf(line, split) case None => [] case Some(row) => [row]
  {
    var xs := ParseLines([line], split);
    assert xs[..0] == [];
  }

  /** Lines that are blank, "0" after trimming, or without a title yield
      nothing wherever they stand. */
  lemma SkippedLinesYieldNothing(a: seq<string>, line: string, b: seq<string>, split: string -> seq<string>)
    requires RowOf(line, split).None?
    ensures ImportRows(a + [line] + b, split) == ImportRows(a + b, split)
  {
    ImportRowsConcat(a + [line], b, split);
    ImportRowsConcat(a, [line], split);
    ImportRowsConcat(a, b, split);
    ImportRowsOne(line, split);
  }

  /** Text without a newline explodes to itself. */
  lemma {:induction false} ExplodeOneLine(s: string)
    requires '\n' !in s
    ensures Explode(s) == [s]
  {
    if |s| > 0 {
      assert '\n' !in s[1..];
      ExplodeOneLine(s[1..]);
      assert [s[0]] + s[1..] == s;
    }
  }

  /** A file that is only a header line imports nothing. */
  lemma HeaderOnlyImportsNothing(file: string, split: string -> seq<string>)
    requires '\n' !in file
    ensures ImportRows(BodyLines(file), split) == []
  {
    ExplodeOneLine(file);
  }

  /** The lines "", "0" and " 0 " are skipped whatever the splitter does. */
  lemma FalsyLinesSkipped(split: string -> seq<string>)
    ensures RowOf("", split).None?
    ensures RowOf("0", split).None?
    ensures RowOf(" 0 ", split).None?
  {
    TrimOfCore("0");
    assert " 0 " == [' '] + "0" + [' '];
    TrimPadded(' ', "0", ' ');
  }

  // ---------------------------------------------------------------------
  // The target column
  // ---------------------------------------------------------------------

  /** A column named "Imported" on `board`. */
  predicate IsImported(db: Db, board: Id, k: Id) {
    k in db.columns && db.columns[k].place.parent == board && db.columns[k].name == ImportedName
  }

  /** `a` comes no later than `b` in `orderBy('position')`; equal positions
      are taken in id order. */
  predicate NoLater(db: Db, a: Id, b: Id)
    requires a in db.columns && b in db.columns
  {
    var pa := db.columns[a].place.pos;
    var pb := db.columns[b].place.pos;
    pa < pb || (pa == pb && a <= b)
  }

  /** The lookup half of `firstOrCreate(['name' => 'Imported'])` on the
      board's position-ordered columns: the first matching column, if any. */
  method FindImported(db: Db, board: Id) returns (r: Option<Id>)
    ensures r.None? <==> forall k | k in db.columns :: !IsImported(db, board, k)
    ensures r.Some? ==> IsImported(db, board, r.value)
    ensures r.Some? ==> forall k | IsImported(db, board, k) :: NoLater(db, r.value, k)
  {
    var todo := db.columns.Keys;
    r := None;
    while todo != {}
      invariant todo <= db.columns.Keys
      invariant r.None? ==> forall k | k in db.columns && k !in todo :: !IsImported(db, board, k)
      invariant r.Some? ==> IsImported(db, board, r.value) && r.value !in todo
      invariant r.Some? ==> forall k | IsImported(db, board, k) && k !in todo :: NoLater(db, r.value, k)
      decreases |todo|
    {
      var k :| k in todo;
      if IsImported(db, board, k) && (r.None? || !NoLater(db, r.value, k)) {
        r := Some(k);
      }
      todo := todo - {k};
    }
  }

  // ---------------------------------------------------------------------
  // The job
  // ---------------------------------------------------------------------

  /** The cards the rows become: row j gets id `start + j` (auto-increment)
      and position `base + j`. */
  function ImportedCards(rows: seq<Row>, column: Id, base: nat, start: Id, userId: Id): (m: map<Id, Card>)
    ensures forall k :: k in m <==> start <= k < start + |rows|
  {
    if rows == [] then map[]
    else
      var j := |rows| - 1;
      ImportedCards(rows[..j], column, base, start, userId)[start + j :=
        Card(Place(column, base + j), rows[j].title, rows[j].description, Some(userId))]
  }

  /** Row j's card sits at position `base + j` of the column and carries the
      row's title and description and the importing user. */
  lemma {:induction false} ImportedCardAt(rows: seq<Row>, column: Id, base: nat, start: Id, userId: Id, j: nat)
    requires j < |rows|
    ensures start + j in ImportedCards(rows, column, base, start, userId)
    ensures ImportedCards(rows, column, base, start, userId)[start + j] ==
      Card(Place(column, base + j), rows[j].title, rows[j].description, Some(userId))
  {
    if j < |rows| - 1 {
      ImportedCardAt(rows[..|rows| - 1], column, base, start, userId, j);
    }
  }

  /** The found or created "Imported" column, the tables and the cache after
      it, and whether it was created. */
  method ImportColumn(w: World, board: Id, newColumn: Id) returns (db: Db, cache: Store, column: Id, created: bool)
    requires board in w.db.boards
    requires newColumn !in w.db.columns
    ensures created <==> forall k | k in w.db.columns :: !IsImported(w.db, board, k)
    ensures db.boards == w.db.boards && db.cards == w.db.cards
    ensures column in db.columns && db.columns[column].place.parent == board
    ensures !created ==>
      && IsImported(w.db, board, column)
      && (forall k | IsImported(w.db, board, k) :: NoLater(w.db, column, k))
      && db.columns == w.db.columns
    ensures created ==>
      && column == newColumn
      && db.columns == w.db.columns[newColumn := Column(Place(board, ColumnCount(w.db, board)), ImportedName)]
    ensures cache == if created then Apply(w.cache, Forgets(BoardKeys(board))) else w.cache
  {
    var found := FindImported(w.db, board);
    db := w.db;
    cache := w.cache;
    created := found.None?;
    if found.Some? {
      column := found.value;
    } else {
      column := newColumn;
      var col := Column(Place(board, ColumnCount(w.db, board)), ImportedName);
      db := db.(columns := db.columns[newColumn := col]);
      FiredKeys(db, ColumnRow(newColumn, col), Created);
      cache := Apply(cache, Fired(db, ColumnRow(newColumn, col), Created));
    }
  }

  /** One more row adds its card at the next id. */
  lemma ImportedCardsSnoc(rows: seq<Row>, row: Row, column: Id, base: nat, start: Id, userId: Id)
    ensures ImportedCards(rows + [row], column, base, start, userId) ==
      ImportedCards(rows, column, base, start, userId)[start + |rows| :=
        Card(Place(column, base + |rows|), row.title, row.description, Some(userId))]
  {
    assert (rows + [row])[..|rows|] == rows;
  }

  lemma MapPlusUpdate<K, V>(a: map<K, V>, b: map<K, V>, k: K, v: V)
    ensures a + b[k := v] == (a + b)[k := v]
  {
  }

  /** A card added under a column at the column's count grows the count by
      one and keeps the column gap-free. */
  lemma AddCardAtCount(cur: map<Id, Card>, id: Id, card: Card)
    requires id !in cur
    requires card.place.pos == Count(CardLayout(cur), card.place.parent)
    ensures Count(CardLayout(cur[id := card]), card.place.parent) == Count(CardLayout(cur), card.place.parent) + 1
    ensures GapFree(CardLayout(cur), card.place.parent) ==> GapFree(CardLayout(cur[id := card]), card.place.parent)
  {
    var l := CardLayout(cur);
    CardLayoutUpdate(cur, id, card);
    AddCount(l, id, card.place);
    if GapFree(l, card.place.parent) {
      AppendKeepsGapFree(l, id, card.place.parent);
      assert Append(l, id, card.place.parent) == l[id := card.place];
    }
  }


  /** `Card::create`: the row is inserted and the card's `created` hook
      forgets the keys of its column's board. */
  function CreateRowCard(db: Db, cache: Store, id: Id, card: Card): (r: (Db, Store))
    requires id !in db.cards && card.place.parent in db.columns
    ensures r.0 == db.(cards := db.cards[id := card])
    ensures r.1 == Apply(cache, Forgets(BoardKeys(db.columns[card.place.parent].place.parent)))
  {
    var db' := db.(cards := db.cards[id := card]);
    FiredKeys(db', CardRow(id, card), Created);
    (db', Apply(cache, Fired(db', CardRow(id, card), Created)))
  }

  /** Forgetting the same keys twice is forgetting them once. */
  lemma ForgetTwice(c: Store, keys: set<Key>)
    ensures Apply(Apply(c, Forgets(keys)), Forgets(keys)) == Apply(c, Forgets(keys))
  {
    ApplyPlus(c, Forgets(keys), Forgets(keys));
    assert Forgets(keys).Plus(Forgets(keys)) == Forgets(keys);
  }

  /** One more row: its card goes in at the next id. */
  lemma ImportStep(cards0: map<Id, Card>, rows: seq<Row>, row: Row, column: Id, base: nat, start: Id, userId: Id)
    ensures cards0 + ImportedCards(rows + [row], column, base, start, userId) ==
      (cards0 + ImportedCards(rows, column, base, start, userId))[start + |rows| :=
        Card(Place(column, base + |rows|), row.title, row.description, Some(userId))]
  {
    var card := Card(Place(column, base + |rows|), row.title, row.description, Some(userId));
    ImportedCardsSnoc(rows, row, column, base, start, userId);
    MapPlusUpdate(cards0, ImportedCards(rows, column, base, start, userId), start + |rows|, card);
  }

  /** Where the loop stands after its first `j` rows: their cards are in,
      the column's count grew by `j` and stayed gap-free if it was, and the
      board keys are forgotten once a card went in. */
  ghost predicate Progress(db: Db, cache: Store, board: Id, column: Id, rows: seq<Row>, base: nat,
                           start: Id, userId: Id, j: nat, cards: map<Id, Card>, current: Store)
  {
    && j <= |rows|
    && cards == AfterRows(db.cards, rows, column, base, start, userId, j)
    && Count(CardLayout(cards), column) == base + j
    && (GapFree(CardLayout(db.cards), column) ==> GapFree(CardLayout(cards), column))
    && current == if j > 0 then Apply(cache, Forgets(BoardKeys(board))) else cache
  }

  /** The card row `j` becomes. */
  function RowCard(rows: seq<Row>, j: nat, column: Id, base: nat, userId: Id): Card
    requires j < |rows|
  {
    Card(Place(column, base + j), rows[j].title, rows[j].description, Some(userId))
  }

  /** The cards after the first `j` rows went in, one insert at a time. */
  function AfterRows(cards0: map<Id, Card>, rows: seq<Row>, column: Id, base: nat, start: Id, userId: Id, j: nat): map<Id, Card>
    requires j <= |rows|
  {
    if j == 0 then cards0
    else AfterRows(cards0, rows, column, base, start, userId, j - 1)[start + j - 1 := RowCard(rows, j - 1, column, base, userId)]
  }

  /** No id at or past `start + j` is taken by the first `j` rows. */
  lemma {:induction false} AfterRowsFresh(cards0: map<Id, Card>, rows: seq<Row>, column: Id, base: nat, start: Id, userId: Id, j: nat, k: Id)
    requires j <= |rows|
    requires k !in cards0 && k >= start + j
    ensures k !in AfterRows(cards0, rows, column, base, start, userId, j)
  {
    if j > 0 {
      AfterRowsFresh(cards0, rows, column, base, start, userId, j - 1, k);
    }
  }

  /** Inserting the rows one at a time gives the imported cards of those rows. */
  lemma {:induction false} AfterRowsIsImported(cards0: map<Id, Card>, rows: seq<Row>, column: Id, base: nat, start: Id, userId: Id, j: nat)
    requires j <= |rows|
    ensures AfterRows(cards0, rows, column, base, start, userId, j) == cards0 + ImportedCards(rows[..j], column, base, start, userId)
  {
    if j == 0 {
      assert ImportedCards(rows[..0], column, base, start, userId) == map[];
    } else {
      AfterRowsIsImported(cards0, rows, column, base, start, userId, j - 1);
      assert rows[..j] == rows[..j - 1] + [rows[j - 1]];
      ImportStep(cards0, rows[..j - 1], rows[j - 1], column, base, start, userId);
    }
  }

  /** Adding row `j`'s card at id `start + j` and forgetting the board keys
      takes the loop from `j` rows to `j + 1`. */
  lemma {:induction false} ProgressStep(db: Db, cache: Store, board: Id, column: Id, rows: seq<Row>, base: nat,
                                        start: Id, userId: Id, j: nat, cards: map<Id, Card>, current: Store)
    requires forall k | k in db.cards :: k < start
    requires j < |rows|
    requires Progress(db, cache, board, column, rows, base, start, userId, j, cards, current)
    ensures start + j !in cards
    ensures Progress(db, cache, board, column, rows, base, start, userId, j + 1,
      cards[start + j := RowCard(rows, j, column, base, userId)], Apply(current, Forgets(BoardKeys(board))))
  {
    var card := RowCard(rows, j, column, base, userId);
    var cards' := cards[start + j := card];
    AfterRowsFresh(db.cards, rows, column, base, start, userId, j, start + j);
    assert Count(CardLayout(cards'), column) == base + j + 1
      && (GapFree(CardLayout(cards), column) ==> GapFree(CardLayout(cards'), column)) by {
      assert card.place == Place(column, base + j);
      AddCardAtCount(cards, start + j, card);
    }
    assert Apply(current, Forgets(BoardKeys(board))) == Apply(cache, Forgets(BoardKeys(board))) by {
      ForgetTwice(cache, BoardKeys(board));
    }
  }

  /** The body of the loop for row `j`: `Card::create` at the next id and
      the next position. */
  method AddRow(db: Db, cache: Store, board: Id, column: Id, rows: seq<Row>, base: nat, start: Id, userId: Id,
                j: nat, cards: map<Id, Card>, current: Store)
    returns (cards': map<Id, Card>, current': Store)
    requires column in db.columns && db.columns[column].place.parent == board
    requires forall k | k in db.cards :: k < start
    requires j < |rows|
    requires Progress(db, cache, board, column, rows, base, start, userId, j, cards, current)
    ensures Progress(db, cache, board, column, rows, base, start, userId, j + 1, cards', current')
  {
    var card := RowCard(rows, j, column, base, userId);
    ProgressStep(db, cache, board, column, rows, base, start, userId, j, cards, current);
    var (db1, cache1) := CreateRowCard(db.(cards := cards), current, start + j, card);
    cards', current' := db1.cards, cache1;
  }

  /** The loop of `handle()`. A line without a row does nothing, so the
      loop runs over the rows the lines yield: one `Card::create` each. */
  method ImportCards(db: Db, cache: Store, board: Id, column: Id, rows: seq<Row>, userId: Id, start: Id)
    returns (db': Db, cache': Store)
    requires column in db.columns && db.columns[column].place.parent == board
    requires forall k | k in db.cards :: k < start
    ensures db' == db.(cards := db.cards + ImportedCards(rows, column, CardCount(db, column), start, userId))
    ensures CardCount(db', column) == CardCount(db, column) + |rows|
    ensures GapFree(CardLayout(db.cards), column) ==> GapFree(CardLayout(db'.cards), column)
    ensures cache' == if |rows| > 0 then Apply(cache, Forgets(BoardKeys(board))) else cache
  {
    var base := CardCount(db, column);
    var cards := db.cards;
    cache' := cache;
    var j := 0;
    while j < |rows|
      invariant Progress(db, cache, board, column, rows, base, start, userId, j, cards, cache')
    {
      cards, cache' := AddRow(db, cache, board, column, rows, base, start, userId, j, cards, cache');
      j := j + 1;
    }
    AfterRowsIsImported(db.cards, rows, column, base, start, userId, |rows|);
    assert rows[..|rows|] == rows;
    db' := db.(cards := cards);
  }

  /** `handle()`: the column, then the cards, then BoardUpdated.
      `newColumn` is the id a created column gets and `start` the first card
      id auto-increment hands out. */
  method Import(w: World, board: Id, file: string, userId: Id, split: string -> seq<string>, newColumn: Id, start: Id)
    returns (w': World, column: Id, imported: nat, events: seq<Broadcast>)
    requires board in w.db.boards
    requires newColumn !in w.db.columns
    requires forall k | k in w.db.cards :: k < start
    ensures var rows := ImportRows(BodyLines(file), split);
      && imported == |rows|
      && w'.db.cards == w.db.cards + ImportedCards(rows, column, CardCount(w.db, column), start, userId)
    ensures CardCount(w'.db, column) == CardCount(w.db, column) + imported
    ensures GapFree(CardLayout(w.db.cards), column) ==> GapFree(CardLayout(w'.db.cards), column)
    ensures w'.db.boards == w.db.boards
    ensures (exists k | k in w.db.columns :: IsImported(w.db, board, k)) ==>
      && IsImported(w.db, board, column)
      && (forall k | IsImported(w.db, board, k) :: NoLater(w.db, column, k))
      && w'.db.columns == w.db.columns
    ensures (forall k | k in w.db.columns :: !IsImported(w.db, board, k)) ==>
      && column == newColumn
      && w'.db.columns == w.db.columns[newColumn := Column(Place(board, ColumnCount(w.db, board)), ImportedName)]
    ensures var created := forall k | k in w.db.columns :: !IsImported(w.db, board, k);
      w'.cache == if created || imported > 0 then Apply(w.cache, Forgets(BoardKeys(board))) else w.cache
    ensures events == [BoardUpdated(board)]
  {
    var db, cache, created;
    db, cache, column, created := ImportColumn(w, board, newColumn);
    var rows := ImportRows(BodyLines(file), split);
    var db', cache' := ImportCards(db, cache, board, column, rows, userId, start);
    if created && |rows| > 0 {
      ForgetTwice(w.cache, BoardKeys(board));
    }
    assert cache' == if created || |rows| > 0 then Apply(w.cache, Forgets(BoardKeys(board))) else w.cache;
    w' := World(db', cache');
    imported := |rows|;
    events := [BoardUpdated(board)];
  }
}
