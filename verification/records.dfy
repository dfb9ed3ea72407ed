/**
 The stored state: the boards, columns and cards tables as finite maps from
 id to row, the attribute arrays passed to `update()`, and Eloquent's
 dirty-attribute write of such an array.
 */
module Records {
  import opened Wrappers
  import opened Positions

  /** A row of `boards`: `user_id` is the owner. */
  datatype Board = Board(name: string, description: Option<string>, owner: Id)

  /** A row of `columns`: `place.parent` is `board_id`. */
  datatype Column = Column(place: Place, name: string)

  /** A row of `cards`: `place.parent` is `column_id`; `user` is `user_id`. */
  datatype Card = Card(place: Place, title: string, description: Option<string>, user: Option<Id>)

  /** The three tables. */
  datatype Db = Db(boards: map<Id, Board>, columns: map<Id, Column>, cards: map<Id, Card>)

  /** The places of the cards, keyed by card id. */
  function CardLayout(cards: map<Id, Card>): (l: Layout)
    ensures l.Keys == cards.Keys
    ensures forall k | k in cards :: l[k] == cards[k].place
  {
    map k | k in cards :: cards[k].place
  }

  /** The places of the columns, keyed by column id. */
  function ColumnLayout(columns: map<Id, Column>): (l: Layout)
    ensures l.Keys == columns.Keys
    ensures forall k | k in columns :: l[k] == columns[k].place
  {
    map k | k in columns :: columns[k].place
  }

  /** Writing one card changes only its own place. */
  lemma CardLayoutUpdate(cards: map<Id, Card>, id: Id, c: Card)
    ensures CardLayout(cards[id := c]) == CardLayout(cards)[id := c.place]
  {
  }

  lemma CardLayoutRemove(cards: map<Id, Card>, id: Id)
    ensures CardLayout(cards - {id}) == CardLayout(cards) - {id}
  {
  }

  lemma ColumnLayoutUpdate(columns: map<Id, Column>, id: Id, c: Column)
    ensures ColumnLayout(columns[id := c]) == ColumnLayout(columns)[id := c.place]
  {
  }

  lemma ColumnLayoutRemove(columns: map<Id, Column>, id: Id)
    ensures ColumnLayout(columns - {id}) == ColumnLayout(columns) - {id}
  {
  }

  /** Every card's column and every column's board exists (the foreign keys). */
  predicate WellFormed(db: Db) {
    && (forall k | k in db.cards :: db.cards[k].place.parent in db.columns)
    && (forall k | k in db.columns :: db.columns[k].place.parent in db.boards)
  }

  /** `$board->columns()->count()`. */
  function ColumnCount(db: Db, board: Id): nat {
    Count(ColumnLayout(db.columns), board)
  }

  /** `$column->cards()->count()`. */
  function CardCount(db: Db, column: Id): nat {
    Count(CardLayout(db.cards), column)
  }

  /** `$card->column->board_id`. */
  function BoardOfCard(db: Db, card: Id): Id
    requires card in db.cards && db.cards[card].place.parent in db.columns
  {
    db.columns[db.cards[card].place.parent].place.parent
  }

  /** Whether a card sits in a column of `board`. */
  predicate CardOnBoard(db: Db, card: Id, board: Id)
    requires card in db.cards
  {
    var col := db.cards[card].place.parent;
    col in db.columns && db.columns[col].place.parent == board
  }

  // ---------------------------------------------------------------------
  // Attribute arrays and Eloquent's dirty write
  // ---------------------------------------------------------------------

  /** The array handed to `$card->update()`: a key is present or absent. */
  datatype CardPatch = CardPatch(
    title: Option<string>, description: Option<Option<string>>,
    column: Option<Id>, position: Option<int>)

  /** The array handed to `$column->update()`. */
  datatype ColumnPatch = ColumnPatch(name: Option<string>, position: Option<int>)

  /** The array handed to `$board->update()`. */
  datatype BoardPatch = BoardPatch(name: Option<string>, description: Option<Option<string>>)

  /** `fill()`: every present key overwrites its attribute. */
  function FillCard(c: Card, p: CardPatch): (r: Card)
    ensures r.title == p.title.GetOr(c.title)
    ensures r.description == p.description.GetOr(c.description)
    ensures r.place == Place(p.column.GetOr(c.place.parent), p.position.GetOr(c.place.pos))
    ensures r.user == c.user
  {
    Card(Place(p.column.GetOr(c.place.parent), p.position.GetOr(c.place.pos)),
         p.title.GetOr(c.title), p.description.GetOr(c.description), c.user)
  }

  function FillColumn(c: Column, p: ColumnPatch): (r: Column)
    ensures r.name == p.name.GetOr(c.name)
    ensures r.place == Place(c.place.parent, p.position.GetOr(c.place.pos))
  {
    Column(Place(c.place.parent, p.position.GetOr(c.place.pos)), p.name.GetOr(c.name))
  }

  function FillBoard(b: Board, p: BoardPatch): (r: Board)
    ensures r.name == p.name.GetOr(b.name)
    ensures r.description == p.description.GetOr(b.description)
    ensures r.owner == b.owner
  {
    Board(p.name.GetOr(b.name), p.description.GetOr(b.description), b.owner)
  }

  /** The value stored for one attribute by `save()`: the filled value if it
      differs from the in-memory original (dirty), otherwise whatever the row
      already holds, since only dirty attributes are written. */
  function Dirty<T(==)>(row: T, held: T, filled: T): T {
    if filled != held then filled else row
  }

  /** `$card->update($patch)` on an in-memory model `held` whose row now holds
      `row`: only the attributes the patch changes relative to `held` reach the
      row. When `held` is the current row this is the patch applied to it. */
  function WriteCard(row: Card, held: Card, p: CardPatch): (r: Card)
    ensures row == held ==> r == FillCard(held, p)
    ensures FillCard(held, p) == held ==> r == row
    ensures p.column.Some? && p.column.value != held.place.parent ==> r.place.parent == p.column.value
    ensures p.position.Some? && p.position.value != held.place.pos ==> r.place.pos == p.position.value
  {
    var f := FillCard(held, p);
    Card(Place(Dirty(row.place.parent, held.place.parent, f.place.parent),
               Dirty(row.place.pos, held.place.pos, f.place.pos)),
         Dirty(row.title, held.title, f.title),
         Dirty(row.description, held.description, f.description),
         Dirty(row.user, held.user, f.user))
  }

  /** Filling twice with the same array is filling once, and an empty array
      fills nothing. So repeating an update finds nothing dirty and leaves
      the row as the first update wrote it. */
  lemma FillIdempotent(c: Card, col: Column, b: Board, p: CardPatch, q: ColumnPatch, bp: BoardPatch)
    ensures FillCard(FillCard(c, p), p) == FillCard(c, p)
    ensures FillColumn(FillColumn(col, q), q) == FillColumn(col, q)
    ensures FillBoard(FillBoard(b, bp), bp) == FillBoard(b, bp)
    ensures FillCard(c, CardPatch(None, None, None, None)) == c
    ensures FillColumn(col, ColumnPatch(None, None)) == col
    ensures FillBoard(b, BoardPatch(None, None)) == b
    ensures WriteCard(FillCard(c, p), FillCard(c, p), p) == FillCard(c, p)
  {
  }
}
