/**
 The cache keys the models' lifecycle hooks forget: each model's
 `clearRelatedCache()`, wired by the ClearsCache trait to the post-write
 events, and the extra closures Board registers in `booted()`.
 Query-builder bulk writes fire no model events and so reach none of this.
 */
module Hooks {
  import opened Positions
  import opened Records
  import opened CacheStore

  /** Eloquent's model events around a write. */
  datatype ModelEvent = Creating | Created | Updating | Updated | Deleting | Deleted

  /** The events ClearsCache attaches to: the ones after the write. */
  predicate IsPostWrite(e: ModelEvent) {
    e == Created || e == Updated || e == Deleted
  }

  /** The model instance an event fires on. */
  datatype Subject =
    | CardRow(id: Id, card: Card)
    | ColumnRow(id: Id, column: Column)
    | BoardRow(id: Id, board: Board)

  /** `board.{b}` and `board.{b}.with_relations`. */
  function BoardKeys(b: Id): set<Key> {
    {BoardKey(b), BoardTreeKey(b)}
  }

  /** Whether the card subject's column can be resolved (`$this->column`). */
  predicate Resolvable(db: Db, s: Subject) {
    s.CardRow? ==> s.card.place.parent in db.columns
  }

  /** The board a subject belongs to: itself, its board, or its column's board. */
  function SubjectBoard(db: Db, s: Subject): Id
    requires Resolvable(db, s)
  {
    match s
    case CardRow(_, card) => db.columns[card.place.parent].place.parent
    case ColumnRow(_, column) => column.place.parent
    case BoardRow(id, _) => id
  }

  /** Each model's `clearRelatedCache()`. Every model supplies one, so the
      match is total. */
  function ClearRelatedCache(db: Db, s: Subject): (inv: Invalidation)
    requires Resolvable(db, s)
    ensures inv.flushes == {}
    ensures BoardKeys(SubjectBoard(db, s)) <= inv.forgets
  {
    match s
    case CardRow(_, card) => Forgets(BoardKeys(db.columns[card.place.parent].place.parent))
    case ColumnRow(_, column) => Forgets(BoardKeys(column.place.parent))
    case BoardRow(id, board) => Forgets(BoardKeys(id) + {UserBoardsKey(board.owner)})
  }

  /** The closures of `Board::booted()`; Column and Card register none. */
  function BootedHooks(s: Subject, e: ModelEvent): Invalidation {
    match s
    case BoardRow(id, board) =>
      if e == Created then Forgets({UserBoardsKey(board.owner)})
      else if e == Updated || e == Deleted then Forgets(BoardKeys(id) + {UserBoardsKey(board.owner)})
      else Nothing
    case _ => Nothing
  }

  /** Everything a model event forgets: ClearsCache's call plus `booted()`. */
  function Fired(db: Db, s: Subject, e: ModelEvent): Invalidation
    requires Resolvable(db, s)
  {
    (if IsPostWrite(e) then ClearRelatedCache(db, s) else Nothing).Plus(BootedHooks(s, e))
  }

  /** The hooks forget exactly the related keys on every post-write event
      (Board's `booted()` closures add nothing new) and nothing before a
      write. They never flush a tag, and never forget a card or column key. */
  lemma FiredKeys(db: Db, s: Subject, e: ModelEvent)
    requires Resolvable(db, s)
    ensures Fired(db, s, e).flushes == {}
    ensures IsPostWrite(e) ==>
      Fired(db, s, e).forgets == BoardKeys(SubjectBoard(db, s)) + (if s.BoardRow? then {UserBoardsKey(s.board.owner)} else {})
    ensures !IsPostWrite(e) ==> Fired(db, s, e).forgets == {}
    ensures forall k | k in Fired(db, s, e).forgets :: !k.CardKey? && !k.ColumnKey? && !k.AllBoardsKey?
  {
  }
}
