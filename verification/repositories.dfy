/**
 The three Eloquent repositories. Each write changes the tables and then
 drops what the repository forgets or flushes explicitly together with what
 the model events forget through the hooks. Each read goes through the cache.
 */
module Repositories {
  import opened Wrappers
  import opened Positions
  import opened Records
  import opened CacheStore
  import opened Hooks

  /** The tables and the cache store together. */
  datatype World = World(db: Db, cache: Store)

  /** A write: the new tables, and the cache after `inv`. */
  function Commit(w: World, db': Db, inv: Invalidation): (r: World)
    ensures r.db == db'
    ensures forall s :: s in r.cache <==> s in w.cache && !Drops(inv, s)
  {
    World(db', Apply(w.cache, inv))
  }

  /** A read through the cache. */
  function Read(w: World, tags: set<Tag>, k: Key, ttl: nat): (r: (World, Snapshot))
    ensures r.0.db == w.db
    ensures FreshAt(w.cache, w.db, Slot(tags, k)) ==> r.1 == Load(w.db, k)
    ensures Hit(w.cache, Slot(tags, k)) ==> r.0 == w && r.1 == w.cache[Slot(tags, k)].value
    ensures !Hit(w.cache, Slot(tags, k)) ==> r.1 == Load(w.db, k)
    ensures Slot(tags, k) in r.0.cache && r.0.cache[Slot(tags, k)].value == r.1
    ensures !Hit(w.cache, Slot(tags, k)) ==> Slot(tags, k) in r.0.cache && r.0.cache[Slot(tags, k)].ttlMinutes == ttl
    ensures Fresh(w.cache, w.db) ==> Fresh(r.0.cache, w.db)
  {
    var (c, v) := Remember(w.cache, w.db, tags, k, ttl);
    (World(w.db, c), v)
  }

  // ---------------------------------------------------------------------
  // CardRepository
  // ---------------------------------------------------------------------

  /** `clearColumnCache($columnId)`: only when the column still exists,
      forget its key and its board's two keys. */
  function ClearColumnCache(db: Db, column: Id): (inv: Invalidation)
    ensures inv.flushes == {}
    ensures column !in db.columns ==> inv.forgets == {}
    ensures column in db.columns ==> inv.forgets == {ColumnKey(column)} + BoardKeys(db.columns[column].place.parent)
  {
    if column in db.columns then Forgets({ColumnKey(column)} + BoardKeys(db.columns[column].place.parent))
    else Nothing
  }

  /** `CardRepository::findById`: untagged `card.{id}` for 30 minutes. */
  function FindCard(w: World, id: Id): (r: (World, Snapshot))
    ensures r.0.db == w.db
    ensures FreshAt(w.cache, w.db, Slot({}, CardKey(id))) ==> r.1 == CardSnap(Find(w.db.cards, id))
    ensures !Hit(w.cache, Slot({}, CardKey(id))) ==> Slot({}, CardKey(id)) in r.0.cache && r.0.cache[Slot({}, CardKey(id))].ttlMinutes == 30
  {
    Read(w, {}, CardKey(id), 30)
  }

  /** What `CardRepository::create` drops. */
  function CardCreateDrops(db': Db, id: Id, card: Card): (inv: Invalidation)
    requires card.place.parent in db'.columns
    ensures inv.flushes == {}
    ensures inv.forgets == {ColumnKey(card.place.parent)} + BoardKeys(db'.columns[card.place.parent].place.parent)
  {
    FiredKeys(db', CardRow(id, card), Created);
    ClearColumnCache(db', card.place.parent).Plus(Fired(db', CardRow(id, card), Created))
  }

  /** `CardRepository::create`. */
  function CreateCard(w: World, id: Id, card: Card): (r: World)
    requires id !in w.db.cards && card.place.parent in w.db.columns
    ensures r.db == w.db.(cards := w.db.cards[id := card])
    ensures r.cache == Apply(w.cache, CardCreateDrops(r.db, id, card))
  {
    var db' := w.db.(cards := w.db.cards[id := card]);
    Commit(w, db', CardCreateDrops(db', id, card))
  }

  /** What `CardRepository::update` drops, given the in-memory model `held`
      before the update and the filled model `filled` after it: `card.{id}`,
      the keys of the card's (new) column, those of the old column when the
      patch moves it, and the hook's keys when some attribute changed. */
  function CardUpdateDrops(db': Db, id: Id, held: Card, filled: Card, patch: CardPatch): (inv: Invalidation)
    requires filled.place.parent in db'.columns
    ensures inv.flushes == {}
    ensures inv.forgets ==
      {CardKey(id), ColumnKey(filled.place.parent)} + BoardKeys(db'.columns[filled.place.parent].place.parent)
      + (if patch.column.Some? && patch.column.value != held.place.parent && held.place.parent in db'.columns
         then {ColumnKey(held.place.parent)} + BoardKeys(db'.columns[held.place.parent].place.parent)
         else {})
    ensures forall k | k in inv.forgets && k.CardKey? :: k.id == id
  {
    FiredKeys(db', CardRow(id, filled), Updated);
    var moved := patch.column.Some? && patch.column.value != held.place.parent;
    Forgets({CardKey(id)})
      .Plus(ClearColumnCache(db', filled.place.parent))
      .Plus(if moved then ClearColumnCache(db', held.place.parent) else Nothing)
      .Plus(if filled != held then Fired(db', CardRow(id, filled), Updated) else Nothing)
  }

  /** `CardRepository::update($card, $patch)` where `$card` is the in-memory
      model `held` and the row currently holds `db.cards[id]`. Only dirty
      attributes are written. */
  function UpdateCard(w: World, id: Id, held: Card, patch: CardPatch): (r: World)
    requires id in w.db.cards
    requires FillCard(held, patch).place.parent in w.db.columns
    ensures r.db == w.db.(cards := w.db.cards[id := WriteCard(w.db.cards[id], held, patch)])
    ensures r.cache == Apply(w.cache, CardUpdateDrops(r.db, id, held, FillCard(held, patch), patch))
  {
    var db' := w.db.(cards := w.db.cards[id := WriteCard(w.db.cards[id], held, patch)]);
    Commit(w, db', CardUpdateDrops(db', id, held, FillCard(held, patch), patch))
  }

  /** What `CardRepository::delete` drops: `card.{id}` and the keys of the
      column the card was in. */
  function CardDeleteDrops(db': Db, id: Id, card: Card): (inv: Invalidation)
    requires card.place.parent in db'.columns
    ensures inv.flushes == {}
    ensures inv.forgets == {CardKey(id), ColumnKey(card.place.parent)} + BoardKeys(db'.columns[card.place.parent].place.parent)
  {
    FiredKeys(db', CardRow(id, card), Deleted);
    Forgets({CardKey(id)}).Plus(ClearColumnCache(db', card.place.parent)).Plus(Fired(db', CardRow(id, card), Deleted))
  }

  /** `CardRepository::delete`. */
  function DeleteCard(w: World, id: Id): (r: World)
    requires id in w.db.cards && w.db.cards[id].place.parent in w.db.columns
    ensures r.db == w.db.(cards := w.db.cards - {id})
    ensures r.cache == Apply(w.cache, CardDeleteDrops(r.db, id, w.db.cards[id]))
  {
    var db' := w.db.(cards := w.db.cards - {id});
    Commit(w, db', CardDeleteDrops(db', id, w.db.cards[id]))
  }

  // ---------------------------------------------------------------------
  // ColumnRepository
  // ---------------------------------------------------------------------

  /** `ColumnRepository::findById`: untagged `column.{id}` for 30 minutes. */
  function FindColumn(w: World, id: Id): (r: (World, Snapshot))
    ensures r.0.db == w.db
    ensures FreshAt(w.cache, w.db, Slot({}, ColumnKey(id))) ==> r.1 == ColumnSnap(Find(w.db.columns, id))
    ensures !Hit(w.cache, Slot({}, ColumnKey(id))) ==> Slot({}, ColumnKey(id)) in r.0.cache && r.0.cache[Slot({}, ColumnKey(id))].ttlMinutes == 30
  {
    Read(w, {}, ColumnKey(id), 30)
  }

  /** What `ColumnRepository::create` drops: the board's two keys. */
  function ColumnCreateDrops(db': Db, id: Id, column: Column): (inv: Invalidation)
    ensures inv == Forgets(BoardKeys(column.place.parent))
  {
    FiredKeys(db', ColumnRow(id, column), Created);
    Forgets(BoardKeys(column.place.parent)).Plus(Fired(db', ColumnRow(id, column), Created))
  }

  /** `ColumnRepository::create`. */
  function CreateColumn(w: World, id: Id, column: Column): (r: World)
    requires id !in w.db.columns
    ensures r.db == w.db.(columns := w.db.columns[id := column])
    ensures r.cache == Apply(w.cache, ColumnCreateDrops(r.db, id, column))
  {
    var db' := w.db.(columns := w.db.columns[id := column]);
    Commit(w, db', ColumnCreateDrops(db', id, column))
  }

  /** What `ColumnRepository::update` drops: `column.{id}` and its board's keys. */
  function ColumnUpdateDrops(db': Db, id: Id, held: Column, filled: Column): (inv: Invalidation)
    requires held.place.parent == filled.place.parent
    ensures inv == Forgets({ColumnKey(id)} + BoardKeys(filled.place.parent))
  {
    FiredKeys(db', ColumnRow(id, filled), Updated);
    Forgets({ColumnKey(id)} + BoardKeys(filled.place.parent))
      .Plus(if filled != held then Fired(db', ColumnRow(id, filled), Updated) else Nothing)
  }

  /** `ColumnRepository::update` on the freshly loaded row. */
  function UpdateColumn(w: World, id: Id, patch: ColumnPatch): (r: World)
    requires id in w.db.columns
    ensures r.db == w.db.(columns := w.db.columns[id := FillColumn(w.db.columns[id], patch)])
    ensures r.cache == Apply(w.cache, Forgets({ColumnKey(id)} + BoardKeys(w.db.columns[id].place.parent)))
  {
    var held := w.db.columns[id];
    var db' := w.db.(columns := w.db.columns[id := FillColumn(held, patch)]);
    Commit(w, db', ColumnUpdateDrops(db', id, held, FillColumn(held, patch)))
  }

  /** What `ColumnRepository::delete` drops: `column.{id}` and the board's keys,
      from ids read before the row goes. */
  function ColumnDeleteDrops(db': Db, id: Id, column: Column): (inv: Invalidation)
    ensures inv == Forgets({ColumnKey(id)} + BoardKeys(column.place.parent))
  {
    FiredKeys(db', ColumnRow(id, column), Deleted);
    Forgets({ColumnKey(id)} + BoardKeys(column.place.parent)).Plus(Fired(db', ColumnRow(id, column), Deleted))
  }

  /** `ColumnRepository::delete`. */
  function DeleteColumn(w: World, id: Id): (r: World)
    requires id in w.db.columns
    ensures r.db == w.db.(columns := w.db.columns - {id})
    ensures r.cache == Apply(w.cache, ColumnDeleteDrops(r.db, id, w.db.columns[id]))
  {
    var db' := w.db.(columns := w.db.columns - {id});
    Commit(w, db', ColumnDeleteDrops(db', id, w.db.columns[id]))
  }

  // ---------------------------------------------------------------------
  // BoardRepository
  // ---------------------------------------------------------------------

  /** The tags of a board's own entries: `['boards', "board.{id}"]`. */
  function BoardTags(id: Id): set<Tag> {
    {BoardsTag, BoardTag(id)}
  }

  /** The tags of a user's board list: `['boards', "user.{uid}.boards"]`. */
  function UserBoardsTags(user: Id): set<Tag> {
    {BoardsTag, UserBoardsTag(user)}
  }

  /** `BoardRepository::findById`: `board.{id}` under the board's tags, 30 minutes. */
  function FindBoard(w: World, id: Id): (r: (World, Snapshot))
    ensures r.0.db == w.db
    ensures FreshAt(w.cache, w.db, Slot(BoardTags(id), BoardKey(id))) ==> r.1 == BoardSnap(Find(w.db.boards, id))
    ensures Slot(BoardTags(id), BoardKey(id)) in r.0.cache
    ensures !Hit(w.cache, Slot(BoardTags(id), BoardKey(id))) ==> Slot(BoardTags(id), BoardKey(id)) in r.0.cache && r.0.cache[Slot(BoardTags(id), BoardKey(id))].ttlMinutes == 30
  {
    Read(w, BoardTags(id), BoardKey(id), 30)
  }

  /** `BoardRepository::findByIdWithRelations`: the board with its columns and
      cards under the board's tags, 30 minutes; no board reads as `None`. */
  function FindBoardTree(w: World, id: Id): (r: (World, Snapshot))
    ensures r.0.db == w.db
    ensures FreshAt(w.cache, w.db, Slot(BoardTags(id), BoardTreeKey(id))) ==> r.1 == TreeSnap(TreeOf(w.db, id))
    ensures FreshAt(w.cache, w.db, Slot(BoardTags(id), BoardTreeKey(id))) && id !in w.db.boards ==> r.1 == TreeSnap(None)
    ensures !Hit(w.cache, Slot(BoardTags(id), BoardTreeKey(id))) ==> Slot(BoardTags(id), BoardTreeKey(id)) in r.0.cache && r.0.cache[Slot(BoardTags(id), BoardTreeKey(id))].ttlMinutes == 30
  {
    Read(w, BoardTags(id), BoardTreeKey(id), 30)
  }

  /** `BoardRepository::getAllForUser`: that user's boards only, under the
      user's tags, 10 minutes. */
  function BoardsForUser(w: World, user: Id): (r: (World, Snapshot))
    ensures r.0.db == w.db
    ensures FreshAt(w.cache, w.db, Slot(UserBoardsTags(user), UserBoardsKey(user))) ==>
      && r.1.ListSnap?
      && r.1.boards.Keys == set b | b in w.db.boards && w.db.boards[b].owner == user
      && forall b | b in r.1.boards :: b in w.db.boards && r.1.boards[b] == BoardSummary(w.db.boards[b], ColumnCount(w.db, b))
    ensures !Hit(w.cache, Slot(UserBoardsTags(user), UserBoardsKey(user))) ==>
      Slot(UserBoardsTags(user), UserBoardsKey(user)) in r.0.cache && r.0.cache[Slot(UserBoardsTags(user), UserBoardsKey(user))].ttlMinutes == 10
  {
    Read(w, UserBoardsTags(user), UserBoardsKey(user), 10)
  }

  /** `BoardRepository::getAll`: every board, untagged `boards.all`, 10 minutes. */
  function AllBoardsList(w: World): (r: (World, Snapshot))
    ensures r.0.db == w.db
    ensures FreshAt(w.cache, w.db, Slot({}, AllBoardsKey)) ==>
      && r.1.ListSnap?
      && r.1.boards.Keys == w.db.boards.Keys
      && forall b | b in r.1.boards :: b in w.db.boards && r.1.boards[b] == BoardSummary(w.db.boards[b], ColumnCount(w.db, b))
    ensures !Hit(w.cache, Slot({}, AllBoardsKey)) ==> Slot({}, AllBoardsKey) in r.0.cache && r.0.cache[Slot({}, AllBoardsKey)].ttlMinutes == 10
  {
    Read(w, {}, AllBoardsKey, 10)
  }

  /** What `BoardRepository::create` drops: a flush of the owner's list tag,
      plus the hooks' untagged forgets. */
  function BoardCreateDrops(db': Db, id: Id, board: Board): (inv: Invalidation)
    ensures inv.flushes == {UserBoardsTag(board.owner)}
    ensures inv.forgets == BoardKeys(id) + {UserBoardsKey(board.owner)}
  {
    FiredKeys(db', BoardRow(id, board), Created);
    Flushes({UserBoardsTag(board.owner)}).Plus(Fired(db', BoardRow(id, board), Created))
  }

  /** `BoardRepository::create`. */
  function CreateBoard(w: World, id: Id, board: Board): (r: World)
    requires id !in w.db.boards
    ensures r.db == w.db.(boards := w.db.boards[id := board])
    ensures r.cache == Apply(w.cache, BoardCreateDrops(r.db, id, board))
  {
    var db' := w.db.(boards := w.db.boards[id := board]);
    Commit(w, db', BoardCreateDrops(db', id, board))
  }

  /** What `BoardRepository::update` and `::delete` flush: the board's tag and
      the owner's list tag; the hooks add untagged forgets when they fire. */
  function BoardWriteDrops(db': Db, id: Id, board: Board, fires: bool, e: ModelEvent): (inv: Invalidation)
    ensures inv.flushes == {BoardTag(id), UserBoardsTag(board.owner)}
    ensures AllBoardsKey !in inv.forgets
    ensures fires && IsPostWrite(e) ==> inv.forgets == BoardKeys(id) + {UserBoardsKey(board.owner)}
  {
    FiredKeys(db', BoardRow(id, board), e);
    Flushes({BoardTag(id), UserBoardsTag(board.owner)})
      .Plus(if fires then Fired(db', BoardRow(id, board), e) else Nothing)
  }

  /** `BoardRepository::update` on the freshly loaded row. */
  function UpdateBoard(w: World, id: Id, patch: BoardPatch): (r: World)
    requires id in w.db.boards
    ensures r.db == w.db.(boards := w.db.boards[id := FillBoard(w.db.boards[id], patch)])
    ensures var b := w.db.boards[id];
      r.cache == Apply(w.cache, BoardWriteDrops(r.db, id, FillBoard(b, patch), FillBoard(b, patch) != b, Updated))
  {
    var b := w.db.boards[id];
    var db' := w.db.(boards := w.db.boards[id := FillBoard(b, patch)]);
    Commit(w, db', BoardWriteDrops(db', id, FillBoard(b, patch), FillBoard(b, patch) != b, Updated))
  }

  /** `BoardRepository::delete`, with the ids read before the row goes. */
  function DeleteBoard(w: World, id: Id): (r: World)
    requires id in w.db.boards
    ensures r.db == w.db.(boards := w.db.boards - {id})
    ensures r.cache == Apply(w.cache, BoardWriteDrops(r.db, id, w.db.boards[id], true, Deleted))
  {
    var db' := w.db.(boards := w.db.boards - {id});
    Commit(w, db', BoardWriteDrops(db', id, w.db.boards[id], true, Deleted))
  }

  /** A flush of the owner's list tag drops the cached list whatever tags it
      was stored under, and the board's tag drops both board entries. */
  lemma BoardFlushesReachTaggedEntries(db': Db, id: Id, board: Board, fires: bool, e: ModelEvent)
    ensures Drops(BoardWriteDrops(db', id, board, fires, e), Slot(BoardTags(id), BoardKey(id)))
    ensures Drops(BoardWriteDrops(db', id, board, fires, e), Slot(BoardTags(id), BoardTreeKey(id)))
    ensures Drops(BoardWriteDrops(db', id, board, fires, e), Slot(UserBoardsTags(board.owner), UserBoardsKey(board.owner)))
    ensures !Drops(BoardWriteDrops(db', id, board, fires, e), Slot({}, AllBoardsKey))
  {
    assert BoardTag(id) in BoardTags(id) * BoardWriteDrops(db', id, board, fires, e).flushes;
    assert UserBoardsTag(board.owner) in UserBoardsTags(board.owner) * BoardWriteDrops(db', id, board, fires, e).flushes;
  }
}
