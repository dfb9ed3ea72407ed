/**
 What the cache serves after a write. The repositories store board entries
 under tag sets but the card and column writes forget untagged keys only,
 `boards.all` is forgotten by no write, and bulk updates fire no hooks. So a
 read that hits one of the surviving slots returns what the tables held
 before the write. Each lemma starts from a store in which every slot is
 fresh and names the slot that is served stale.
 */
module Staleness {
  import opened Wrappers
  import opened Positions
  import opened Records
  import opened CacheStore
  import opened Repositories
  import opened Roles
  import opened Dto
  import CardService
  import ColumnService
  import BoardService

  /** A slot that a write does not forget keeps the value read before it. */
  lemma Survives(c: Store, c': Store, db: Db, forgets: set<Key>, s: Slot)
    requires Fresh(c, db) && ForgetsExactly(c, c', forgets)
    requires s in c && !(s.tags == {} && s.key in forgets)
    ensures s in c' && c'[s].value == Load(db, s.key)
  {
  }

  /** A card sits in the tree of its column's board. */
  lemma InTree(db: Db, id: Id, b: Id)
    requires b in db.boards && id in db.cards
    requires db.cards[id].place.parent in db.columns
    requires db.columns[db.cards[id].place.parent].place.parent == b
    ensures TreeOf(db, b).Some? && id in TreeOf(db, b).value.cards
  {
    assert CardOnBoard(db, id, b);
  }

  /** A board tree that a write does not forget is served as it was read
      before the write. */
  lemma TreeServedStale(w: World, r: World, forgets: set<Key>, b: Id)
    requires Fresh(w.cache, w.db) && ForgetsExactly(w.cache, r.cache, forgets)
    requires b in w.db.boards && Slot(BoardTags(b), BoardTreeKey(b)) in w.cache
    ensures BoardService.GetWithRelations(r, b).1 == TreeSnap(TreeOf(w.db, b))
  {
    Survives(w.cache, r.cache, w.db, forgets, Slot(BoardTags(b), BoardTreeKey(b)));
  }

  /** Creating a card does not reach the board tree cached under the board's
      tags: the board page keeps showing the tree without the new card. */
  lemma CardCreateLeavesBoardTreeStale(w: World, column: Id, data: CardData, id: Id)
    requires column in w.db.columns && id !in w.db.cards && data.title.Given?
    requires w.db.columns[column].place.parent in w.db.boards
    requires Fresh(w.cache, w.db)
    requires Slot(BoardTags(w.db.columns[column].place.parent), BoardTreeKey(w.db.columns[column].place.parent)) in w.cache
    ensures var b := w.db.columns[column].place.parent;
      var r := CardService.Create(w, column, data, id);
      && BoardService.GetWithRelations(r, b).1 == TreeSnap(TreeOf(w.db, b))
      && id !in TreeOf(w.db, b).value.cards
      && id in TreeOf(r.db, b).value.cards
  {
    var b := w.db.columns[column].place.parent;
    var r := CardService.Create(w, column, data, id);
    CardService.CreateForgets(w, column, data, id);
    TreeServedStale(w, r, CardService.ColumnKeys(w.db, column), b);
    InTree(r.db, id, b);
  }

  /** A `null` cached for a missing card is no obstacle: once the card is
      created, the next read loads it, even though the create forgets only
      the column's keys. */
  lemma CreateAfterCachedNullReadsNewCard(w: World, column: Id, data: CardData, id: Id)
    requires column in w.db.columns && id !in w.db.cards && data.title.Given?
    requires Fresh(w.cache, w.db) && Slot({}, CardKey(id)) in w.cache
    ensures w.cache[Slot({}, CardKey(id))].value == CardSnap(None)
    ensures var r := CardService.Create(w, column, data, id);
      FindCard(r, id).1 == CardSnap(Some(r.db.cards[id]))
  {
    var r := CardService.Create(w, column, data, id);
    CardService.CreateForgets(w, column, data, id);
    assert !Hit(r.cache, Slot({}, CardKey(id)));
  }

  /** A card entry that a write does not forget is served as it was read
      before the write. */
  lemma CardServedStale(w: World, r: World, forgets: set<Key>, x: Id)
    requires Fresh(w.cache, w.db) && ForgetsExactly(w.cache, r.cache, forgets)
    requires x in w.db.cards && Slot({}, CardKey(x)) in w.cache && CardKey(x) !in forgets
    ensures FindCard(r, x).1 == CardSnap(Some(w.db.cards[x]))
  {
    Survives(w.cache, r.cache, w.db, forgets, Slot({}, CardKey(x)));
  }

  /** A move into another column shifts the cards at and after the requested
      place by a bulk update, which forgets nothing for them: `card.{x}` of
      such a sibling keeps serving its old position. */
  lemma MoveLeavesShiftedSiblingStale(w: World, id: Id, target: Id, r: int, x: Id)
    requires id in w.db.cards && w.db.cards[id].place.parent in w.db.columns
    requires target in w.db.columns && r >= 0
    requires CardService.SameBoard(w.db, id, target) && w.db.cards[id].place.parent != target
    requires x in w.db.cards && w.db.cards[x].place.parent == target && w.db.cards[x].place.pos >= r
    requires Fresh(w.cache, w.db) && Slot({}, CardKey(x)) in w.cache
    ensures var o := CardService.Move(w, id, target, r);
      && o.Done?
      && o.world.db.cards[x].place.pos == w.db.cards[x].place.pos + 1
      && FindCard(o.world, x).1 == CardSnap(Some(w.db.cards[x]))
  {
    var l := CardLayout(w.db.cards);
    MovedSiblings(l, id, target, r);
    SiblingShifted(w, id, target, r, x);
    CardService.MoveForgets(w, id, target, r);
    CardServedStale(w, CardService.Move(w, id, target, r).world,
      {CardKey(id)} + CardService.ColumnKeys(w.db, target) + CardService.ColumnKeys(w.db, w.db.cards[id].place.parent), x);
  }

  /** The sibling's new position, read off the layout. */
  lemma SiblingShifted(w: World, id: Id, target: Id, r: int, x: Id)
    requires id in w.db.cards && w.db.cards[id].place.parent in w.db.columns
    requires target in w.db.columns && r >= 0
    requires CardService.SameBoard(w.db, id, target) && w.db.cards[id].place.parent != target
    requires x in w.db.cards && w.db.cards[x].place.parent == target && w.db.cards[x].place.pos >= r
    requires var l := CardLayout(w.db.cards); Positions.Move(l, id, target, r)[x] == Place(target, l[x].pos + 1)
    ensures var o := CardService.Move(w, id, target, r);
      o.Done? && o.world.db.cards[x].place.pos == w.db.cards[x].place.pos + 1
  {
    var o := CardService.Move(w, id, target, r);
    assert o.world.db.cards[x].place == CardLayout(o.world.db.cards)[x];
  }

  /** Deleting a column removes its cards with one bulk delete: `card.{x}` of
      such a card keeps serving a card that no longer exists. */
  lemma ColumnDeleteLeavesCardsStale(w: World, column: Id, x: Id)
    requires column in w.db.columns
    requires x in w.db.cards && w.db.cards[x].place.parent == column
    requires Fresh(w.cache, w.db) && Slot({}, CardKey(x)) in w.cache
    ensures var r := ColumnService.Delete(w, column).0;
      && x !in r.db.cards
      && FindCard(r, x).1 == CardSnap(Some(w.db.cards[x]))
  {
    ColumnService.DeleteForgets(w, column);
    CardServedStale(w, ColumnService.Delete(w, column).0,
      {ColumnKey(column)} + Hooks.BoardKeys(w.db.columns[column].place.parent), x);
  }

  /** A user's list that a write does not forget is served as it was read
      before the write. */
  lemma UserListServedStale(w: World, r: World, forgets: set<Key>, u: Id)
    requires Fresh(w.cache, w.db) && ForgetsExactly(w.cache, r.cache, forgets)
    requires Slot(UserBoardsTags(u), UserBoardsKey(u)) in w.cache
    ensures BoardsForUser(r, u).1 == ListSnap(BoardsOwnedBy(w.db, u))
  {
    Survives(w.cache, r.cache, w.db, forgets, Slot(UserBoardsTags(u), UserBoardsKey(u)));
  }

  /** Creating a column forgets only the untagged board keys: the owner's
      board list, cached under its tags, keeps the old `columns_count`. */
  lemma ColumnCreateLeavesUserListStale(w: World, board: Id, data: ColumnData, id: Id)
    requires board in w.db.boards && id !in w.db.columns && data.name.Given?
    requires Fresh(w.cache, w.db)
    requires var u := w.db.boards[board].owner; Slot(UserBoardsTags(u), UserBoardsKey(u)) in w.cache
    ensures var u := w.db.boards[board].owner;
      var r := ColumnService.Create(w, board, data, id);
      && ColumnCount(r.db, board) == ColumnCount(w.db, board) + 1
      && BoardsForUser(r, u).1 == ListSnap(BoardsOwnedBy(w.db, u))
      && BoardsOwnedBy(w.db, u)[board].columnsCount == ColumnCount(w.db, board)
  {
    var u := w.db.boards[board].owner;
    var r := ColumnService.Create(w, board, data, id);
    assert ColumnCount(r.db, board) == ColumnCount(w.db, board) + 1 by {
      AddCount(ColumnLayout(w.db.columns), id, Place(board, ColumnCount(w.db, board)));
    }
    ColumnService.CreateForgets(w, board, data, id);
    UserListServedStale(w, r, Hooks.BoardKeys(board), u);
  }

  /** An admin's list, when the write drops nothing of `boards.all`, is
      served as it was read before the write. */
  lemma AllBoardsServedStale(w: World, r: World, inv: Invalidation, admin: User)
    requires IsAdmin(admin)
    requires Fresh(w.cache, w.db) && Slot({}, AllBoardsKey) in w.cache
    requires r.cache == Apply(w.cache, inv) && AllBoardsKey !in inv.forgets
    ensures BoardService.GetAllForUser(r, admin).1 == ListSnap(AllBoards(w.db))
  {
    assert !Drops(inv, Slot({}, AllBoardsKey));
  }

  /** No board write forgets `boards.all`: after a create an admin's list
      still lacks the new board. */
  lemma BoardCreateLeavesAllBoardsStale(w: World, admin: User, owner: Id, data: BoardData, id: Id, cols: seq<Id>)
    requires IsAdmin(admin)
    requires id !in w.db.boards && data.name.Given?
    requires |cols| == 3 && cols[0] != cols[1] && cols[1] != cols[2] && cols[0] != cols[2]
    requires forall i | 0 <= i < 3 :: cols[i] !in w.db.columns
    requires Fresh(w.cache, w.db) && Slot({}, AllBoardsKey) in w.cache
    ensures var o := BoardService.Create(w, owner, data, id, cols, false);
      && id in o.world.db.boards
      && BoardService.GetAllForUser(o.world, admin).1 == ListSnap(AllBoards(w.db))
      && id !in AllBoards(w.db)
  {
    var o := BoardService.Create(w, owner, data, id, cols, false);
    AllBoardsServedStale(w, o.world, BoardService.CreateDrops(owner, id), admin);
  }

  /** After a delete an admin's list still shows the deleted board. */
  lemma BoardDeleteLeavesAllBoardsStale(w: World, admin: User, id: Id)
    requires IsAdmin(admin) && id in w.db.boards
    requires Fresh(w.cache, w.db) && Slot({}, AllBoardsKey) in w.cache
    ensures var o := BoardService.Delete(w, id, false);
      && id !in o.world.db.boards
      && BoardService.GetAllForUser(o.world, admin).1 == ListSnap(AllBoards(w.db))
      && id in AllBoards(w.db)
  {
    var o := BoardService.Delete(w, id, false);
    AllBoardsServedStale(w, o.world, BoardWriteDrops(o.world.db, id, w.db.boards[id], true, Hooks.Deleted), admin);
  }

  /** After an update an admin's list still shows the board as it was. */
  lemma BoardUpdateLeavesAllBoardsStale(w: World, admin: User, id: Id, data: BoardData)
    requires IsAdmin(admin) && id in w.db.boards
    requires Fresh(w.cache, w.db) && Slot({}, AllBoardsKey) in w.cache
    ensures var r := BoardService.Update(w, id, data);
      BoardService.GetAllForUser(r, admin).1 == ListSnap(AllBoards(w.db))
  {
    var b := w.db.boards[id];
    var r := BoardService.Update(w, id, data);
    var patch := BoardService.UpdatePatch(data);
    AllBoardsServedStale(w, r, BoardWriteDrops(r.db, id, FillBoard(b, patch), FillBoard(b, patch) != b, Hooks.Updated), admin);
  }

  /** By contrast, a board update flushes the board's tag: the board and its
      tree are read afresh, whatever was cached. */
  lemma BoardUpdateReadsFresh(w: World, id: Id, data: BoardData)
    requires id in w.db.boards
    ensures var r := BoardService.Update(w, id, data);
      && FindBoard(r, id).1 == BoardSnap(Some(r.db.boards[id]))
      && FindBoardTree(r, id).1 == TreeSnap(TreeOf(r.db, id))
  {
    var r := BoardService.Update(w, id, data);
    assert Slot(BoardTags(id), BoardKey(id)) !in r.cache;
    assert Slot(BoardTags(id), BoardTreeKey(id)) !in r.cache;
  }

  /** A card update forgets `card.{id}`: the next read of the card is fresh. */
  lemma CardUpdateReadsFresh(w: World, id: Id, data: CardData)
    requires id in w.db.cards && w.db.cards[id].place.parent in w.db.columns
    ensures var r := CardService.Update(w, id, data);
      FindCard(r, id).1 == CardSnap(Some(r.db.cards[id]))
  {
    CardService.UpdateForgets(w, id, data);
  }
}
