/**
 BoardService: the board list an admin or a user sees, the board tree,
 creating a board with its three default columns, patching a board, and
 deleting a board with everything on it.
 */
module BoardService {
  import opened Wrappers
  import opened Positions
  import opened Records
  import opened CacheStore
  import opened Hooks
  import opened Repositories
  import opened Dto
  import opened Roles
  import opened Outcomes

  /** `getAllForUser($user)`: every board for an admin (untagged `boards.all`),
      only the user's own boards otherwise. */
  function GetAllForUser(w: World, u: User): (r: (World, Snapshot))
    ensures r.0.db == w.db
    ensures IsAdmin(u) && FreshAt(w.cache, w.db, Slot({}, AllBoardsKey)) ==>
      r.1.ListSnap? && r.1.boards.Keys == w.db.boards.Keys
    ensures !IsAdmin(u) && FreshAt(w.cache, w.db, Slot(UserBoardsTags(u.id), UserBoardsKey(u.id))) ==>
      r.1.ListSnap? && r.1.boards.Keys == set b | b in w.db.boards && w.db.boards[b].owner == u.id
    ensures (if IsAdmin(u) then FreshAt(w.cache, w.db, Slot({}, AllBoardsKey))
             else FreshAt(w.cache, w.db, Slot(UserBoardsTags(u.id), UserBoardsKey(u.id)))) ==>
      forall b | b in r.1.boards :: b in w.db.boards && r.1.boards[b] == BoardSummary(w.db.boards[b], ColumnCount(w.db, b))
  {
    if IsAdmin(u) then AllBoardsList(w) else BoardsForUser(w, u.id)
  }

  /** `getWithRelations($board)`: the cached board tree. */
  function GetWithRelations(w: World, board: Id): (r: (World, Snapshot))
    ensures r.0.db == w.db
    ensures FreshAt(w.cache, w.db, Slot(BoardTags(board), BoardTreeKey(board))) ==> r.1 == TreeSnap(TreeOf(w.db, board))
  {
    FindBoardTree(w, board)
  }

  /** The default columns, in position order. */
  const DefaultColumnNames: seq<string> := ["À faire", "En cours", "Terminé"]

  /** What creating the board and its three columns drops: the repository's
      flush of the owner's list tag, the board's `created` hooks, and each
      column's `created` hook. */
  function CreateDrops(owner: Id, id: Id): Invalidation {
    Invalidation(BoardKeys(id) + {UserBoardsKey(owner)}, {UserBoardsTag(owner)})
  }

  /** `createMany` of the three default columns of board `id`: three model
      creates, each forgetting the board's two keys. */
  function CreateDefaultColumns(w: World, id: Id, cols: seq<Id>): (r: World)
    requires |cols| == 3 && cols[0] != cols[1] && cols[1] != cols[2] && cols[0] != cols[2]
    requires forall i | 0 <= i < 3 :: cols[i] !in w.db.columns
    ensures r.db.boards == w.db.boards && r.db.cards == w.db.cards
    ensures r.db.columns.Keys == w.db.columns.Keys + {cols[0], cols[1], cols[2]}
    ensures forall k | k in w.db.columns :: r.db.columns[k] == w.db.columns[k]
    ensures forall i | 0 <= i < 3 :: r.db.columns[cols[i]] == Column(Place(id, i), DefaultColumnNames[i])
    ensures r.cache == Apply(w.cache, Forgets(BoardKeys(id)))
  {
    var w2 := CreateColumn(w, cols[0], Column(Place(id, 0), DefaultColumnNames[0]));
    var w3 := CreateColumn(w2, cols[1], Column(Place(id, 1), DefaultColumnNames[1]));
    var w4 := CreateColumn(w3, cols[2], Column(Place(id, 2), DefaultColumnNames[2]));
    ApplyPlus(w.cache, Forgets(BoardKeys(id)), Forgets(BoardKeys(id)));
    ApplyPlus(w2.cache, Forgets(BoardKeys(id)), Forgets(BoardKeys(id)));
    assert Forgets(BoardKeys(id)).Plus(Forgets(BoardKeys(id))) == Forgets(BoardKeys(id));
    w4
  }

  /** `create($user, $data)` in one transaction: the board, then the three
      default columns through `createMany`, each a model create. `fail` stands
      for a storage error inside the transaction, after which nothing exists. */
  function Create(w: World, owner: Id, data: BoardData, id: Id, cols: seq<Id>, fail: bool): (o: Outcome<Board>)
    requires id !in w.db.boards
    requires data.name.Given?
    requires |cols| == 3 && cols[0] != cols[1] && cols[1] != cols[2] && cols[0] != cols[2]
    requires forall i | 0 <= i < 3 :: cols[i] !in w.db.columns
    ensures fail <==> o.Failed?
    ensures o.Failed? ==> o.error == StorageFailure
    ensures o.Done? ==>
      && o.value == Board(data.name.value, data.description, owner)
      && o.world.db.boards == w.db.boards[id := o.value]
      && o.world.db.cards == w.db.cards
      && o.world.db.columns.Keys == w.db.columns.Keys + {cols[0], cols[1], cols[2]}
      && (forall k | k in w.db.columns :: o.world.db.columns[k] == w.db.columns[k])
      && (forall i | 0 <= i < 3 :: o.world.db.columns[cols[i]] == Column(Place(id, i), DefaultColumnNames[i]))
      && o.world.cache == Apply(w.cache, CreateDrops(owner, id))
      && o.events == []
  {
    if fail then Failed(StorageFailure)
    else
      var board := Board(data.name.value, data.description, owner);
      var w1 := CreateBoard(w, id, board);
      var w4 := CreateDefaultColumns(w1, id, cols);
      ApplyPlus(w.cache, BoardCreateDrops(w1.db, id, board), Forgets(BoardKeys(id)));
      assert BoardCreateDrops(w1.db, id, board).Plus(Forgets(BoardKeys(id))) == CreateDrops(owner, id);
      Done(w4, board, [])
  }

  /** On a database whose columns all belong to existing boards, a created
      board has exactly its three columns, at the gap-free positions 0, 1, 2. */
  lemma CreateGivesThreeGapFreeColumns(w: World, owner: Id, data: BoardData, id: Id, cols: seq<Id>)
    requires id !in w.db.boards && data.name.Given?
    requires |cols| == 3 && cols[0] != cols[1] && cols[1] != cols[2] && cols[0] != cols[2]
    requires forall i | 0 <= i < 3 :: cols[i] !in w.db.columns
    requires WellFormed(w.db)
    ensures var o := Create(w, owner, data, id, cols, false);
      && Members(ColumnLayout(o.world.db.columns), id) == {cols[0], cols[1], cols[2]}
      && ColumnCount(o.world.db, id) == 3
      && GapFree(ColumnLayout(o.world.db.columns), id)
  {
    var o := Create(w, owner, data, id, cols, false);
    ThreeColumns(w.db, o.world.db.columns, id, cols);
  }

  lemma ThreeColumns(db: Db, cs: map<Id, Column>, id: Id, cols: seq<Id>)
    requires id !in db.boards && WellFormed(db)
    requires |cols| == 3 && cols[0] != cols[1] && cols[1] != cols[2] && cols[0] != cols[2]
    requires cs.Keys == db.columns.Keys + {cols[0], cols[1], cols[2]}
    requires forall k | k in db.columns :: cs[k] == db.columns[k]
    requires forall i | 0 <= i < 3 :: cs[cols[i]] == Column(Place(id, i), DefaultColumnNames[i])
    ensures Members(ColumnLayout(cs), id) == {cols[0], cols[1], cols[2]}
    ensures Count(ColumnLayout(cs), id) == 3
    ensures GapFree(ColumnLayout(cs), id)
  {
    var l := ColumnLayout(cs);
    forall k | k in l && k != cols[0] && k != cols[1] && k != cols[2] ensures l[k].parent != id {
      assert k in db.columns;
      assert db.columns[k].place.parent in db.boards;
    }
    assert l[cols[0]] == Place(id, 0) && l[cols[1]] == Place(id, 1) && l[cols[2]] == Place(id, 2);
    ThreeFresh(l, id, cols[0], cols[1], cols[2]);
  }

  /** The attribute array `update()` builds: the name when given, the
      description when non-null or a name is given. */
  function UpdatePatch(data: BoardData): BoardPatch {
    BoardPatch(
      if data.name.Given? then Some(data.name.value) else None,
      if data.description.Some? || data.name.Given? then Some(data.description) else None)
  }

  /** `update($board, $data)`. The board's tag and its owner's list tag are
      flushed whatever changed. */
  function Update(w: World, id: Id, data: BoardData): (r: World)
    requires id in w.db.boards
    ensures r.db.columns == w.db.columns && r.db.cards == w.db.cards
    ensures r.db.boards.Keys == w.db.boards.Keys
    ensures forall k | k in w.db.boards && k != id :: r.db.boards[k] == w.db.boards[k]
    ensures r.db.boards[id].name == if data.name.Given? then data.name.value else w.db.boards[id].name
    ensures r.db.boards[id].description ==
      if data.description.Some? || data.name.Given? then data.description else w.db.boards[id].description
    ensures r.db.boards[id].owner == w.db.boards[id].owner
    ensures forall s | s in w.cache && (BoardTag(id) in s.tags || UserBoardsTag(w.db.boards[id].owner) in s.tags) ::
      s !in r.cache
    ensures Slot({}, AllBoardsKey) in w.cache ==> Slot({}, AllBoardsKey) in r.cache
  {
    var b := w.db.boards[id];
    var r := UpdateBoard(w, id, UpdatePatch(data));
    forall s | s in w.cache && (BoardTag(id) in s.tags || UserBoardsTag(b.owner) in s.tags)
      ensures s !in r.cache
    {
      var inv := BoardWriteDrops(r.db, id, FillBoard(b, UpdatePatch(data)), FillBoard(b, UpdatePatch(data)) != b, Updated);
      if BoardTag(id) in s.tags {
        assert BoardTag(id) in s.tags * inv.flushes;
      } else {
        assert UserBoardsTag(b.owner) in s.tags * inv.flushes;
      }
    }
    r
  }

  /** An update drops exactly the slots tagged with the board or its owner's
      list and, when the row changed, the untagged keys the `updated` hooks
      forget; every other slot, `boards.all` included, keeps its value. */
  lemma UpdateForgets(w: World, id: Id, data: BoardData)
    requires id in w.db.boards
    ensures var b := w.db.boards[id];
      var changed := FillBoard(b, UpdatePatch(data)) != b;
      var r := Update(w, id, data);
      && (forall s | s in w.cache ::
            s in r.cache <==>
              && BoardTag(id) !in s.tags && UserBoardsTag(b.owner) !in s.tags
              && !(changed && s.tags == {} && s.key in BoardKeys(id) + {UserBoardsKey(b.owner)}))
      && (forall s | s in r.cache :: s in w.cache && r.cache[s] == w.cache[s])
  {
    var b := w.db.boards[id];
    var b' := FillBoard(b, UpdatePatch(data));
    var r := UpdateBoard(w, id, UpdatePatch(data));
    var inv := BoardWriteDrops(r.db, id, b', b' != b, Updated);
    forall s | s in w.cache
      ensures Drops(inv, s) <==>
        BoardTag(id) in s.tags || UserBoardsTag(b.owner) in s.tags
        || (b' != b && s.tags == {} && s.key in BoardKeys(id) + {UserBoardsKey(b.owner)})
    {
      if BoardTag(id) in s.tags {
        assert BoardTag(id) in s.tags * inv.flushes;
      } else if UserBoardsTag(b.owner) in s.tags {
        assert UserBoardsTag(b.owner) in s.tags * inv.flushes;
      } else {
        assert s.tags * inv.flushes == {};
      }
    }
  }

  /** The tables without a board, its columns and their cards. */
  function Cascade(db: Db, id: Id): (r: Db)
    ensures r.boards == db.boards - {id}
    ensures forall k :: k in r.columns <==> k in db.columns && db.columns[k].place.parent != id
    ensures forall k :: k in r.cards <==> k in db.cards && !CardOnBoard(db, k, id)
    ensures forall k | k in r.columns :: r.columns[k] == db.columns[k]
    ensures forall k | k in r.cards :: r.cards[k] == db.cards[k]
  {
    Db(db.boards - {id},
       map k | k in db.columns && db.columns[k].place.parent != id :: db.columns[k],
       map k | k in db.cards && !CardOnBoard(db, k, id) :: db.cards[k])
  }

  /** `delete($board)`: the cards of every column and then the columns go by
      bulk deletes (no model events), then the board through the repository,
      all in one transaction. `fail` stands for an error inside it, which
      surfaces as BoardDeletionFailed carrying the board id. */
  function Delete(w: World, id: Id, fail: bool): (o: Outcome<()>)
    requires id in w.db.boards
    ensures fail <==> o.Failed?
    ensures o.Failed? ==> o.error == BoardDeletionFailed(id)
    ensures o.Done? ==>
      && o.world.db == Cascade(w.db, id)
      && o.world.cache == Apply(w.cache, BoardWriteDrops(o.world.db, id, w.db.boards[id], true, Deleted))
      && o.events == []
  {
    if fail then Failed(BoardDeletionFailed(id))
    else
      var db1 := w.db.(cards := Cascade(w.db, id).cards);
      var db2 := db1.(columns := Cascade(w.db, id).columns);
      var w' := DeleteBoard(w.(db := db2), id);
      assert w'.db == Cascade(w.db, id);
      Done(w', (), [])
  }

  /** After a delete nothing of the board is left, and the foreign keys of
      what remains still hold. */
  lemma DeleteRemovesEverything(w: World, id: Id)
    requires id in w.db.boards && WellFormed(w.db)
    ensures var db := Delete(w, id, false).world.db;
      && id !in db.boards
      && (forall k | k in db.columns :: db.columns[k].place.parent != id)
      && (forall k | k in db.cards :: db.cards[k].place.parent in db.columns)
      && WellFormed(db)
  {
  }
}
