/**
 ColumnService: create at the end of a board, patch name and position
 verbatim, and delete a column with its cards.
 */
module ColumnService {
  import opened Wrappers
  import opened Positions
  import opened Records
  import opened CacheStore
  import opened Hooks
  import opened Repositories
  import opened Events
  import opened Dto

  /** `create($board, $data)`: the new column takes the board's current column
      count as its position. */
  function Create(w: World, board: Id, data: ColumnData, id: Id): (r: World)
    requires id !in w.db.columns
    requires data.name.Given?
    ensures r.db.boards == w.db.boards && r.db.cards == w.db.cards
    ensures r.db.columns.Keys == w.db.columns.Keys + {id}
    ensures forall k | k in w.db.columns :: r.db.columns[k] == w.db.columns[k]
    ensures r.db.columns[id].name == data.name.value
    ensures ColumnLayout(r.db.columns) == Append(ColumnLayout(w.db.columns), id, board)
  {
    var column := Column(Place(board, ColumnCount(w.db, board)), data.name.value);
    ColumnLayoutUpdate(w.db.columns, id, column);
    CreateColumn(w, id, column)
  }

  /** A create forgets the board's two untagged keys and nothing else. */
  lemma CreateForgets(w: World, board: Id, data: ColumnData, id: Id)
    requires id !in w.db.columns && data.name.Given?
    ensures ForgetsExactly(w.cache, Create(w, board, data, id).cache, BoardKeys(board))
  {
    ApplyForgetsExactly(w.cache, Forgets(BoardKeys(board)));
  }

  /** Appending keeps the board's column positions contiguous. */
  lemma CreateKeepsBoardGapFree(w: World, board: Id, data: ColumnData, id: Id)
    requires id !in w.db.columns && data.name.Given?
    requires GapFree(ColumnLayout(w.db.columns), board)
    ensures GapFree(ColumnLayout(Create(w, board, data, id).db.columns), board)
    ensures ColumnCount(Create(w, board, data, id).db, board) == ColumnCount(w.db, board) + 1
  {
    AppendKeepsGapFree(ColumnLayout(w.db.columns), id, board);
  }

  /** The attribute array `update()` builds: the name when given, the
      position when non-null. */
  function UpdatePatch(data: ColumnData): ColumnPatch {
    ColumnPatch(if data.name.Given? then Some(data.name.value) else None, data.position)
  }

  /** `update($column, $data)`: a given name and a non-null position are
      written as they are; no other column moves. */
  function Update(w: World, id: Id, data: ColumnData): (r: World)
    requires id in w.db.columns
    ensures r.db.boards == w.db.boards && r.db.cards == w.db.cards
    ensures r.db.columns.Keys == w.db.columns.Keys
    ensures forall k | k in w.db.columns && k != id :: r.db.columns[k] == w.db.columns[k]
    ensures r.db.columns[id].name == if data.name.Given? then data.name.value else w.db.columns[id].name
    ensures r.db.columns[id].place.parent == w.db.columns[id].place.parent
    ensures r.db.columns[id].place.pos == if data.position.Some? then data.position.value else w.db.columns[id].place.pos
  {
    UpdateColumn(w, id, UpdatePatch(data))
  }

  /** An update forgets `column.{id}` and the board's keys, whatever changed. */
  lemma UpdateForgets(w: World, id: Id, data: ColumnData)
    requires id in w.db.columns
    ensures ForgetsExactly(w.cache, Update(w, id, data).cache,
      {ColumnKey(id)} + BoardKeys(w.db.columns[id].place.parent))
  {
    ApplyForgetsExactly(w.cache, Forgets({ColumnKey(id)} + BoardKeys(w.db.columns[id].place.parent)));
  }

  /** No sibling is shifted, so an update keeps a gap-free board gap-free
      exactly when it leaves the column's position as it was. */
  lemma UpdateKeepsGapFreeIff(w: World, id: Id, data: ColumnData)
    requires id in w.db.columns
    requires GapFree(ColumnLayout(w.db.columns), w.db.columns[id].place.parent)
    ensures var b := w.db.columns[id].place.parent;
      GapFree(ColumnLayout(Update(w, id, data).db.columns), b)
      <==> data.position.None? || data.position.value == w.db.columns[id].place.pos
  {
    var r := Update(w, id, data);
    var c := w.db.columns[id];
    var p := if data.position.Some? then data.position.value else c.place.pos;
    assert r.db.columns == w.db.columns[id := r.db.columns[id]];
    assert r.db.columns[id].place == Place(c.place.parent, p);
    ColumnLayoutUpdate(w.db.columns, id, r.db.columns[id]);
    RepositionGapFreeIff(ColumnLayout(w.db.columns), id, p);
  }

  /** A position written over a sibling's is not shifted away: two columns
      then share it. */
  lemma UpdateOntoSiblingCollides(w: World, id: Id, other: Id, p: int)
    requires id in w.db.columns && other in w.db.columns && other != id
    requires w.db.columns[other].place == Place(w.db.columns[id].place.parent, p)
    ensures !Unique(ColumnLayout(Update(w, id, ColumnForUpdate(None, Some(p))).db.columns), w.db.columns[id].place.parent)
  {
    var l := ColumnLayout(Update(w, id, ColumnForUpdate(None, Some(p))).db.columns);
    assert l[id] == l[other];
  }

  /** The sole column of a board moved to 2 stays at 2. */
  lemma UpdateOnlyColumnPastEnd(w: World, id: Id)
    requires id in w.db.columns
    requires Members(ColumnLayout(w.db.columns), w.db.columns[id].place.parent) == {id}
    ensures var r := Update(w, id, ColumnForUpdate(None, Some(2)));
      && r.db.columns[id].place.pos == 2
      && !GapFree(ColumnLayout(r.db.columns), w.db.columns[id].place.parent)
  {
    var b := w.db.columns[id].place.parent;
    var r := Update(w, id, ColumnForUpdate(None, Some(2)));
    assert Members(ColumnLayout(r.db.columns), b) == Members(ColumnLayout(w.db.columns), b);
  }

  /** `delete($column)`: the column's cards go by one bulk delete (no model
      events), then the column through the repository; ColumnDeleted carries
      the ids read before. The other columns keep their positions. */
  function Delete(w: World, id: Id): (r: (World, seq<Broadcast>))
    requires id in w.db.columns
    ensures r.0.db.boards == w.db.boards
    ensures r.0.db.columns == w.db.columns - {id}
    ensures forall k :: k in r.0.db.cards <==> k in w.db.cards && w.db.cards[k].place.parent != id
    ensures forall k | k in r.0.db.cards :: r.0.db.cards[k] == w.db.cards[k]
    ensures r.1 == [ColumnDeleted(w.db.columns[id].place.parent, id)]
  {
    var board := w.db.columns[id].place.parent;
    var cards := map k | k in w.db.cards && w.db.cards[k].place.parent != id :: w.db.cards[k];
    var w1 := w.(db := w.db.(cards := cards));
    (DeleteColumn(w1, id), [ColumnDeleted(board, id)])
  }

  /** A delete forgets `column.{id}` and the board's keys; the column's cards
      go by a bulk delete that forgets nothing for them. */
  lemma DeleteForgets(w: World, id: Id)
    requires id in w.db.columns
    ensures ForgetsExactly(w.cache, Delete(w, id).0.cache,
      {ColumnKey(id)} + BoardKeys(w.db.columns[id].place.parent))
  {
    ApplyForgetsExactly(w.cache, Forgets({ColumnKey(id)} + BoardKeys(w.db.columns[id].place.parent)));
  }

  /** Deleting a column with its cards keeps every foreign key intact. */
  lemma DeleteKeepsWellFormed(w: World, id: Id)
    requires id in w.db.columns && WellFormed(w.db)
    ensures WellFormed(Delete(w, id).0.db)
  {
  }

  /** The board stays gap-free exactly when the deleted column was last. */
  lemma DeleteKeepsGapFreeIff(w: World, id: Id)
    requires id in w.db.columns
    requires GapFree(ColumnLayout(w.db.columns), w.db.columns[id].place.parent)
    ensures var b := w.db.columns[id].place.parent;
      GapFree(ColumnLayout(Delete(w, id).0.db.columns), b)
      <==> w.db.columns[id].place.pos == ColumnCount(w.db, b) - 1
  {
    ColumnLayoutRemove(w.db.columns, id);
    RemoveKeepsGapFreeIff(ColumnLayout(w.db.columns), id);
  }
}
