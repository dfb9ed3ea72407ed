/**
 CardService: create at the end of a column, patch title and description,
 delete without renumbering, and move with two bulk shifts and a final
 assignment inside one transaction.
 */
module CardService {
  import opened Wrappers
  import opened Positions
  import opened Records
  import opened CacheStore
  import opened Hooks
  import opened Repositories
  import opened Events
  import opened Dto
  import opened Outcomes

  /** The untagged keys a card write in `column` forgets: the column's own key
      and its board's two keys. */
  function ColumnKeys(db: Db, column: Id): set<Key>
    requires column in db.columns
  {
    {ColumnKey(column)} + BoardKeys(db.columns[column].place.parent)
  }

  // ---------------------------------------------------------------------
  // create / update / delete
  // ---------------------------------------------------------------------

  /** `create($column, $data)`: the new card takes the column's current card
      count as its position and has no assignee. */
  function Create(w: World, column: Id, data: CardData, id: Id): (r: World)
    requires column in w.db.columns
    requires id !in w.db.cards
    requires data.title.Given?
    ensures r.db.boards == w.db.boards && r.db.columns == w.db.columns
    ensures r.db.cards.Keys == w.db.cards.Keys + {id}
    ensures forall k | k in w.db.cards :: r.db.cards[k] == w.db.cards[k]
    ensures r.db.cards[id].title == data.title.value && r.db.cards[id].description == data.description
    ensures r.db.cards[id].user.None?
    ensures CardLayout(r.db.cards) == Append(CardLayout(w.db.cards), id, column)
  {
    var card := Card(Place(column, CardCount(w.db, column)), data.title.value, data.description, None);
    CardLayoutUpdate(w.db.cards, id, card);
    CreateCard(w, id, card)
  }

  /** A create forgets the keys of the card's column and nothing else; every
      other entry keeps its value. */
  lemma CreateForgets(w: World, column: Id, data: CardData, id: Id)
    requires column in w.db.columns && id !in w.db.cards && data.title.Given?
    ensures ForgetsExactly(w.cache, Create(w, column, data, id).cache, ColumnKeys(w.db, column))
  {
    var card := Card(Place(column, CardCount(w.db, column)), data.title.value, data.description, None);
    ApplyForgetsExactly(w.cache, CardCreateDrops(w.db.(cards := w.db.cards[id := card]), id, card));
  }

  /** Appending keeps the column's positions contiguous. */
  lemma CreateKeepsColumnGapFree(w: World, column: Id, data: CardData, id: Id)
    requires column in w.db.columns && id !in w.db.cards && data.title.Given?
    requires GapFree(CardLayout(w.db.cards), column)
    ensures GapFree(CardLayout(Create(w, column, data, id).db.cards), column)
    ensures CardCount(Create(w, column, data, id).db, column) == CardCount(w.db, column) + 1
  {
    AppendKeepsGapFree(CardLayout(w.db.cards), id, column);
  }

  /** The attribute array `update()` builds: the title when one is given, the
      description when it is non-null or a title is given. */
  function UpdatePatch(data: CardData): CardPatch {
    CardPatch(
      if data.title.Given? then Some(data.title.value) else None,
      if data.description.Some? || data.title.Given? then Some(data.description) else None,
      None, None)
  }

  /** `update($card, $data)` on the freshly bound card. A given title with a
      null description clears the description; an absent title with a null
      description leaves both alone. Nothing moves. */
  function Update(w: World, id: Id, data: CardData): (r: World)
    requires id in w.db.cards && w.db.cards[id].place.parent in w.db.columns
    ensures r.db.boards == w.db.boards && r.db.columns == w.db.columns
    ensures r.db.cards.Keys == w.db.cards.Keys
    ensures forall k | k in w.db.cards && k != id :: r.db.cards[k] == w.db.cards[k]
    ensures r.db.cards[id].title == if data.title.Given? then data.title.value else w.db.cards[id].title
    ensures r.db.cards[id].description ==
      if data.description.Some? || data.title.Given? then data.description else w.db.cards[id].description
    ensures r.db.cards[id].place == w.db.cards[id].place && r.db.cards[id].user == w.db.cards[id].user
    ensures CardLayout(r.db.cards) == CardLayout(w.db.cards)
  {
    var card := w.db.cards[id];
    var r := UpdateCard(w, id, card, UpdatePatch(data));
    CardLayoutUpdate(w.db.cards, id, r.db.cards[id]);
    r
  }

  /** An update forgets `card.{id}` and the keys of the card's column. */
  lemma UpdateForgets(w: World, id: Id, data: CardData)
    requires id in w.db.cards && w.db.cards[id].place.parent in w.db.columns
    ensures ForgetsExactly(w.cache, Update(w, id, data).cache,
      {CardKey(id)} + ColumnKeys(w.db, w.db.cards[id].place.parent))
  {
    var card := w.db.cards[id];
    var patch := UpdatePatch(data);
    var r := UpdateCard(w, id, card, patch);
    ApplyForgetsExactly(w.cache, CardUpdateDrops(r.db, id, card, FillCard(card, patch), patch));
  }

  /** `delete($card)`: the row goes, nothing is renumbered, and CardDeleted
      carries the board and card ids read before the delete. */
  function Delete(w: World, id: Id): (r: (World, seq<Broadcast>))
    requires id in w.db.cards && w.db.cards[id].place.parent in w.db.columns
    ensures r.0.db.boards == w.db.boards && r.0.db.columns == w.db.columns
    ensures r.0.db.cards == w.db.cards - {id}
    ensures CardLayout(r.0.db.cards) == CardLayout(w.db.cards) - {id}
    ensures r.1 == [CardDeleted(BoardOfCard(w.db, id), id)]
  {
    CardLayoutRemove(w.db.cards, id);
    (DeleteCard(w, id), [CardDeleted(BoardOfCard(w.db, id), id)])
  }

  /** A delete forgets `card.{id}` and the keys of the card's column. */
  lemma DeleteForgets(w: World, id: Id)
    requires id in w.db.cards && w.db.cards[id].place.parent in w.db.columns
    ensures ForgetsExactly(w.cache, Delete(w, id).0.cache,
      {CardKey(id)} + ColumnKeys(w.db, w.db.cards[id].place.parent))
  {
    ApplyForgetsExactly(w.cache, CardDeleteDrops(w.db.(cards := w.db.cards - {id}), id, w.db.cards[id]));
  }

  /** A delete keeps the column gap-free exactly when the card was last. */
  lemma DeleteKeepsGapFreeIff(w: World, id: Id)
    requires id in w.db.cards && w.db.cards[id].place.parent in w.db.columns
    requires GapFree(CardLayout(w.db.cards), w.db.cards[id].place.parent)
    ensures var col := w.db.cards[id].place.parent;
      GapFree(CardLayout(Delete(w, id).0.db.cards), col)
      <==> w.db.cards[id].place.pos == CardCount(w.db, col) - 1
  {
    RemoveKeepsGapFreeIff(CardLayout(w.db.cards), id);
  }

  /** Deleting a card other than the last and then creating one in the same
      column puts two cards on one position. */
  lemma DeleteThenCreateCollides(w: World, id: Id, data: CardData, newId: Id)
    requires id in w.db.cards && w.db.cards[id].place.parent in w.db.columns
    requires GapFree(CardLayout(w.db.cards), w.db.cards[id].place.parent)
    requires w.db.cards[id].place.pos != CardCount(w.db, w.db.cards[id].place.parent) - 1
    requires newId !in w.db.cards && data.title.Given?
    ensures var col := w.db.cards[id].place.parent;
      !Unique(CardLayout(Create(Delete(w, id).0, col, data, newId).db.cards), col)
  {
    RemoveThenAppendCollides(CardLayout(w.db.cards), id, newId);
  }

  // ---------------------------------------------------------------------
  // move
  // ---------------------------------------------------------------------

  /** The attribute array of the final step of a move. */
  function MovePatch(target: Id, r: int): CardPatch {
    CardPatch(None, None, Some(target), Some(r))
  }

  /** The cards after the decrement and the increment of a move. These are
      query-builder updates: every other attribute stays, and no model event
      fires. */
  function ShiftCards(cards: map<Id, Card>, id: Id, target: Id, r: int): (s: map<Id, Card>)
    requires id in cards
    ensures s.Keys == cards.Keys
    ensures CardLayout(s) == Shifted(CardLayout(cards), id, target, r)
    ensures forall k | k in cards :: s[k] == cards[k].(place := s[k].place)
  {
    var l := Shifted(CardLayout(cards), id, target, r);
    map k | k in cards :: cards[k].(place := l[k])
  }

  /** Whether a move may proceed: both columns on the same board. */
  predicate SameBoard(db: Db, id: Id, target: Id)
    requires id in db.cards && db.cards[id].place.parent in db.columns && target in db.columns
  {
    db.columns[target].place.parent == BoardOfCard(db, id)
  }

  /** The two shifts and the final `update()` of a move, applied to `held`:
      the row as it stands after the shifts when `refresh`, else the model as
      loaded before the shifts. */
  function Shift(w: World, id: Id, target: Id, r: int, refresh: bool): (w': World)
    requires id in w.db.cards && target in w.db.columns
    ensures w'.db.boards == w.db.boards && w'.db.columns == w.db.columns
    ensures w'.db.cards.Keys == w.db.cards.Keys
    ensures w'.db.cards[id].place.parent == target
  {
    var shifted := w.(db := w.db.(cards := ShiftCards(w.db.cards, id, target, r)));
    var held := if refresh then shifted.db.cards[id] else w.db.cards[id];
    UpdateCard(shifted, id, held, MovePatch(target, r))
  }

  /** The move: refused when the target is on another board, else the shifts
      and the final update, reporting CardMoved with the card's original
      column. */
  function Relocate(w: World, id: Id, target: Id, r: int, refresh: bool): (o: Outcome<Card>)
    requires id in w.db.cards && w.db.cards[id].place.parent in w.db.columns && target in w.db.columns
    ensures o.Failed? <==> !SameBoard(w.db, id, target)
    ensures o.Done? ==> o.world.db.boards == w.db.boards && o.world.db.columns == w.db.columns
    ensures o.Done? ==> o.world.db.cards.Keys == w.db.cards.Keys
    ensures o.Done? ==> o.value == o.world.db.cards[id]
  {
    if !SameBoard(w.db, id, target) then Failed(CannotMoveCard(id, target))
    else
      var w' := Shift(w, id, target, r, refresh);
      var moved := w'.db.cards[id];
      Done(w', moved, [CardMoved(id, moved, w'.db.columns[target].place.parent, w.db.cards[id].place.parent, target, r)])
  }

  /** `move($card, $data)`, with the final update applied to the row as it
      stands after the shifts, so the requested place is always written.
      A target on another board raises before anything changes. The cards end
      up where `Positions.Move` puts them, every other attribute is kept, and
      CardMoved reports the original column and the requested place. */
  function Move(w: World, id: Id, target: Id, r: int): (o: Outcome<Card>)
    requires id in w.db.cards && w.db.cards[id].place.parent in w.db.columns
    requires target in w.db.columns && r >= 0
    ensures o.Failed? <==> !SameBoard(w.db, id, target)
    ensures o.Failed? ==> o.error == CannotMoveCard(id, target)
    ensures o.Done? ==>
      && o.world.db.boards == w.db.boards && o.world.db.columns == w.db.columns
      && o.world.db.cards.Keys == w.db.cards.Keys
      && CardLayout(o.world.db.cards) == Positions.Move(CardLayout(w.db.cards), id, target, r)
      && (forall k | k in w.db.cards :: o.world.db.cards[k] == w.db.cards[k].(place := o.world.db.cards[k].place))
      && o.value == o.world.db.cards[id] && o.value.place == Place(target, r)
      && o.events == [CardMoved(id, o.value, BoardOfCard(w.db, id), w.db.cards[id].place.parent, target, r)]
  {
    var o := Relocate(w, id, target, r, true);
    if o.Done? then
      var cards := w.db.cards;
      var s := ShiftCards(cards, id, target, r);
      CardLayoutUpdate(s, id, o.world.db.cards[id]);
      o
    else o
  }

  /** A move that proceeds forgets `card.{id}` and the keys of the target
      column and of the card's old column; the shifted siblings keep their
      entries. */
  lemma MoveForgets(w: World, id: Id, target: Id, r: int)
    requires id in w.db.cards && w.db.cards[id].place.parent in w.db.columns
    requires target in w.db.columns && r >= 0
    ensures var o := Move(w, id, target, r);
      o.Done? ==> ForgetsExactly(w.cache, o.world.cache,
        {CardKey(id)} + ColumnKeys(w.db, target) + ColumnKeys(w.db, w.db.cards[id].place.parent))
  {
    if SameBoard(w.db, id, target) {
      var s := ShiftCards(w.db.cards, id, target, r);
      var shifted := w.(db := w.db.(cards := s));
      var patch := MovePatch(target, r);
      var w' := UpdateCard(shifted, id, s[id], patch);
      var inv := CardUpdateDrops(w'.db, id, s[id], FillCard(s[id], patch), patch);
      assert s[id].place.parent == w.db.cards[id].place.parent;
      ApplyForgetsExactly(w.cache, inv);
      assert inv.forgets == {CardKey(id)} + ColumnKeys(w.db, target) + ColumnKeys(w.db, w.db.cards[id].place.parent);
    }
  }

  /** `move()` as written: the final update runs on the model loaded before
      the shifts, so Eloquent writes only the attributes that differ from it. */
  function MoveAsWritten(w: World, id: Id, target: Id, r: int): (o: Outcome<Card>)
    requires id in w.db.cards && w.db.cards[id].place.parent in w.db.columns
    requires target in w.db.columns && r >= 0
    ensures o.Failed? <==> !SameBoard(w.db, id, target)
    ensures o.Done? ==> o.world.db.cards.Keys == w.db.cards.Keys
    ensures o.Done? && w.db.cards[id].place == Place(target, r) ==>
      o.value.place == Place(target, r + 1)
    ensures o.Done? ==>
      o.events == [CardMoved(id, o.value, BoardOfCard(w.db, id), w.db.cards[id].place.parent, target, r)]
  {
    Relocate(w, id, target, r, false)
  }

  // ---------------------------------------------------------------------
  // What a move does to the column positions
  // ---------------------------------------------------------------------

  /** With gap-free columns, a move keeps both the source and the target
      gap-free exactly when the requested position is in range: up to the
      target's card count for another column, below the count within one
      column. An out-of-range position is stored as given and leaves a hole. */
  lemma {:induction false} MoveKeepsGapFreeIff(w: World, id: Id, target: Id, r: int)
    requires id in w.db.cards && w.db.cards[id].place.parent in w.db.columns
    requires target in w.db.columns && r >= 0
    requires SameBoard(w.db, id, target)
    requires GapFree(CardLayout(w.db.cards), w.db.cards[id].place.parent)
    requires GapFree(CardLayout(w.db.cards), target)
    ensures var from := w.db.cards[id].place.parent;
      var after := CardLayout(Move(w, id, target, r).world.db.cards);
      (GapFree(after, from) && GapFree(after, target))
      <==> (if from == target then r < CardCount(w.db, target) else r <= CardCount(w.db, target))
  {
    var l := CardLayout(w.db.cards);
    assert CardLayout(Move(w, id, target, r).world.db.cards) == Positions.Move(l, id, target, r);
    if l[id].parent == target {
      MoveWithinGapFreeIff(l, id, r);
    } else {
      MoveAcrossGapFreeIff(l, id, target, r);
    }
  }

  /** Within one column a move is an array move: the card lands on `r` and
      every other card of the column ends where `ArrayMoveIndex` puts it. */
  lemma MoveWithinColumnIsArrayMove(w: World, id: Id, r: int)
    requires id in w.db.cards && w.db.cards[id].place.parent in w.db.columns && r >= 0
    requires Unique(CardLayout(w.db.cards), w.db.cards[id].place.parent)
    ensures var from := w.db.cards[id].place.parent;
      var o := Move(w, id, from, r);
      o.Done? &&
      forall k | k in w.db.cards && k != id && w.db.cards[k].place.parent == from ::
        o.world.db.cards[k].place == Place(from, ArrayMoveIndex(w.db.cards[id].place.pos, r, w.db.cards[k].place.pos))
  {
    var from := w.db.cards[id].place.parent;
    MoveWithinIsArrayMove(CardLayout(w.db.cards), id, r);
    assert CardLayout(Move(w, id, from, r).world.db.cards) == Positions.Move(CardLayout(w.db.cards), id, from, r);
  }

  /** Moving a card to its own column and position changes no row. */
  lemma MoveToOwnPlaceKeepsCards(w: World, id: Id)
    requires id in w.db.cards && w.db.cards[id].place.parent in w.db.columns
    requires w.db.cards[id].place.pos >= 0
    requires Unique(CardLayout(w.db.cards), w.db.cards[id].place.parent)
    ensures var o := Move(w, id, w.db.cards[id].place.parent, w.db.cards[id].place.pos);
      o.Done? && o.world.db == w.db
  {
    var l := CardLayout(w.db.cards);
    var o := Move(w, id, l[id].parent, l[id].pos);
    MoveToOwnPlaceIsNoOp(l, id);
    assert CardLayout(o.world.db.cards) == l;
    forall k | k in w.db.cards ensures o.world.db.cards[k] == w.db.cards[k] {
      assert o.world.db.cards[k].place == CardLayout(o.world.db.cards)[k];
    }
  }

  /** A sample board: board 1 with column 2 holding A, B, C at 0, 1, 2 and an
      empty column 3. */
  function SampleWorld(): World {
    World(
      Db(map[1 := Board("b", None, 7)],
         map[2 := Column(Place(1, 0), "todo"), 3 := Column(Place(1, 1), "done")],
         map[10 := Card(Place(2, 0), "A", None, None),
             11 := Card(Place(2, 1), "B", None, None),
             12 := Card(Place(2, 2), "C", None, None)]),
      map[])
  }

  lemma SampleGapFree()
    ensures GapFree(CardLayout(SampleWorld().db.cards), 2)
    ensures Count(CardLayout(SampleWorld().db.cards), 2) == 3
  {
    var l := CardLayout(SampleWorld().db.cards);
    assert Members(l, 2) == {10, 11, 12};
  }

  /** In a column holding `a`, `b`, `c` at 0, 1, 2, moving `c` to the front
      puts it at 0 and `a`, `b` at 1, 2. */
  lemma MoveThirdToFront(w: World, col: Id, a: Id, b: Id, c: Id)
    requires col in w.db.columns && a in w.db.cards && b in w.db.cards && c in w.db.cards
    requires w.db.cards[a].place == Place(col, 0) && w.db.cards[b].place == Place(col, 1)
    requires w.db.cards[c].place == Place(col, 2)
    requires Unique(CardLayout(w.db.cards), col)
    ensures var o := Move(w, c, col, 0);
      && o.Done?
      && o.world.db.cards[c].place == Place(col, 0)
      && o.world.db.cards[a].place == Place(col, 1)
      && o.world.db.cards[b].place == Place(col, 2)
  {
    MoveWithinColumnIsArrayMove(w, c, 0);
    assert ArrayMoveIndex(2, 0, 0) == 1 && ArrayMoveIndex(2, 0, 1) == 2;
  }

  /** [A, B, C] with C moved to the front reads [C, A, B]. */
  lemma MoveLastToFront()
    ensures var o := Move(SampleWorld(), 12, 2, 0);
      && o.Done?
      && o.world.db.cards[12].place == Place(2, 0)
      && o.world.db.cards[10].place == Place(2, 1)
      && o.world.db.cards[11].place == Place(2, 2)
  {
    SampleGapFree();
    MoveThirdToFront(SampleWorld(), 2, 10, 11, 12);
  }

  /** The position is not clamped: the only card of a column moved to 2
      stays at 2, and the column is no longer gap-free. */
  lemma MoveOnlyCardPastEnd()
    ensures var w := SampleWorld().(db := SampleWorld().db.(cards := map[10 := Card(Place(2, 0), "A", None, None)]));
      var o := Move(w, 10, 2, 2);
      o.Done? && o.value.place == Place(2, 2) && !GapFree(CardLayout(o.world.db.cards), 2)
  {
    var w := SampleWorld().(db := SampleWorld().db.(cards := map[10 := Card(Place(2, 0), "A", None, None)]));
    var l := CardLayout(w.db.cards);
    assert Members(l, 2) == {10};
    MoveKeepsGapFreeIff(w, 10, 2, 2);
  }

  // ---------------------------------------------------------------------
  // The move as written
  // ---------------------------------------------------------------------

  /** Away from the self move the two versions agree: some attribute of the
      patch differs from the loaded model, so the final update is written. */
  lemma {:induction false} MoveAsWrittenAgreesOffSelf(w: World, id: Id, target: Id, r: int)
    requires id in w.db.cards && w.db.cards[id].place.parent in w.db.columns
    requires target in w.db.columns && r >= 0
    requires w.db.cards[id].place != Place(target, r)
    ensures MoveAsWritten(w, id, target, r) == Move(w, id, target, r)
  {
    if SameBoard(w.db, id, target) {
      var card := w.db.cards[id];
      var s := ShiftCards(w.db.cards, id, target, r);
      var l := CardLayout(w.db.cards);
      assert s[id].place == Shifted(l, id, target, r)[id];
      assert s[id] == card.(place := s[id].place);
      var p := MovePatch(target, r);
      assert WriteCard(s[id], card, p) == FillCard(s[id], p);
      assert FillCard(card, p) != card && FillCard(s[id], p) != s[id];
    }
  }

  /** The self move as written: after the increment the card sits one past
      its own position, and the final update is not dirty, so it stays there.
      When a card follows it, the two now share a position. */
  lemma {:induction false} MoveAsWrittenSelfMoveCollides(w: World, id: Id)
    requires id in w.db.cards && w.db.cards[id].place.parent in w.db.columns
    requires w.db.cards[id].place.pos >= 0
    requires GapFree(CardLayout(w.db.cards), w.db.cards[id].place.parent)
    requires w.db.cards[id].place.pos < CardCount(w.db, w.db.cards[id].place.parent) - 1
    ensures var from, o := w.db.cards[id].place.parent, w.db.cards[id].place.pos;
      var a := MoveAsWritten(w, id, from, o);
      a.Done? && a.value.place == Place(from, o + 1) && !Unique(CardLayout(a.world.db.cards), from)
  {
    var l := CardLayout(w.db.cards);
    var from, o := l[id].parent, l[id].pos;
    var j := AtPosition(l, from, o + 1);
    AsWrittenKeepsShifted(w, id, from, o, j);
    var a := MoveAsWritten(w, id, from, o);
    assert CardLayout(a.world.db.cards)[j] == CardLayout(a.world.db.cards)[id];
  }

  /** The move as written leaves every other card where the two shifts put it. */
  lemma AsWrittenKeepsShifted(w: World, id: Id, target: Id, r: int, k: Id)
    requires id in w.db.cards && w.db.cards[id].place.parent in w.db.columns
    requires target in w.db.columns && r >= 0 && SameBoard(w.db, id, target)
    requires k in w.db.cards && k != id
    ensures MoveAsWritten(w, id, target, r).world.db.cards[k].place == Shifted(CardLayout(w.db.cards), id, target, r)[k]
  {
    var s := ShiftCards(w.db.cards, id, target, r);
    assert s[k].place == CardLayout(s)[k];
  }

  /** The scenario: in [A, B, C], B moved to its own place ends on C's
      position, leaving position 1 empty; the corrected move leaves the
      column as it was. */
  lemma SelfMoveScenario()
    ensures var a := MoveAsWritten(SampleWorld(), 11, 2, 1);
      a.Done? && a.world.db.cards[11].place == Place(2, 2) && a.world.db.cards[12].place == Place(2, 2)
    ensures var o := Move(SampleWorld(), 11, 2, 1);
      o.Done? && o.world.db.cards == SampleWorld().db.cards
  {
    var w := SampleWorld();
    SampleGapFree();
    MoveAsWrittenSelfMoveCollides(w, 11);
    MoveToOwnPlaceKeepsCards(w, 11);
    var s := ShiftCards(w.db.cards, 11, 2, 1);
    assert s[12].place == Shifted(CardLayout(w.db.cards), 11, 2, 1)[12] == Place(2, 2);
  }

  /** The corrected move's card.moved payload always agrees with itself;
      the self move as written sends a payload whose embedded card contradicts
      its top-level position. */
  lemma MovePayloadConsistency(w: World, id: Id, target: Id, r: int, now: string, actor: Option<Id>)
    requires id in w.db.cards && w.db.cards[id].place.parent in w.db.columns
    requires target in w.db.columns && r >= 0
    ensures var o := Move(w, id, target, r);
      o.Done? ==> var p := BroadcastWith(o.events[0], now, actor);
        p.card.columnId == p.toColumnId && p.card.position == p.position
    ensures var a := MoveAsWritten(w, id, target, r);
      a.Done? && w.db.cards[id].place == Place(target, r) ==>
        BroadcastWith(a.events[0], now, actor).card.position != r
  {
    var o := Move(w, id, target, r);
    if o.Done? {
      CardMovedPayloadConsistent(o.events[0], now, actor);
    }
  }
}
