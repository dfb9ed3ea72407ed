/**
 The broadcast events: the presence channel each one goes out on, the name
 the client listens for, and the payload it carries. The clock and the
 authenticated user are inputs to the payload, not derived from the event.
 */
module Events {
  import opened Wrappers
  import opened Positions
  import opened Records
  import opened Text

  /** The events the services broadcast, with their constructor arguments.
      `CardMoved` also records `cardBoard`, the `board_id` of the card's column
      as it stands when the event is built. */
  datatype Broadcast =
    | CardMoved(cardId: Id, card: Card, cardBoard: Id, fromColumn: Id, toColumn: Id, newPosition: int)
    | CardDeleted(boardId: Id, cardId: Id)
    | ColumnDeleted(boardId: Id, columnId: Id)
    | BoardUpdated(boardId: Id)

  datatype Channel = PresenceChannel(name: string)

  /** `'board.' . $boardId`. */
  function BoardChannelName(board: Id): string {
    "board." + Decimal(board)
  }

  /** Matches a channel name against the `board.{boardId}` pattern. */
  function ParseBoardChannelName(name: string): Option<Id> {
    if |name| >= 6 && name[..6] == "board." then ParseDecimal(name[6..]) else None
  }

  /** The channel name of a board gives back that board. */
  lemma {:induction false} BoardChannelNameRoundTrip(board: Id)
    ensures ParseBoardChannelName(BoardChannelName(board)) == Some(board)
  {
    var name := BoardChannelName(board);
    assert name[..6] == "board.";
    assert name[6..] == Decimal(board);
    ParseDecimalOfDecimal(board);
  }

  /** Two boards never share a channel. */
  lemma BoardChannelNameInjective(a: Id, b: Id)
    requires BoardChannelName(a) == BoardChannelName(b)
    ensures a == b
  {
    BoardChannelNameRoundTrip(a);
    BoardChannelNameRoundTrip(b);
  }

  /** The board whose channel carries the event. */
  function BoardOf(e: Broadcast): Id {
    match e
    case CardMoved(_, _, b, _, _, _) => b
    case CardDeleted(b, _) => b
    case ColumnDeleted(b, _) => b
    case BoardUpdated(b) => b
  }

  /** `broadcastOn()`: exactly one presence channel, that of the event's board. */
  function BroadcastOn(e: Broadcast): (r: seq<Channel>)
    ensures |r| == 1
    ensures ParseBoardChannelName(r[0].name) == Some(BoardOf(e))
  {
    BoardChannelNameRoundTrip(BoardOf(e));
    [PresenceChannel(BoardChannelName(BoardOf(e)))]
  }

  /** `broadcastAs()`: the event name the client listens for. */
  function BroadcastAs(e: Broadcast): string {
    match e
    case CardMoved(_, _, _, _, _, _) => "card.moved"
    case CardDeleted(_, _) => "card.deleted"
    case ColumnDeleted(_, _) => "column.deleted"
    case BoardUpdated(_) => "board.updated"
  }

  /** Clients tell the four events apart by name alone. */
  lemma EventNamesTellKindsApart(e1: Broadcast, e2: Broadcast)
    ensures BroadcastAs(e1) == BroadcastAs(e2) <==>
      (e1.CardMoved? && e2.CardMoved?) || (e1.CardDeleted? && e2.CardDeleted?) ||
      (e1.ColumnDeleted? && e2.ColumnDeleted?) || (e1.BoardUpdated? && e2.BoardUpdated?)
  {
    assert "card.moved"[5] == 'm' && "card.deleted"[5] == 'd';
    assert "column.deleted"[0] == 'c' && "board.updated"[0] == 'b';
    assert |"card.moved"| != |"column.deleted"| && |"card.deleted"| != |"column.deleted"|;
  }

  /** The `card` entry of the card.moved payload. */
  datatype CardView = CardView(id: Id, title: string, description: Option<string>, columnId: Id, position: int)

  /** `broadcastWith()` results. `timestamp` is `now()->toISOString()` and
      `triggeredBy` is `auth()->id()`, both supplied by the environment. */
  datatype Payload =
    | CardMovedPayload(cardId: Id, fromColumnId: Id, toColumnId: Id, position: int, card: CardView)
    | CardDeletedPayload(boardId: Id, cardId: Id, action: string, timestamp: string, triggeredBy: Option<Id>)
    | ColumnDeletedPayload(boardId: Id, columnId: Id, action: string, timestamp: string)
    | BoardUpdatedPayload(boardId: Id)

  /** `broadcastWith()`: the ids come from the constructor arguments, the
      embedded card view from the stored card. */
  function BroadcastWith(e: Broadcast, now: string, actor: Option<Id>): (p: Payload)
    ensures e.CardMoved? ==>
      && p.CardMovedPayload? && p.cardId == e.cardId
      && p.fromColumnId == e.fromColumn && p.toColumnId == e.toColumn && p.position == e.newPosition
      && p.card == CardView(e.cardId, e.card.title, e.card.description, e.card.place.parent, e.card.place.pos)
    ensures e.CardDeleted? ==> p == CardDeletedPayload(e.boardId, e.cardId, "deleted", now, actor)
    ensures e.ColumnDeleted? ==> p == ColumnDeletedPayload(e.boardId, e.columnId, "deleted", now)
    ensures e.BoardUpdated? ==> p == BoardUpdatedPayload(e.boardId)
  {
    match e
    case CardMoved(id, card, _, from, to, pos) =>
      CardMovedPayload(id, from, to, pos, CardView(id, card.title, card.description, card.place.parent, card.place.pos))
    case CardDeleted(b, id) => CardDeletedPayload(b, id, "deleted", now, actor)
    case ColumnDeleted(b, id) => ColumnDeletedPayload(b, id, "deleted", now)
    case BoardUpdated(b) => BoardUpdatedPayload(b)
  }

  /** The card.moved payload agrees with itself (the top-level target and
      position equal those of the embedded card) exactly when the stored card
      sits where the event says it was moved to. */
  lemma CardMovedPayloadConsistent(e: Broadcast, now: string, actor: Option<Id>)
    requires e.CardMoved?
    ensures var p := BroadcastWith(e, now, actor);
      p.card.columnId == p.toColumnId && p.card.position == p.position
      <==> e.card.place == Place(e.toColumn, e.newPosition)
  {
  }
}
