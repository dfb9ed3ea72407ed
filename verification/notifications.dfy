/**
 NotificationService: who is told about what. The only recipient of a board
 is its owner, and the user who acted is never among the recipients.
 */
module Notifications {
  import opened Positions
  import opened Records

  /** A notification sent to `recipient`. */
  datatype Notice =
    | CardMovedNotice(recipient: Id, card: Id, movedBy: Id, fromColumn: string, toColumn: string)
    | CardAssignedNotice(recipient: Id, card: Id, assignedBy: Id)
    | BoardSharedNotice(recipient: Id, board: Id, sharedBy: Id)

  /** `filter(fn ($user) => $user->id !== $excludeUser->id)->values()`. */
  function Exclude(users: seq<Id>, actor: Id): (r: seq<Id>)
    ensures forall x :: x in r <==> x in users && x != actor
    ensures |r| <= |users|
    ensures actor !in users ==> r == users
  {
    if users == [] then []
    else if users[0] == actor then Exclude(users[1..], actor)
    else [users[0]] + Exclude(users[1..], actor)
  }

  /** `getUsersToNotifyForBoard`: the board's owner, unless that is the actor. */
  function BoardRecipients(db: Db, board: Id, actor: Id): (r: seq<Id>)
    requires board in db.boards
    ensures actor !in r
    ensures r == if db.boards[board].owner == actor then [] else [db.boards[board].owner]
  {
    Exclude([db.boards[board].owner], actor)
  }

  /** `notifyCardMoved`: one notice per recipient of the card's board,
      carrying the column names it was given. */
  function NotifyCardMoved(db: Db, card: Id, movedBy: Id, fromColumn: string, toColumn: string): (r: seq<Notice>)
    requires card in db.cards && db.cards[card].place.parent in db.columns
    requires db.columns[db.cards[card].place.parent].place.parent in db.boards
    ensures var owner := db.boards[BoardOfCard(db, card)].owner;
      r == if owner == movedBy then [] else [CardMovedNotice(owner, card, movedBy, fromColumn, toColumn)]
  {
    var rs := BoardRecipients(db, BoardOfCard(db, card), movedBy);
    seq(|rs|, i requires 0 <= i < |rs| => CardMovedNotice(rs[i], card, movedBy, fromColumn, toColumn))
  }

  /** `notifyCardAssigned`: the assignee is told unless it assigned itself. */
  function NotifyCardAssigned(card: Id, assignedTo: Id, assignedBy: Id): (r: seq<Notice>)
    ensures |r| == 1 <==> assignedTo != assignedBy
    ensures r != [] ==> r == [CardAssignedNotice(assignedTo, card, assignedBy)]
  {
    if assignedTo != assignedBy then [CardAssignedNotice(assignedTo, card, assignedBy)] else []
  }

  /** `notifyBoardShared`: the user shared with is told unless it is the sharer. */
  function NotifyBoardShared(board: Id, sharedWith: Id, sharedBy: Id): (r: seq<Notice>)
    ensures |r| == 1 <==> sharedWith != sharedBy
    ensures r != [] ==> r == [BoardSharedNotice(sharedWith, board, sharedBy)]
  {
    if sharedWith != sharedBy then [BoardSharedNotice(sharedWith, board, sharedBy)] else []
  }

  /** `notifyColumnDeleted`: the recipients are computed but sent nothing. */
  function NotifyColumnDeleted(db: Db, column: Id, deletedBy: Id): (r: seq<Notice>)
    requires column in db.columns && db.columns[column].place.parent in db.boards
    ensures r == []
  {
    var _ := BoardRecipients(db, db.columns[column].place.parent, deletedBy);
    []
  }

  /** `notifyBoardDeleted` sends nothing. */
  function NotifyBoardDeleted(board: Id, deletedBy: Id): (r: seq<Notice>)
    ensures r == []
  {
    []
  }

  /** The actor of a call never receives its notice. */
  lemma NoSelfNotification(db: Db, card: Id, board: Id, actor: Id, other: Id, from: string, to: string)
    requires card in db.cards && db.cards[card].place.parent in db.columns
    requires db.columns[db.cards[card].place.parent].place.parent in db.boards
    ensures forall n | n in NotifyCardMoved(db, card, actor, from, to) :: n.recipient != actor
    ensures forall n | n in NotifyCardAssigned(card, other, actor) :: n.recipient != actor
    ensures forall n | n in NotifyBoardShared(board, other, actor) :: n.recipient != actor
  {
  }
}
