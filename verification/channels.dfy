/**
 The join gates of the broadcast channels: a user's private channel, and the
 presence channel of a board, which admits the board's owner only.
 */
module Channels {
  import opened Wrappers
  import opened Positions
  import opened Records
  import opened Roles
  import opened Events

  /** What the presence channel shares about a member. */
  datatype PresenceInfo = PresenceInfo(id: Id, name: string)

  /** `App.Models.User.{id}`: both ids cast to integers, then compared. */
  function UserChannel(u: User, id: int): (r: bool)
    ensures r <==> id >= 0 && u.id == id
  {
    u.id == id
  }

  /** `board.{boardId}`: a missing board or a user other than its owner is
      refused; the owner is admitted with its id and name. Holding the admin
      role makes no difference. */
  function BoardChannel(db: Db, u: User, board: Id): (r: Option<PresenceInfo>)
    ensures r.Some? <==> board in db.boards && db.boards[board].owner == u.id
    ensures r.Some? ==> r.value == PresenceInfo(u.id, u.name)
  {
    if board !in db.boards || db.boards[board].owner != u.id then None
    else Some(PresenceInfo(u.id, u.name))
  }

  /** Joining a channel by name: names of the form `board.{id}` go to the
      board gate; nothing else is a board channel. */
  function JoinBoardChannel(db: Db, u: User, name: string): Option<PresenceInfo> {
    match ParseBoardChannelName(name)
    case None => None
    case Some(b) => BoardChannel(db, u, b)
  }

  /** Exactly the owner of an event's board can listen to that event. */
  lemma EventAudienceIsOwner(db: Db, u: User, e: Broadcast)
    ensures JoinBoardChannel(db, u, BroadcastOn(e)[0].name).Some?
      <==> BoardOf(e) in db.boards && db.boards[BoardOf(e)].owner == u.id
  {
  }

  /** An admin who does not own a board cannot join its channel. */
  lemma AdminNotOwnerRefused(db: Db, u: User, board: Id)
    requires IsAdmin(u) && board in db.boards && db.boards[board].owner != u.id
    ensures JoinBoardChannel(db, u, BoardChannelName(board)).None?
  {
    BoardChannelNameRoundTrip(board);
  }
}
