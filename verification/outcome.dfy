/**
 What a service call returns: the new world, its value and the broadcasts it
 sends after commit, or the exception it raises. A raised exception comes
 with no world: the transaction it interrupted leaves the tables untouched.
 */
module Outcomes {
  import opened Positions
  import opened Repositories
  import opened Events

  /** The exceptions the services raise themselves. */
  datatype Error =
    | CannotMoveCard(card: Id, target: Id)
    | BoardDeletionFailed(board: Id)
    | StorageFailure

  datatype Outcome<+T> =
    | Done(world: World, value: T, events: seq<Broadcast>)
    | Failed(error: Error)
}
