/**
 The three policies. Every guarded action checks its permission first, then
 lets an admin through, then admits the owner of the board the object
 belongs to. Viewing a board checks no permission at all.
 */
module Policies {
  import opened Positions
  import opened Records
  import opened Roles

  /** The permission, then admin, then owner. */
  predicate Guarded(reg: Registry, u: User, perm: string, owner: Id) {
    HasPermissionTo(reg, u, perm) && (IsAdmin(u) || u.id == owner)
  }

  /** The owner of the board a column belongs to (`$column->board->user_id`). */
  function ColumnOwner(db: Db, column: Id): Id
    requires column in db.columns && db.columns[column].place.parent in db.boards
  {
    db.boards[db.columns[column].place.parent].owner
  }

  /** The owner of the board a card belongs to (`$card->column->board->user_id`). */
  function CardOwner(db: Db, card: Id): Id
    requires card in db.cards && db.cards[card].place.parent in db.columns
    requires db.columns[db.cards[card].place.parent].place.parent in db.boards
  {
    ColumnOwner(db, db.cards[card].place.parent)
  }

  // BoardPolicy

  function BoardViewAny(u: User): (r: bool)
    ensures r
  {
    true
  }

  predicate BoardView(u: User, board: Board) {
    IsAdmin(u) || u.id == board.owner
  }

  predicate BoardCreate(reg: Registry, u: User) {
    HasPermissionTo(reg, u, "boards.create")
  }

  predicate BoardUpdate(reg: Registry, u: User, board: Board) {
    Guarded(reg, u, "boards.update", board.owner)
  }

  predicate BoardDelete(reg: Registry, u: User, board: Board) {
    Guarded(reg, u, "boards.delete", board.owner)
  }

  // ColumnPolicy

  predicate ColumnCreate(reg: Registry, u: User, board: Board) {
    Guarded(reg, u, "columns.create", board.owner)
  }

  predicate ColumnUpdate(reg: Registry, u: User, db: Db, column: Id)
    requires column in db.columns && db.columns[column].place.parent in db.boards
  {
    Guarded(reg, u, "columns.update", ColumnOwner(db, column))
  }

  predicate ColumnDelete(reg: Registry, u: User, db: Db, column: Id)
    requires column in db.columns && db.columns[column].place.parent in db.boards
  {
    Guarded(reg, u, "columns.delete", ColumnOwner(db, column))
  }

  // CardPolicy

  predicate CardCreate(reg: Registry, u: User, db: Db, column: Id)
    requires column in db.columns && db.columns[column].place.parent in db.boards
  {
    Guarded(reg, u, "cards.create", ColumnOwner(db, column))
  }

  /** The card actions update, delete and move share one shape. */
  datatype CardAction = UpdateCard | DeleteCard | MoveCard

  function CardPermission(a: CardAction): string {
    match a
    case UpdateCard => "cards.update"
    case DeleteCard => "cards.delete"
    case MoveCard => "cards.move"
  }

  predicate CardAllows(reg: Registry, u: User, db: Db, card: Id, a: CardAction)
    requires card in db.cards && db.cards[card].place.parent in db.columns
    requires db.columns[db.cards[card].place.parent].place.parent in db.boards
  {
    Guarded(reg, u, CardPermission(a), CardOwner(db, card))
  }

  // ---------------------------------------------------------------------
  // What the decisions amount to
  // ---------------------------------------------------------------------

  /** Without the permission, every guarded action is denied, admin or owner
      alike; with it, exactly admins and the owner are let through. */
  lemma GuardedMeaning(reg: Registry, u: User, perm: string, owner: Id)
    ensures !HasPermissionTo(reg, u, perm) ==> !Guarded(reg, u, perm, owner)
    ensures HasPermissionTo(reg, u, perm) ==> (Guarded(reg, u, perm, owner) <==> IsAdmin(u) || u.id == owner)
  {
  }

  /** Viewing a board depends on role and ownership only. */
  lemma ViewIgnoresPermissions(u: User, board: Board, perms: set<string>)
    ensures BoardView(u.(permissions := perms), board) == BoardView(u, board)
  {
  }

  /** With the seeded table, a plain viewer can never delete a board or a
      column, not even its own. */
  lemma SeededViewerNeverDeletes(reg: Registry, u: User, db: Db, board: Board, column: Id)
    requires u.roles == {"viewer"} && u.permissions == {}
    requires column in db.columns && db.columns[column].place.parent in db.boards
    ensures !BoardDelete(Seed(reg), u, board)
    ensures !ColumnDelete(Seed(reg), u, db, column)
  {
    SeededViewerPermissions(reg, u, "boards.delete");
    SeededViewerPermissions(reg, u, "columns.delete");
  }

  /** With the seeded table, a plain viewer may do every card action exactly
      on the cards of its own boards. */
  lemma SeededViewerCardActions(reg: Registry, u: User, db: Db, card: Id, a: CardAction)
    requires u.roles == {"viewer"} && u.permissions == {}
    requires card in db.cards && db.cards[card].place.parent in db.columns
    requires db.columns[db.cards[card].place.parent].place.parent in db.boards
    ensures CardAllows(Seed(reg), u, db, card, a) <==> u.id == CardOwner(db, card)
  {
    SeededViewerPermissions(reg, u, CardPermission(a));
  }

  /** With the seeded table, an admin may do every guarded action on every
      board, since the admin role holds every permission the seeder defines. */
  lemma SeededAdminAllowed(reg: Registry, u: User, perm: string, owner: Id)
    requires IsAdmin(u) && perm in PermissionSet()
    ensures Guarded(Seed(reg), u, perm, owner)
  {
    SeededAdminHasEverything(reg, u, perm);
  }

  /** An admin whose roles do not grant the permission is denied: the
      permission check comes before the admin shortcut. */
  lemma AdminWithoutPermissionDenied(reg: Registry, u: User, db: Db, column: Id)
    requires IsAdmin(u)
    requires column in db.columns && db.columns[column].place.parent in db.boards
    requires "columns.delete" !in u.permissions
    requires forall role | role in u.roles && role in reg.roles :: "columns.delete" !in reg.roles[role]
    ensures !ColumnDelete(reg, u, db, column)
  {
  }
}
