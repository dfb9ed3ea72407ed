/**
 The cache store as a map from slots to entries.

 A value cached through `Cache::tags([...])->remember($key, ...)` lives under
 a key namespaced by its tag set. So a slot is the pair (tag set, key), and an
 untagged `Cache::forget($key)` reaches only the slot with the empty tag set.
 `flush()` on a tag drops every slot whose tag set holds that tag. What a
 slot holds is a snapshot of what its loader read from the tables.
 */
module CacheStore {
  import opened Wrappers
  import opened Positions
  import opened Records

  /** The cache keys the core uses, spelled `card.{id}`, `column.{id}`,
      `board.{id}`, `board.{id}.with_relations`, `user.{id}.boards` and
      `boards.all`. Distinct constructors are distinct strings. */
  datatype Key =
    | CardKey(id: Id)
    | ColumnKey(id: Id)
    | BoardKey(id: Id)
    | BoardTreeKey(id: Id)
    | UserBoardsKey(user: Id)
    | AllBoardsKey

  /** The tags, spelled `boards`, `board.{id}` and `user.{id}.boards`. */
  datatype Tag = BoardsTag | BoardTag(id: Id) | UserBoardsTag(user: Id)

  datatype Slot = Slot(tags: set<Tag>, key: Key)

  /** A board with its columns and their cards (`with(['columns.cards'])`). */
  datatype BoardTree = BoardTree(board: Board, columns: map<Id, Column>, cards: map<Id, Card>)

  /** A row of a board list with its `columns_count`. */
  datatype BoardSummary = BoardSummary(board: Board, columnsCount: nat)

  /** What a loader read. */
  datatype Snapshot =
    | CardSnap(card: Option<Card>)
    | ColumnSnap(column: Option<Column>)
    | BoardSnap(board: Option<Board>)
    | TreeSnap(tree: Option<BoardTree>)
    | ListSnap(boards: map<Id, BoardSummary>)

  /** A cached value and the lifetime it was stored with, in minutes. */
  datatype Entry = Entry(value: Snapshot, ttlMinutes: nat)

  type Store = map<Slot, Entry>

  /** `Board::with(['columns.cards'])->find($id)`. */
  function TreeOf(db: Db, b: Id): Option<BoardTree> {
    if b !in db.boards then None
    else Some(BoardTree(
      db.boards[b],
      map c | c in db.columns && db.columns[c].place.parent == b :: db.columns[c],
      map k | k in db.cards && CardOnBoard(db, k, b) :: db.cards[k]))
  }

  /** `Board::where('user_id', $uid)->withCount('columns')->get()`. */
  function BoardsOwnedBy(db: Db, user: Id): map<Id, BoardSummary> {
    map b | b in db.boards && db.boards[b].owner == user :: BoardSummary(db.boards[b], ColumnCount(db, b))
  }

  /** `Board::withCount('columns')->get()`. */
  function AllBoards(db: Db): map<Id, BoardSummary> {
    map b | b in db.boards :: BoardSummary(db.boards[b], ColumnCount(db, b))
  }

  /** What the loader behind each key reads from the tables now. */
  function Load(db: Db, k: Key): Snapshot {
    match k
    case CardKey(id) => CardSnap(Find(db.cards, id))
    case ColumnKey(id) => ColumnSnap(Find(db.columns, id))
    case BoardKey(id) => BoardSnap(Find(db.boards, id))
    case BoardTreeKey(id) => TreeSnap(TreeOf(db, id))
    case UserBoardsKey(u) => ListSnap(BoardsOwnedBy(db, u))
    case AllBoardsKey => ListSnap(AllBoards(db))
  }

  /** A slot holds what its loader would read now. */
  predicate FreshAt(c: Store, db: Db, s: Slot) {
    s in c ==> c[s].value == Load(db, s.key)
  }

  /** Every slot of the store is fresh. */
  predicate Fresh(c: Store, db: Db) {
    forall s | s in c :: c[s].value == Load(db, s.key)
  }

  // ---------------------------------------------------------------------
  // Invalidation
  // ---------------------------------------------------------------------

  /** The untagged keys forgotten and the tags flushed by one write. */
  datatype Invalidation = Invalidation(forgets: set<Key>, flushes: set<Tag>) {
    function Plus(other: Invalidation): Invalidation {
      Invalidation(forgets + other.forgets, flushes + other.flushes)
    }
  }

  const Nothing := Invalidation({}, {})

  function Forgets(keys: set<Key>): Invalidation {
    Invalidation(keys, {})
  }

  function Flushes(tags: set<Tag>): Invalidation {
    Invalidation({}, tags)
  }

  /** Whether an invalidation removes a slot: an untagged slot of a forgotten
      key, or a slot carrying a flushed tag. */
  predicate Drops(inv: Invalidation, s: Slot) {
    (s.tags == {} && s.key in inv.forgets) || s.tags * inv.flushes != {}
  }

  /** The store after an invalidation. */
  function Apply(c: Store, inv: Invalidation): (r: Store)
    ensures forall s :: s in r <==> s in c && !Drops(inv, s)
    ensures forall s | s in r :: r[s] == c[s]
  {
    map s | s in c && !Drops(inv, s) :: c[s]
  }

  /** Whether a write that forgets `forgets` and flushes nothing took
      `before` to `after`: exactly the untagged slots of those keys are gone
      and every other entry is kept as it was. */
  ghost predicate ForgetsExactly(before: Store, after: Store, forgets: set<Key>) {
    && (forall s :: s in after <==> s in before && !(s.tags == {} && s.key in forgets))
    && (forall s | s in after :: after[s] == before[s])
  }

  /** An invalidation that flushes nothing forgets exactly its keys. */
  lemma ApplyForgetsExactly(c: Store, inv: Invalidation)
    requires inv.flushes == {}
    ensures ForgetsExactly(c, Apply(c, inv), inv.forgets)
  {
  }

  /** `Cache::forget($key)` on an untagged key. */
  function Forget(c: Store, k: Key): (r: Store)
    ensures Slot({}, k) !in r
    ensures forall s | s != Slot({}, k) :: s in r <==> s in c
    ensures forall s | s in r :: r[s] == c[s]
  {
    Apply(c, Forgets({k}))
  }

  /** `Cache::tags([$t])->flush()`. */
  function Flush(c: Store, t: Tag): (r: Store)
    ensures forall s :: s in r <==> s in c && t !in s.tags
    ensures forall s | s in r :: r[s] == c[s]
  {
    FlushOneDrops(t);
    Apply(c, Flushes({t}))
  }

  lemma FlushOneDrops(t: Tag)
    ensures forall s :: Drops(Flushes({t}), s) <==> t in s.tags
  {
    forall s ensures Drops(Flushes({t}), s) <==> t in s.tags {
      if t in s.tags {
        assert t in s.tags * {t};
      }
    }
  }

  /** Invalidations only remove, so running two in a row is running their union. */
  lemma ApplyPlus(c: Store, a: Invalidation, b: Invalidation)
    ensures Apply(Apply(c, a), b) == Apply(c, a.Plus(b))
  {
    forall s ensures Drops(a.Plus(b), s) <==> Drops(a, s) || Drops(b, s) {
      if s.tags * b.flushes != {} {
        assert s.tags * b.flushes <= s.tags * a.Plus(b).flushes;
      }
      if s.tags * a.flushes != {} {
        assert s.tags * a.flushes <= s.tags * a.Plus(b).flushes;
      }
      if s.tags * a.Plus(b).flushes != {} {
        var t :| t in s.tags * a.Plus(b).flushes;
        assert t in s.tags * a.flushes || t in s.tags * b.flushes;
      }
    }
  }

  /** An untagged forget never reaches a tagged slot. */
  lemma ForgetSparesTagged(c: Store, k: Key, s: Slot)
    requires s in c && s.tags != {}
    ensures s in Forget(c, k)
  {
  }

  // ---------------------------------------------------------------------
  // Read-through
  // ---------------------------------------------------------------------

  /** Whether a read gave PHP's `null`: the loader found no row. A list is
      never `null`. */
  predicate IsNull(v: Snapshot) {
    match v
    case CardSnap(card) => card.None?
    case ColumnSnap(column) => column.None?
    case BoardSnap(board) => board.None?
    case TreeSnap(tree) => tree.None?
    case ListSnap(_) => false
  }

  /** Whether `remember` serves the stored value: the slot is present and
      does not hold `null`, which the store cannot tell from a missing entry. */
  predicate Hit(c: Store, s: Slot) {
    s in c && !IsNull(c[s].value)
  }

  /** `remember($key, $ttl, $loader)` under a tag set: a hit returns the cached
      value untouched; a miss, or a stored `null`, runs the loader and stores
      its result. */
  function Remember(c: Store, db: Db, tags: set<Tag>, k: Key, ttl: nat): (r: (Store, Snapshot))
    ensures Hit(c, Slot(tags, k)) ==> r.0 == c && r.1 == c[Slot(tags, k)].value
    ensures !Hit(c, Slot(tags, k)) ==> r.1 == Load(db, k) && r.0 == c[Slot(tags, k) := Entry(Load(db, k), ttl)]
    ensures FreshAt(c, db, Slot(tags, k)) ==> r.1 == Load(db, k)
    ensures Fresh(c, db) ==> Fresh(r.0, db)
  {
    var s := Slot(tags, k);
    if Hit(c, s) then (c, c[s].value) else (c[s := Entry(Load(db, k), ttl)], Load(db, k))
  }

  // ---------------------------------------------------------------------
  // Staleness after a write
  // ---------------------------------------------------------------------

  /** Which reads can be stale after a write: starting from a fresh store, a
      slot that survives the write's invalidation is stale exactly when its
      loader would now read something different. */
  lemma StaleAfterWrite(c: Store, db: Db, db': Db, inv: Invalidation, s: Slot)
    requires Fresh(c, db)
    ensures s in Apply(c, inv) && !FreshAt(Apply(c, inv), db', s)
      <==> s in c && !Drops(inv, s) && Load(db, s.key) != Load(db', s.key)
  {
  }

  /** A write whose invalidation covers every slot whose loader changed keeps
      the store fresh. */
  lemma FreshAfterWrite(c: Store, db: Db, db': Db, inv: Invalidation)
    requires Fresh(c, db)
    requires forall s | s in c && Load(db, s.key) != Load(db', s.key) :: Drops(inv, s)
    ensures Fresh(Apply(c, inv), db')
  {
  }
}
