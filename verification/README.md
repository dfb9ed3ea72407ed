# Task board core: positions, cache coherence, broadcasts

A Dafny model of the core of a Laravel task board. A user owns boards, and a
board holds ordered columns that hold ordered cards. The model covers:

- the position bookkeeping of the card and column services: append on create,
  the two bulk shifts and the final update of a card move, and deletes that
  do not renumber;
- the repositories' read-through cache. Entries are stored under tag sets,
  then forgotten by key or flushed by tag. This includes the model-event
  hooks (`ClearsCache`, `Board::booted`) that add their own forgets;
- the board service's create, update and delete, with the three default
  columns and the cascading delete;
- the CSV import job;
- the broadcast events, their channel gates and payloads;
- the notification recipients;
- the role and permission seeder, and the policies built on it;
- the data objects' `forCreate`/`forUpdate` constructors.

The tables are three maps from ids to rows. An entity's parent and rank are one
`Place`. The pure position engine (`Positions`) works on the map of places
alone. A cache slot is a pair (tag set, key): an untagged `Cache::forget(k)`
removes only the untagged slot of `k`, and a tag flush removes every slot
whose tag set holds that tag. A stored null is a miss: `Cache::remember`
loads and stores again whenever the cached value is null. A write returns the new tables and the cache
after its `Invalidation`. `Staleness` proves which reads then return
pre-write values.

Four behaviours of the code that a reader might not expect:

- A requested position is not clamped to the sibling count. See
  `CardService.MoveOnlyCardPastEnd` and `ColumnService.UpdateOnlyColumnPastEnd`.
- Deletes do not compact the remaining siblings. See
  `CardService.DeleteKeepsGapFreeIff` and `ColumnService.DeleteKeepsGapFreeIff`.
- A write does not invalidate every entry it makes stale. See the `Staleness`
  lemmas.
- Moving a card to its own place is not a no-op as written. See Findings.

Fresh ids (auto-increment) are parameters, with a precondition that they are
unused. The CSV splitter `str_getcsv` is a function parameter. A storage
error inside the board service's two transactions is a boolean parameter.

## Model

| member | source | states |
|---|---|---|
| Positions.LowerAbove | app/Services/CardService.php:75-77 | only siblings under the parent above the removed position move, each down by exactly one; every other place is untouched |
| Positions.RaiseFrom | app/Services/CardService.php:80-82 | only siblings under the target at or after the requested position move, each up by exactly one; every other place is untouched |
| Positions.Move | app/Services/CardService.php:72-88 | the moved entity ends at exactly (target, r), and entities under neither parent keep their places |
| Positions.MembersOfMove | app/Services/CardService.php:72-88 | the target gains the moved entity, and a different source loses exactly it |
| Positions.MovedSiblings | app/Services/CardService.php:75-82 | each other sibling lands where the decrement-then-increment sends it |
| Positions.MoveAcrossCounts | app/Services/CardService.php:72-88 | a move to another parent shrinks the source by one and grows the target by one |
| Positions.MoveAcrossKeepsGapFree | app/Services/CardService.php:72-88 | a move between gap-free parents with 0 <= r <= target count leaves both contiguous, with counts -1 and +1 |
| Positions.MoveAcrossGapFreeIff | app/Services/CardService.php:72-88 | both parents stay gap-free if and only if 0 <= r <= target count |
| Positions.MoveWithinKeepsGapFree | app/Services/CardService.php:72-88 | within a gap-free parent, a move to r below the count keeps it gap-free with the same count |
| Positions.MoveWithinGapFreeIff | app/Services/CardService.php:72-88 | within a gap-free parent, it stays gap-free if and only if 0 <= r < count |
| Positions.MoveWithinIsArrayMove | app/Services/CardService.php:72-88 | within one parent the two shifts amount to an array move: every other sibling lands at its ArrayMoveIndex, and other parents do not change |
| Positions.ArrayMoveIndexInjective | app/Services/CardService.php:75-82 | the array-move renumbering never puts another sibling on r and never merges two siblings |
| Positions.MoveToOwnPlaceIsNoOp | app/Services/CardService.php:72-88 | with unique positions, the shifts applied to a card's own place return the original layout |
| Positions.AppendKeepsGapFree | app/Services/CardService.php:22-33 | appending at `count` keeps a gap-free parent gap-free, one larger |
| Positions.RemoveKeepsGapFreeIff | app/Services/CardService.php:50-58 | a delete without renumbering keeps the parent gap-free if and only if the removed entity held the last position |
| Positions.RepositionGapFreeIff | app/Services/ColumnService.php:30-43 | writing a new position onto one entity of a gap-free parent, with no sibling shifted, keeps the parent gap-free if and only if the position is unchanged |
| Positions.RemoveThenAppendCollides | app/Services/CardService.php:22-33 | deleting a non-last sibling and then appending puts two siblings on one position |
| Positions.GapFreePositions | app/Services/CardService.php:24 | on a gap-free parent the positions in use are exactly 0 .. count-1 |
| Positions.AtPosition | app/Services/CardService.php:24 | on a gap-free parent, every position below the count is held by some member |
| Positions.ThreeFresh | app/Services/BoardService.php:48-52 | three new columns at 0, 1 and 2 form a gap-free board of exactly three columns |
| Ordering.MinOf | app/Models/Board.php:51-54 | returns a member of the set that precedes every other member in position order |
| Ordering.Siblings | app/Models/Column.php:23-26 | `orderBy('position')` lists every member exactly once, sorted by position (ties by id), with length equal to the count |
| Ordering.GapFreeOrderIsPosition | app/Models/Column.php:23-26 | on a gap-free parent the sibling at index i of the ordered relation holds position i |
| Ordering.GapFreeOrderUnique | app/Models/Board.php:51-54 | on a gap-free parent the ordered relation is unique, so ties never arise |
| Records.WriteCard | app/Services/CardService.php:85-88 | saving from a stale in-memory model writes only the attributes that differ from that model: a clean fill writes nothing, and a changed column or position is written |
| Records.FillIdempotent | app/Repositories/Eloquent/CardRepository.php:30-44 | filling the same array twice is filling it once, an empty array changes nothing, and saving after a repeated fill writes nothing new |
| CacheStore.ApplyForgetsExactly | app/Repositories/Eloquent/CardRepository.php:57-72 | a write that only forgets keys removes exactly the untagged slots of those keys |
| CacheStore.Forget | app/Repositories/Eloquent/CardRepository.php:53 | `Cache::forget` removes the untagged slot of its key and nothing else; every remaining slot keeps its value |
| CacheStore.Flush | app/Repositories/Eloquent/BoardRepository.php:61-62 | a tag flush removes exactly the slots whose tag set holds the tag; every remaining slot keeps its value |
| CacheStore.ForgetSparesTagged | app/Repositories/Eloquent/CardRepository.php:68-70 | an untagged forget never removes an entry stored under tags |
| CacheStore.ApplyPlus | app/Traits/ClearsCache.php:9-22 | two invalidations in a row equal their union |
| CacheStore.Remember | app/Repositories/Eloquent/CardRepository.php:12-19 | a hit (a stored non-null value) returns it and leaves the store alone; a miss, which includes a stored null, loads from the tables and stores the value with its lifetime; a fresh store stays fresh |
| CacheStore.StaleAfterWrite | app/Repositories/Eloquent/BoardRepository.php:56-65 | after a write, a slot is stale exactly when it survived the invalidation and its loader now reads differently |
| CacheStore.FreshAfterWrite | app/Repositories/Eloquent/BoardRepository.php:56-65 | an invalidation that covers every slot whose loader changed keeps a fresh store fresh |
| Hooks.FiredKeys | app/Traits/ClearsCache.php:9-22 | post-write events forget exactly the related keys (plus the owner's list for a board); pre-write events forget nothing; card, column and `boards.all` keys are never among them |
| Repositories.Read | app/Repositories/Eloquent/BoardRepository.php:13-21 | a fresh slot reads what the tables hold; a hit changes nothing; a miss, a cached null included, reloads and stores the value with the given lifetime |
| Repositories.FindCard | app/Repositories/Eloquent/CardRepository.php:12-19 | a fresh `card.{id}` reads the card row or null; a miss is stored for 30 minutes |
| Repositories.CardCreateDrops | app/Repositories/Eloquent/CardRepository.php:21-28 | a card create forgets the column key and the board's two keys, and flushes nothing |
| Repositories.CardUpdateDrops | app/Repositories/Eloquent/CardRepository.php:30-44 | an update forgets the card key and its column's keys, plus the old column's keys when the column changed |
| Repositories.CardDeleteDrops | app/Repositories/Eloquent/CardRepository.php:46-55 | a delete forgets the card key and the keys of the column it was in |
| Repositories.FindColumn | app/Repositories/Eloquent/ColumnRepository.php:11-18 | a fresh `column.{id}` reads the column row or null; a miss is stored for 30 minutes |
| Repositories.ColumnCreateDrops | app/Repositories/Eloquent/ColumnRepository.php:20-27 | a column create forgets the board's two keys |
| Repositories.ColumnUpdateDrops | app/Repositories/Eloquent/ColumnRepository.php:29-36 | an update forgets the column key and the board's keys, whether or not anything changed |
| Repositories.ColumnDeleteDrops | app/Repositories/Eloquent/ColumnRepository.php:38-47 | a delete forgets the column key and the board's keys |
| Repositories.FindBoard | app/Repositories/Eloquent/BoardRepository.php:13-21 | a fresh tagged `board.{id}` reads the board row or null; a miss is stored for 30 minutes |
| Repositories.FindBoardTree | app/Repositories/Eloquent/BoardRepository.php:23-31 | a fresh tagged tree reads the board with its columns and cards, or null when there is no board |
| Repositories.BoardsForUser | app/Repositories/Eloquent/BoardRepository.php:33-44 | a fresh list holds exactly the boards the user owns, each as its row with its `columns_count`; a miss is stored for 10 minutes |
| Repositories.AllBoardsList | app/Repositories/Eloquent/BoardRepository.php:79-88 | a fresh `boards.all` holds every board, each as its row with its `columns_count`; a miss is stored for 10 minutes |
| Repositories.BoardCreateDrops | app/Repositories/Eloquent/BoardRepository.php:46-54 | a board create flushes the owner's list tag and forgets the board's keys and the owner's untagged list key |
| Repositories.BoardWriteDrops | app/Repositories/Eloquent/BoardRepository.php:56-77 | an update or delete flushes the board's tag and the owner's list tag; the hooks' forgets are added only when they fire; `boards.all` is never forgotten |
| Repositories.BoardFlushesReachTaggedEntries | app/Repositories/Eloquent/BoardRepository.php:56-77 | a board write drops the tagged board, tree and owner-list entries, but not `boards.all` |
| CardService.CreateKeepsColumnGapFree | app/Services/CardService.php:22-33 | a created card takes the column's count as its position, so a gap-free column stays gap-free, one larger |
| CardService.Create | app/Services/CardService.php:22-33 | exactly one new card, with the given title, a null assignee and the appended place; every other row is unchanged |
| CardService.CreateForgets | app/Services/CardService.php:22-33 | a card create forgets exactly its column's keys |
| CardService.Update | app/Services/CardService.php:35-48 | only the card's title and description change, as the data object dictates; its place and assignee stay |
| CardService.UpdateForgets | app/Services/CardService.php:35-48 | an update forgets exactly `card.{id}` and its column's keys |
| CardService.Delete | app/Services/CardService.php:50-58 | the row goes, no sibling is renumbered, and one CardDeleted event names the board and card |
| CardService.DeleteForgets | app/Services/CardService.php:50-58 | a delete forgets exactly `card.{id}` and its column's keys |
| CardService.DeleteKeepsGapFreeIff | app/Services/CardService.php:50-58 | the column stays gap-free if and only if the deleted card was last |
| CardService.DeleteThenCreateCollides | app/Services/CardService.php:24 | after deleting a non-last card, the next create lands on an occupied position |
| CardService.ShiftCards | app/Services/CardService.php:75-82 | the bulk shifts change card places only, as the position engine prescribes |
| CardService.Shift | app/Services/CardService.php:72-88 | after the shifts and the final update the card's column is the target; the other tables are unchanged |
| CardService.Relocate | app/Services/CardService.php:63-99 | a move is refused exactly when the columns are on different boards; the returned card is the stored row |
| CardService.Move | app/Services/CardService.php:63-99 | corrected move (see Findings): refused with CannotMoveCard across boards; otherwise the cards take the engine's move layout, only places change, the card ends at (target, r), and one CardMoved event carries the old and new columns |
| CardService.MoveForgets | app/Services/CardService.php:63-99 | a move forgets exactly `card.{id}` and the keys of both columns; the shifted siblings keep their entries |
| CardService.MoveAsWritten | app/Services/CardService.php:63-99 | as written, a self move leaves the card at r + 1; it is refused exactly when the columns are on different boards |
| CardService.MoveKeepsGapFreeIff | app/Services/CardService.php:72-88 | with gap-free columns, both stay gap-free if and only if r is below the count within one column, or at most the count across columns |
| CardService.MoveWithinColumnIsArrayMove | app/Services/CardService.php:72-88 | within one column the other cards land at their array-move positions |
| CardService.MoveToOwnPlaceKeepsCards | app/Services/CardService.php:72-88 | in the corrected move, moving a card to its own place leaves the tables unchanged |
| CardService.MoveThirdToFront | app/Services/CardService.php:72-88 | [a, b, c] with c moved to 0 reads [c, a, b] |
| CardService.MoveLastToFront | app/Services/CardService.php:72-88 | the concrete [A, B, C] column with C moved to the front reads [C, A, B] |
| CardService.MoveOnlyCardPastEnd | app/Services/CardService.php:85-88 | a requested position past the end is stored as given, leaving a gap |
| CardService.MoveAsWrittenAgreesOffSelf | app/Services/CardService.php:85-88 | except for a self move, the code as written and the corrected move give identical results |
| CardService.MoveAsWrittenSelfMoveCollides | app/Services/CardService.php:85-88 | as written, a self move of a non-last card ends one past its place, on the next card's position |
| CardService.AsWrittenKeepsShifted | app/Services/CardService.php:75-88 | as written, every other card keeps the place the two shifts gave it |
| CardService.SelfMoveScenario | app/Services/CardService.php:85-88 | in [A, B, C], B moved to its own place shares C's position as written, and stays put in the corrected move |
| CardService.MovePayloadConsistency | app/Events/CardMoved.php:46-61 | the corrected move's payload agrees with its embedded card; as written, a self move's embedded position contradicts the request |
| ColumnService.Create | app/Services/ColumnService.php:19-28 | exactly one new column, with the given name, appended at the board's count |
| ColumnService.CreateForgets | app/Services/ColumnService.php:19-28 | a column create forgets exactly the board's two keys |
| ColumnService.CreateKeepsBoardGapFree | app/Services/ColumnService.php:19-28 | a gap-free board stays gap-free, one larger |
| ColumnService.Update | app/Services/ColumnService.php:30-43 | a given name and a non-null position overwrite the column's own; the board and the other rows stay |
| ColumnService.UpdateForgets | app/Services/ColumnService.php:30-43 | an update forgets exactly `column.{id}` and the board's keys |
| ColumnService.UpdateOntoSiblingCollides | app/Services/ColumnService.php:30-43 | writing a sibling's position makes two columns share it, because no sibling is shifted |
| ColumnService.UpdateOnlyColumnPastEnd | app/Services/ColumnService.php:30-43 | the only column moved to 2 stays at 2, leaving the board with a gap |
| ColumnService.UpdateKeepsGapFreeIff | app/Services/ColumnService.php:30-43 | an update keeps a gap-free board gap-free if and only if it gives no position or the column's current one |
| ColumnService.Delete | app/Services/ColumnService.php:45-56 | the column and exactly its cards go; one ColumnDeleted event names the board and column |
| ColumnService.DeleteForgets | app/Services/ColumnService.php:45-56 | forgets exactly `column.{id}` and the board's keys, and none of its cards' keys |
| ColumnService.DeleteKeepsWellFormed | app/Services/ColumnService.php:45-56 | after the cascading delete every card's column and every column's board still exist |
| ColumnService.DeleteKeepsGapFreeIff | app/Services/ColumnService.php:45-56 | the board stays gap-free if and only if the deleted column was last |
| BoardService.GetAllForUser | app/Services/BoardService.php:20-27 | a fresh read gives an admin every board and anyone else exactly their own, each as its row with its `columns_count` |
| BoardService.GetWithRelations | app/Services/BoardService.php:29-32 | a fresh read gives the board with its columns and cards |
| BoardService.CreateDefaultColumns | app/Services/BoardService.php:48-52 | adds the three named columns at 0, 1, 2 of the new board, and forgets only the board's keys |
| BoardService.Create | app/Services/BoardService.php:38-56 | fails exactly on a storage error; otherwise exactly one board and three default columns are added, and the cache drops the create's keys |
| BoardService.CreateGivesThreeGapFreeColumns | app/Services/BoardService.php:38-56 | a new board has exactly its three columns, gap-free |
| BoardService.Update | app/Services/BoardService.php:58-71 | only the board's name and description change; every entry tagged with the board or its owner's list is dropped; `boards.all` is kept |
| BoardService.UpdateForgets | app/Repositories/Eloquent/BoardRepository.php:56-65 | an update drops exactly the slots tagged with the board or its owner's list and, when the row changed, the untagged board and owner-list keys the `updated` hooks forget; every other slot keeps its value |
| BoardService.Delete | app/Services/BoardService.php:77-96 | fails with BoardDeletionFailed(id) exactly on an error; otherwise the tables lose the board's tree and the board flushes apply |
| BoardService.DeleteRemovesEverything | app/Services/BoardService.php:77-96 | nothing of the board is left, and the foreign keys of what remains still hold |
| Staleness.CardCreateLeavesBoardTreeStale | app/Repositories/Eloquent/CardRepository.php:63-72 | after a card create, the cached board tree is still served without the new card |
| Staleness.MoveLeavesShiftedSiblingStale | app/Services/CardService.php:80-82 | a sibling shifted by the bulk increment still reads its old position from `card.{x}` |
| Staleness.ColumnDeleteLeavesCardsStale | app/Services/ColumnService.php:45-56 | a card removed by the column delete is still served by `card.{x}` |
| Staleness.ColumnCreateLeavesUserListStale | app/Repositories/Eloquent/ColumnRepository.php:55-59 | a column create leaves the owner's tagged board list, with its old column count, in place |
| Staleness.BoardCreateLeavesAllBoardsStale | app/Repositories/Eloquent/BoardRepository.php:46-54 | after a board create, an admin's list still lacks the new board |
| Staleness.BoardDeleteLeavesAllBoardsStale | app/Repositories/Eloquent/BoardRepository.php:67-77 | after a delete, an admin's list still shows the deleted board |
| Staleness.BoardUpdateLeavesAllBoardsStale | app/Repositories/Eloquent/BoardRepository.php:56-65 | after an update, an admin's list still shows the old board |
| Staleness.BoardUpdateReadsFresh | app/Repositories/Eloquent/BoardRepository.php:56-65 | after an update, the next board and tree reads load the new row |
| Staleness.CardUpdateReadsFresh | app/Repositories/Eloquent/CardRepository.php:57-61 | after a card update, the next card read loads the new row |
| Staleness.CreateAfterCachedNullReadsNewCard | app/Repositories/Eloquent/CardRepository.php:12-19 | a null cached for an unused id is reloaded, so after the create the card read returns the new row |
| CsvImport.ImportRows | app/Jobs/ImportTasksFromCsv.php:56-76 | yields at most one row per line, each with a truthy title |
| CsvImport.ImportRowsConcat | app/Jobs/ImportTasksFromCsv.php:56-76 | lines are read independently: the rows of two stretches are concatenated in order |
| CsvImport.SkippedLinesYieldNothing | app/Jobs/ImportTasksFromCsv.php:57-65 | removing a skipped line changes none of the imported rows |
| CsvImport.HeaderOnlyImportsNothing | app/Jobs/ImportTasksFromCsv.php:48-51 | a file of just a header line imports nothing |
| CsvImport.FalsyLinesSkipped | app/Jobs/ImportTasksFromCsv.php:57 | "", "0" and " 0 " are skipped whatever the splitter does |
| CsvImport.FindImported | app/Jobs/ImportTasksFromCsv.php:41-44 | finds nothing exactly when the board has no "Imported" column, and otherwise the first one in position order |
| CsvImport.ImportedCards | app/Jobs/ImportTasksFromCsv.php:67-73 | row j becomes card `start + j`, and there are no other cards |
| CsvImport.ImportedCardAt | app/Jobs/ImportTasksFromCsv.php:67-73 | row j's card sits at `base + j` in the column, with the row's title, description and the importing user |
| CsvImport.ImportColumn | app/Jobs/ImportTasksFromCsv.php:41-44 | reuses the existing "Imported" column, or creates one at the board's count and forgets the board's keys |
| CsvImport.AddRow | app/Jobs/ImportTasksFromCsv.php:67-75 | one `Card::create` keeps the loop invariant one row further |
| CsvImport.ImportCards | app/Jobs/ImportTasksFromCsv.php:54-76 | inserts exactly the rows' cards at consecutive positions after the current count, keeps a gap-free column gap-free, and forgets the board's keys when any card was inserted |
| CsvImport.Import | app/Jobs/ImportTasksFromCsv.php:36-84 | the column grows by exactly the imported rows; boards are unchanged; the column is reused or created as found; one BoardUpdated event follows |
| Dto.CardForCreate | app/Data/Card/CardData.php:22-28 | a given title, valid exactly when the title is a required short string |
| Dto.NullableRoundTrip | app/Data/Card/CardData.php:30-36 | null and absent convert into each other and back without loss, and a value is kept both ways |
| Dto.CardForUpdateRoundTrip | app/Data/Card/CardData.php:30-36 | `forUpdate` is a bijection between the nullable arguments and data objects |
| Dto.BoardForCreate | app/Data/Board/BoardData.php:22-28 | a given name, valid exactly when the name is a required short string |
| Dto.BoardForUpdateRoundTrip | app/Data/Board/BoardData.php:30-36 | `forUpdate` is a bijection between the nullable arguments and data objects |
| Dto.ColumnForCreate | app/Data/Column/ColumnData.php:24-27 | a given name with a null position |
| Dto.ColumnForUpdateRoundTrip | app/Data/Column/ColumnData.php:29-35 | `forUpdate` is a bijection between the nullable arguments and data objects |
| Events.BoardChannelNameRoundTrip | app/Events/CardMoved.php:28-33 | parsing `board.{id}` gives back the id |
| Events.BoardChannelNameInjective | app/Events/CardMoved.php:28-33 | two boards never share a channel |
| Events.BroadcastOn | app/Events/CardDeleted.php:30-35 | every event goes on exactly one channel, that of its board |
| Events.EventNamesTellKindsApart | app/Events/ColumnDeleted.php:27-30 | two events share a name exactly when they are of the same kind |
| Events.CardMovedPayloadConsistent | app/Events/CardMoved.php:46-61 | when the embedded card is where the event says, the payload agrees with itself |
| Channels.EventAudienceIsOwner | routes/channels.php:10-22 | the listeners of an event's channel are exactly the board's owner |
| Channels.AdminNotOwnerRefused | routes/channels.php:13-15 | an admin who does not own the board is refused |
| Notifications.Exclude | app/Services/Notification/NotificationService.php:52-60 | keeps exactly the users other than the actor |
| Notifications.BoardRecipients | app/Services/Notification/NotificationService.php:52-60 | the owner, unless the owner is the actor |
| Notifications.NotifyCardMoved | app/Services/Notification/NotificationService.php:15-22 | one notice to the board's owner unless the owner moved the card |
| Notifications.NoSelfNotification | app/Services/Notification/NotificationService.php:52-60 | the actor never receives their own notice |
| Roles.TwelvePermissions | database/seeders/RolesAndPermissionsSeeder.php:18-31 | the seeder defines exactly twelve distinct permissions |
| Roles.SeedIdempotent | database/seeders/RolesAndPermissionsSeeder.php:12-54 | seeding twice equals seeding once |
| Roles.ViewerPermissionsOfTheTwelve | database/seeders/RolesAndPermissionsSeeder.php:42-53 | the viewer role holds all the twelve but boards.view-any, boards.delete and columns.delete |
| Roles.SeededAdminHasEverything | database/seeders/RolesAndPermissionsSeeder.php:38-39 | an admin has every seeded permission |
| Roles.SeededViewerPermissions | database/seeders/RolesAndPermissionsSeeder.php:42-53 | a plain viewer has a permission exactly when it is one of the nine |
| Roles.UserHook | app/Models/User.php:67-74 | a new user with neither admin nor viewer role gets viewer, and anyone else is unchanged |
| Roles.UserHookIdempotent | app/Models/User.php:67-74 | giving the default role twice is giving it once |
| Policies.GuardedMeaning | app/Policies/CardPolicy.php:14-25 | without the permission everyone is denied; with it, admins and the owner are allowed |
| Policies.ViewIgnoresPermissions | app/Policies/BoardPolicy.php:23-30 | viewing a board depends on the role and ownership only |
| Policies.SeededViewerNeverDeletes | app/Policies/ColumnPolicy.php:48-59 | with the seeded roles a plain viewer can never delete a board or a column |
| Policies.SeededViewerCardActions | app/Policies/CardPolicy.php:30-73 | with the seeded roles a plain viewer may update, delete or move a card exactly when they own its board |
| Policies.SeededAdminAllowed | app/Policies/CardPolicy.php:62-73 | with the seeded roles an admin passes every guarded check |
| Policies.AdminWithoutPermissionDenied | app/Policies/ColumnPolicy.php:48-59 | the permission is checked before the role, so an admin lacking it is denied |
| Text.Trim | app/Jobs/ImportTasksFromCsv.php:57 | the result is a slice of the input with only trim characters cut from both ends, and no trim character at either edge |
| Text.ImplodeExplode | app/Jobs/ImportTasksFromCsv.php:48 | the newline pieces joined again give back the file |
| Text.ParseDecimalOfDecimal | app/Events/CardMoved.php:28-33 | the decimal spelling of an id in the channel name `board.{id}` reads back as that id |

## Left out

- Cache lifetimes are stored with each entry but never expire: there is no clock.
- `latest()` ordering of board lists, timestamps, and the users table beyond id, name, roles and permissions are not modelled.
- A board list snapshot keeps `columns_count` but not the `user` relation loaded by `findByIdWithRelations`.
- `toOthers()` socket exclusion, queueing, `SerializesModels` re-fetching and broadcast delivery are outside the model. Events are returned as values.
- The job's `Storage::get`/`Storage::delete`, logging, `$tries`, `$timeout` and the `failed()` handler are I/O or scheduling and are left out. The file is a string parameter.
- `str_getcsv` is a parameter `split`; its quoting rules are not modelled.
- The `Exists` and `Min(0)` validation rules of the move request are preconditions of `CardService.Move`; an invalid request never reaches the service.
- Spatie's exception for a permission name missing from the table is not modelled: every permission is a name in a set.
- `clearUserCache` in the board repository is never called, so it is not modelled.
- Invalidations issued inside a transaction that then rolls back are not modelled: a failed board create or delete returns no world.
- Ties between equal positions are broken by id in `Ordering` and `CsvImport.FindImported`; the database leaves their order open.
- Concurrency between requests is not modelled: each service call is one atomic step.
- BoardUpdated's payload is only the board id; the board's other attributes the client receives are left out.
- Authorisation is separate from the services, as in the controllers: `Policies` is not wired into `CardService` or `ColumnService`.

## Findings

| source | as written | input that shows it | evidently intended | confidence | as-written member | corrected member |
|---|---|---|---|---|---|---|
| app/Services/CardService.php:85-88 | the final `update()` runs on the card model loaded before the two bulk shifts; when the move targets the card's own column and position, no attribute differs from that model, so nothing is written and the card keeps the +1 the increment gave it | a gap-free column [A(0), B(1), C(2)] with B moved to column of B, position 1: B ends at 2, sharing it with C, and position 1 is empty | moving a card to its own place leaves every card where it was | high, not executed | CardService.MoveAsWritten, CardService.MoveAsWrittenSelfMoveCollides, CardService.SelfMoveScenario | CardService.Move, CardService.MoveToOwnPlaceKeepsCards |
