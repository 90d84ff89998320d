# Record store of the task/board tracker, in Dafny

This project models the embedded record store behind the task/board tracker: the `Database`
class of `lib/db.ts`. The store keeps three ordered lists, `users`, `boards` and `tasks`, and one
id counter, `nextId`, that all three kinds of record share. It offers creation, lookup, partial
update and deletion of records. Deleting a board also deletes every task of that board. The store
can also seed a user who owns no board with two demo boards and one demo task under each, and the
lookup of a user by id does this as a side effect.

Layout:

- `collections.dfy`, module `Collections`: the JavaScript array methods the store is built on
  (`findIndex`, `find`, `filter`, `splice(i, 1)`), written as pure functions, plus the facts about
  them that the proofs use (filter over a concatenation, filter of a filter, distinct keys
  surviving removal).
- `db.dfy`, module `Db`: the records (`User`, `Board`, `Task`, `DBData`), the caller-supplied
  creation fields and partial updates, and the pure queries over the lists. It also holds the
  id invariant `IdsValid`, the specification `Seeded` of demo seeding and the lemmas about them.
  Finally it holds the class `Database`, whose one field `data: DBData` is reassigned by each
  mutating method, as in the source.

The class methods have no preconditions, because the source accepts whatever state it loaded.
Each of them states its whole new state in terms of the old one. Each also states that it keeps
`Valid()` (ids unique and below `nextId`) when that held before. For the two update methods this
holds only when the patch leaves `id` unset or equal to the addressed id.

The store's merge protects no field. The board update route forwards only `name` and
`description` (app/api/boards/[id]/route.js:36-40). The task update route forwards the request
body as it is (app/api/tasks/[id]/route.js:29-30), so a task patch can carry `id`, `boardId` or
`createdAt`. The patch types can therefore carry every field. `MergeBoard` and `MergeTask` state
that a supplied field takes the patch's value and an absent one keeps its old value.
`UpdateCanDuplicateBoardIds` and `UpdateCanDuplicateTaskIds` give a concrete patch that leaves two
records with one id. For the same reason a task's `status` is an open string: the task list sends
`"done"` (app/components/tasklist.tsx:28), and the store keeps it.

## Model

| member | source | states |
|---|---|---|
| `Collections.FindIndex` | lib/db.ts:123 | the result is -1 exactly when no element matches; otherwise the element there matches and none before it does |
| `Collections.Find` | lib/db.ts:87 | nothing is found exactly when no element matches; a found element is the first matching one |
| `Collections.Filter` | lib/db.ts:115 | the result holds only elements of the input that match, and holds every matching element |
| `Collections.RemoveAt` | lib/db.ts:135 | `splice(i, 1)` removes exactly one occurrence of the element at `i`, shifts the later ones down by one and keeps the earlier ones |
| `Db.FindUserByEmail` | lib/db.ts:86-88 | no user is found exactly when no user has that email; a found user is the first with exactly that email |
| `Db.UserById` | lib/db.ts:91 | no user is found exactly when no user has that id; a found user is the first with that id |
| `Db.GetBoardsByUserId` | lib/db.ts:114-116 | the result holds exactly the stored boards owned by that user, and is no longer than the board list |
| `Db.BoardsByUserAfterPush` | lib/db.ts:115 | pushing a board extends its owner's list at the end and leaves every other user's list as it was, so the result keeps insertion order |
| `Db.FindBoardById` | lib/db.ts:118-120 | no board is found exactly when no board has that id; a found board is the first with that id |
| `Db.BoardIndex` | lib/db.ts:123 | -1 exactly when no board has that id; otherwise the first index whose board has that id |
| `Db.GetTasksByBoardId` | lib/db.ts:156-158 | the result holds exactly the stored tasks of that board, and is no longer than the task list |
| `Db.TasksByBoardAfterPush` | lib/db.ts:157 | pushing a task extends its board's list at the end and leaves every other board's list as it was, so the result keeps insertion order |
| `Db.TasksOffBoard` | lib/db.ts:136 | the tasks kept by the cascade are exactly the stored tasks of other boards, and are no more than the task list |
| `Db.TasksOffBoardAfterPush` | lib/db.ts:136 | a pushed task of another board is kept at the end of the survivors, so the survivors keep their relative order |
| `Db.FindTaskById` | lib/db.ts:160-162 | no task is found exactly when no task has that id; a found task is the first with that id |
| `Db.TaskIndex` | lib/db.ts:165 | -1 exactly when no task has that id; otherwise the first index whose task has that id |
| `Db.EmptyIdsValid` | lib/db.ts:48 | the fallback empty state with counter 1 satisfies the id invariant |
| `Db.PushUserKeepsIds` | lib/db.ts:79-81 | appending a user with the counter's id and advancing the counter keeps ids unique and below the counter; the new id exceeds every stored user's |
| `Db.PushBoardKeepsIds` | lib/db.ts:104-109 | the same for a new board |
| `Db.PushTaskKeepsIds` | lib/db.ts:145-151 | the same for a new task |
| `Db.ReplaceBoardKeepsIds` | lib/db.ts:125 | replacing a board by one with the same id keeps the id invariant |
| `Db.ReplaceTaskKeepsIds` | lib/db.ts:167 | replacing a task by one with the same id keeps the id invariant |
| `Db.RemoveBoardKeepsIds` | lib/db.ts:135-136 | removing one board and filtering out a board's tasks keeps the id invariant |
| `Db.RemoveTaskKeepsIds` | lib/db.ts:177 | removing one task keeps the id invariant |
| `Db.UpdateCanDuplicateBoardIds` | lib/db.ts:125 | a board patch carrying another board's id turns a valid state into one with a repeated id |
| `Db.UpdateCanDuplicateTaskIds` | lib/db.ts:167 | a task patch carrying another task's id turns a valid state into one with a repeated id |
| `Db.MergeBoard` | lib/db.ts:125 | for each of the five board fields, the merge takes the patch's value when the patch supplies it and keeps the board's value otherwise |
| `Db.MergeTask` | lib/db.ts:167 | for each of the seven task fields, the merge takes the patch's value when the patch supplies it (for `dueDate`, possibly `null`) and keeps the task's value otherwise |
| `Db.MergeBoardKeepsUnset` | lib/db.ts:125 | a patch that leaves `id`, `userId` and `createdAt` unset cannot touch them; the empty patch changes nothing; merging the same patch twice equals merging it once |
| `Db.MergeTaskKeepsUnset` | lib/db.ts:167 | the same for tasks, with `boardId` in place of `userId` |
| `Db.CascadeLeavesNoTask` | lib/db.ts:136 | after the cascade no task of the deleted board remains |
| `Db.CascadeKeepsOtherBoards` | lib/db.ts:136 | after the cascade every other board's task list is exactly what it was, order included |
| `Db.Seeded` | lib/db.ts:185-212 | seeding leaves users alone, is a no-op for a user who owns a board, and afterwards the user owns a board; the counter moves by 0 or 4 |
| `Db.SeedIdempotent` | lib/db.ts:186 | seeding twice gives the same state as seeding once |
| `Db.SeedOwnsDemoBoards` | lib/db.ts:188-198 | a user without boards owns exactly the two demo boards after seeding, in creation order |
| `Db.DemoTaskUnderDemoBoard` | lib/db.ts:200-212 | when no earlier task points at the fresh ids, each demo board's task list is exactly its one demo task |
| `Db.SeedGivesTwoBoards` | lib/db.ts:188-212 | a user without boards ends with exactly the two demo boards; each holds exactly its one pending demo task when no earlier task pointed at the fresh ids |
| `Db.SeedKeepsIds` | lib/db.ts:185-212 | seeding keeps the id invariant |
| `Db.SeedScenario` | lib/db.ts:185-212 | with user 1 and counter 2, the boards get ids 2 and 3 and the tasks 4 (board 2) and 5 (board 3); deleting board 2 leaves board 3 and task 5 |
| `Db.Database.constructor` | lib/db.ts:64-66 | the store starts from the empty dataset with counter 1, which satisfies the invariant |
| `Db.Database.GenerateId` | lib/db.ts:68-72 | returns the old counter and leaves the counter one larger, everything else unchanged |
| `Db.Database.CreateUser` | lib/db.ts:79-84 | appends exactly one user carrying the fresh id and the caller's fields; the other lists are unchanged; keeps the invariant |
| `Db.Database.FindUserById` | lib/db.ts:90-99 | returns the first user with that id; a found user is seeded and owns a board afterwards; nothing changes when no user has the id |
| `Db.Database.CreateBoard` | lib/db.ts:103-112 | appends exactly one board with the fresh id, the caller's fields and the given time; the owner's board list gains it at its end and every other user's list is unchanged; keeps the invariant |
| `Db.Database.UpdateBoard` | lib/db.ts:122-130 | only the first board with that id changes, to the merge of the patch; the merged board is returned; returns none and changes nothing when absent |
| `Db.Database.DeleteBoard` | lib/db.ts:132-141 | removes the first board with that id and every task of that board; returns true; no task of it remains and every other board's tasks are untouched; returns false and changes nothing when absent |
| `Db.Database.CreateTask` | lib/db.ts:144-154 | appends exactly one task with the fresh id and the caller's fields, status "pending" whatever the caller passed; its board's task list gains it at its end and every other board's list is unchanged; keeps the invariant |
| `Db.Database.UpdateTask` | lib/db.ts:164-172 | only the first task with that id changes, to the merge of the patch; the merged task is returned; returns none and changes nothing when absent |
| `Db.Database.DeleteTask` | lib/db.ts:174-182 | removes only the first task with that id and returns true; returns false and changes nothing when absent |
| `Db.Database.SeedDemoData` | lib/db.ts:185-215 | the four creations it makes produce exactly the state `Seeded` describes; keeps the invariant |

## Left out

- Loading and saving the dataset file (`loadDB`, `saveDB`, `persist`): file-system I/O, JSON and
  console logging. Every write-through is omitted. Only the fallback empty state with counter 1 is
  kept, as the constructor's state.
- The clock: each creation takes its timestamp `now` as a parameter.
- `Db.Database.SeedDemoData`: the four clock reads of one seeding are one `now`, and the console
  message is not modelled.
- `Number(id)` in `findBoardById`: ids are `nat` throughout, so string ids do not arise.
- The open `[key: string]: any` user shape: a user is a fixed record of id, email, password hash,
  name and creation time.
- Extra keys in the creation inputs: the typed inputs carry exactly the non-store fields, so a
  caller cannot override the fresh id by sending an `id`.
- A patch key present with the value `undefined`, which a JavaScript spread copies over the stored
  value. A patch field is either given a value or absent. The board update route always sends both
  `name` and `description`, so one it leaves out becomes `undefined` in the store.
- Db.Database.UpdateTask: the patch is a fixed record of the seven task fields. Keys outside them,
  which the spread adds to the stored task, are dropped. So are `null` values for fields other than
  `dueDate`, and values of the wrong type (a string `id`, say).
- Aliasing: the source returns references to the stored objects, so a caller that mutates a
  returned record mutates the store. The model returns values.
- Counter overflow: `nextId` is an unbounded `nat`, not a double.
- Concurrent callers: the store is modelled as single-threaded, as it is.
- Foreign keys: as in the source, creating a board or task does not check that its user or board
  exists.
