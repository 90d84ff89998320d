/** The embedded record store of the task/board tracker: users, boards and tasks kept in three
    ordered lists with one id counter shared by all three kinds of record. */
module Db {
  import opened Collections

  // ===== Records =====

  /** A task's status. The declared values are "pending" and "completed", but an update stores
      whatever string the caller sends (the task list sends "done"), so the model keeps it open. */
  type Status = string

  /** The status every new task starts with. */
  const Pending: Status := "pending"

  /** A registered user. `password` is the hash handed over by the caller; the store never reads it. */
  datatype User = User(id: nat, email: string, password: Option<string>, name: string, createdAt: string)

  datatype Board = Board(id: nat, name: string, description: Option<string>, userId: nat, createdAt: string)

  /** `dueDate == None` stands for both an absent due date and an explicit `null`. */
  datatype Task = Task(
    id: nat, title: string, description: Option<string>, boardId: nat,
    dueDate: Option<string>, status: Status, createdAt: string)

  /** The whole dataset, as it is written to the durable file after every change. */
  datatype DBData = DBData(users: seq<User>, boards: seq<Board>, tasks: seq<Task>, nextId: nat)

  /** The fields a caller supplies when creating a record: everything but the store-assigned ones. */
  datatype UserFields = UserFields(email: string, password: Option<string>, name: string, createdAt: string)
  datatype BoardFields = BoardFields(name: string, description: Option<string>, userId: nat)
  datatype TaskFields = TaskFields(title: string, description: Option<string>, boardId: nat, dueDate: Option<string>)

  /** A partial record: the fields an update supplies. Nothing stops a caller from supplying
      `id`, `userId`, `boardId` or `createdAt`. A task's `dueDate` may be set to `null`, hence
      the nested option. */
  datatype BoardPatch = BoardPatch(
    id: Option<nat>, name: Option<string>, description: Option<string>,
    userId: Option<nat>, createdAt: Option<string>)
  datatype TaskPatch = TaskPatch(
    id: Option<nat>, title: Option<string>, description: Option<string>, boardId: Option<nat>,
    dueDate: Option<Option<string>>, status: Option<Status>, createdAt: Option<string>)

  /** The patch that supplies no field. */
  const NoBoardChange := BoardPatch(None, None, None, None, None)
  const NoTaskChange := TaskPatch(None, None, None, None, None, None, None)

  /** `{ ...b, ...p }`: every field the patch supplies replaces the board's own; every field it
      leaves out keeps the board's value. */
  function MergeBoard(b: Board, p: BoardPatch): (r: Board)
    ensures r.id == if p.id.Some? then p.id.value else b.id
    ensures r.name == if p.name.Some? then p.name.value else b.name
    ensures r.description == if p.description.Some? then p.description else b.description
    ensures r.userId == if p.userId.Some? then p.userId.value else b.userId
    ensures r.createdAt == if p.createdAt.Some? then p.createdAt.value else b.createdAt
  {
    Board(p.id.GetOr(b.id), p.name.GetOr(b.name), if p.description.Some? then p.description else b.description,
          p.userId.GetOr(b.userId), p.createdAt.GetOr(b.createdAt))
  }

  /** `{ ...t, ...p }` for tasks: supplied fields replace, absent fields keep their value. A
      supplied `dueDate` may itself be `null`, which clears the due date. */
  function MergeTask(t: Task, p: TaskPatch): (r: Task)
    ensures r.id == if p.id.Some? then p.id.value else t.id
    ensures r.title == if p.title.Some? then p.title.value else t.title
    ensures r.description == if p.description.Some? then p.description else t.description
    ensures r.boardId == if p.boardId.Some? then p.boardId.value else t.boardId
    ensures r.dueDate == if p.dueDate.Some? then p.dueDate.value else t.dueDate
    ensures r.status == if p.status.Some? then p.status.value else t.status
    ensures r.createdAt == if p.createdAt.Some? then p.createdAt.value else t.createdAt
  {
    Task(p.id.GetOr(t.id), p.title.GetOr(t.title), if p.description.Some? then p.description else t.description,
         p.boardId.GetOr(t.boardId), p.dueDate.GetOr(t.dueDate), p.status.GetOr(t.status),
         p.createdAt.GetOr(t.createdAt))
  }

  /** The keys under which records are told apart. */
  function UserId(u: User): (id: nat) { u.id }
  function BoardId(b: Board): (id: nat) { b.id }
  function TaskId(t: Task): (id: nat) { t.id }

  // ===== Queries =====

  /** The conditions the queries filter by. */
  function OwnedBy(userId: nat): (p: Board -> bool) { (b: Board) => b.userId == userId }
  function OnBoard(boardId: nat): (p: Task -> bool) { (t: Task) => t.boardId == boardId }
  function OffBoard(boardId: nat): (p: Task -> bool) { (t: Task) => t.boardId != boardId }

  /** `users.find(u => u.email === email)`: the first user with exactly that email. */
  function FindUserByEmail(users: seq<User>, email: string): (r: Option<User>)
    ensures r.None? <==> forall i :: 0 <= i < |users| ==> users[i].email != email
    ensures r.Some? ==> exists i :: 0 <= i < |users| && users[i] == r.value && r.value.email == email &&
                                   forall j :: 0 <= j < i ==> users[j].email != email
  {
    Find(users, (u: User) => u.email == email)
  }

  /** `users.find(u => u.id === id)`, the lookup inside `findUserById`. */
  function UserById(users: seq<User>, id: nat): (r: Option<User>)
    ensures r.None? <==> forall i :: 0 <= i < |users| ==> users[i].id != id
    ensures r.Some? ==> exists i :: 0 <= i < |users| && users[i] == r.value && r.value.id == id &&
                                   forall j :: 0 <= j < i ==> users[j].id != id
  {
    Find(users, (u: User) => u.id == id)
  }

  /** `boards.filter(b => b.userId === userId)`: the user's boards in insertion order. */
  function GetBoardsByUserId(boards: seq<Board>, userId: nat): (r: seq<Board>)
    ensures |r| <= |boards|
    ensures forall i :: 0 <= i < |r| ==> r[i] in boards && r[i].userId == userId
    ensures forall i :: 0 <= i < |boards| && boards[i].userId == userId ==> boards[i] in r
  {
    Filter(boards, OwnedBy(userId))
  }

  /** `boards.find(b => b.id === id)`. */
  function FindBoardById(boards: seq<Board>, id: nat): (r: Option<Board>)
    ensures r.None? <==> forall i :: 0 <= i < |boards| ==> boards[i].id != id
    ensures r.Some? ==> exists i :: 0 <= i < |boards| && boards[i] == r.value && r.value.id == id &&
                                   forall j :: 0 <= j < i ==> boards[j].id != id
  {
    Find(boards, (b: Board) => b.id == id)
  }

  /** `boards.findIndex(b => b.id === id)`: where an update or delete of board `id` applies. */
  function BoardIndex(boards: seq<Board>, id: nat): (r: int)
    ensures r == -1 <==> forall i :: 0 <= i < |boards| ==> boards[i].id != id
    ensures 0 <= r ==> r < |boards| && boards[r].id == id && forall i :: 0 <= i < r ==> boards[i].id != id
  {
    FindIndex(boards, (b: Board) => b.id == id)
  }

  /** `tasks.filter(t => t.boardId === boardId)`: the board's tasks in insertion order. */
  function GetTasksByBoardId(tasks: seq<Task>, boardId: nat): (r: seq<Task>)
    ensures |r| <= |tasks|
    ensures forall i :: 0 <= i < |r| ==> r[i] in tasks && r[i].boardId == boardId
    ensures forall i :: 0 <= i < |tasks| && tasks[i].boardId == boardId ==> tasks[i] in r
  {
    Filter(tasks, OnBoard(boardId))
  }

  /** `tasks.filter(t => t.boardId !== boardId)`: what survives the deletion of board `boardId`. */
  function TasksOffBoard(tasks: seq<Task>, boardId: nat): (r: seq<Task>)
    ensures |r| <= |tasks|
    ensures forall i :: 0 <= i < |r| ==> r[i] in tasks && r[i].boardId != boardId
    ensures forall i :: 0 <= i < |tasks| && tasks[i].boardId != boardId ==> tasks[i] in r
  {
    Filter(tasks, OffBoard(boardId))
  }

  /** `tasks.find(t => t.id === id)`. */
  function FindTaskById(tasks: seq<Task>, id: nat): (r: Option<Task>)
    ensures r.None? <==> forall i :: 0 <= i < |tasks| ==> tasks[i].id != id
    ensures r.Some? ==> exists i :: 0 <= i < |tasks| && tasks[i] == r.value && r.value.id == id &&
                                   forall j :: 0 <= j < i ==> tasks[j].id != id
  {
    Find(tasks, (t: Task) => t.id == id)
  }

  /** `tasks.findIndex(t => t.id === id)`. */
  function TaskIndex(tasks: seq<Task>, id: nat): (r: int)
    ensures r == -1 <==> forall i :: 0 <= i < |tasks| ==> tasks[i].id != id
    ensures 0 <= r ==> r < |tasks| && tasks[r].id == id && forall i :: 0 <= i < r ==> tasks[i].id != id
  {
    FindIndex(tasks, (t: Task) => t.id == id)
  }

  /** The queries keep insertion order: a record pushed at the end of its list shows up at the
      end of every query result it matches, and in no other. */
  lemma BoardsByUserAfterPush(boards: seq<Board>, b: Board, userId: nat)
    ensures GetBoardsByUserId(boards + [b], userId)
            == GetBoardsByUserId(boards, userId) + (if b.userId == userId then [b] else [])
  {
    FilterConcat(boards, [b], OwnedBy(userId));
  }

  lemma TasksByBoardAfterPush(tasks: seq<Task>, t: Task, boardId: nat)
    ensures GetTasksByBoardId(tasks + [t], boardId)
            == GetTasksByBoardId(tasks, boardId) + (if t.boardId == boardId then [t] else [])
  {
    FilterConcat(tasks, [t], OnBoard(boardId));
  }

  lemma TasksOffBoardAfterPush(tasks: seq<Task>, t: Task, boardId: nat)
    ensures TasksOffBoard(tasks + [t], boardId)
            == TasksOffBoard(tasks, boardId) + (if t.boardId != boardId then [t] else [])
  {
    FilterConcat(tasks, [t], OffBoard(boardId));
  }

  // ===== Invariant: ids =====

  /** Every id in the store is below the counter, and no id is used twice, within a list or
      across the three lists. */
  predicate IdsValid(d: DBData) {
    && (forall u <- d.users :: u.id < d.nextId)
    && (forall b <- d.boards :: b.id < d.nextId)
    && (forall t <- d.tasks :: t.id < d.nextId)
    && DistinctKeys(d.users, UserId)
    && DistinctKeys(d.boards, BoardId)
    && DistinctKeys(d.tasks, TaskId)
    && (forall u <- d.users, b <- d.boards :: u.id != b.id)
    && (forall u <- d.users, t <- d.tasks :: u.id != t.id)
    && (forall b <- d.boards, t <- d.tasks :: b.id != t.id)
  }

  /** The state the store starts from when there is no readable durable file. */
  const Empty := DBData([], [], [], 1)

  lemma EmptyIdsValid()
    ensures IdsValid(Empty)
  {
  }

  /** Appending a user, board or task that takes the counter's value as its id and advancing
      the counter keeps ids valid; the new id exceeds every id already stored. */
  lemma PushUserKeepsIds(d: DBData, u: User)
    requires IdsValid(d) && u.id == d.nextId
    ensures IdsValid(d.(users := d.users + [u], nextId := d.nextId + 1))
    ensures forall v <- d.users :: v.id < u.id
  {
  }

  lemma PushBoardKeepsIds(d: DBData, b: Board)
    requires IdsValid(d) && b.id == d.nextId
    ensures IdsValid(d.(boards := d.boards + [b], nextId := d.nextId + 1))
    ensures forall c <- d.boards :: c.id < b.id
  {
  }

  lemma PushTaskKeepsIds(d: DBData, t: Task)
    requires IdsValid(d) && t.id == d.nextId
    ensures IdsValid(d.(tasks := d.tasks + [t], nextId := d.nextId + 1))
    ensures forall s <- d.tasks :: s.id < t.id
  {
  }

  /** Replacing a board by one with the same id keeps ids valid. */
  lemma ReplaceBoardKeepsIds(d: DBData, i: nat, b: Board)
    requires IdsValid(d) && i < |d.boards| && b.id == d.boards[i].id
    ensures IdsValid(d.(boards := d.boards[i := b]))
  {
    var bs := d.boards[i := b];
    assert forall c <- bs :: c == b || c in d.boards;
  }

  lemma ReplaceTaskKeepsIds(d: DBData, i: nat, t: Task)
    requires IdsValid(d) && i < |d.tasks| && t.id == d.tasks[i].id
    ensures IdsValid(d.(tasks := d.tasks[i := t]))
  {
    var ts := d.tasks[i := t];
    assert forall s <- ts :: s == t || s in d.tasks;
  }

  /** Removing a board together with every task of some board keeps ids valid. */
  lemma RemoveBoardKeepsIds(d: DBData, i: nat, id: nat)
    requires IdsValid(d) && i < |d.boards|
    ensures IdsValid(d.(boards := RemoveAt(d.boards, i), tasks := TasksOffBoard(d.tasks, id)))
  {
    DistinctRemoveAt(d.boards, i, BoardId);
    DistinctFilter(d.tasks, TaskId, OffBoard(id));
  }

  lemma RemoveTaskKeepsIds(d: DBData, i: nat)
    requires IdsValid(d) && i < |d.tasks|
    ensures IdsValid(d.(tasks := RemoveAt(d.tasks, i)))
  {
    DistinctRemoveAt(d.tasks, i, TaskId);
  }

  /** The merge does not itself protect a board's id: a patch naming another board's id leaves
      two boards with one id. */
  lemma UpdateCanDuplicateBoardIds()
    ensures var d := DBData([], [Board(1, "A", None, 1, "t"), Board(2, "B", None, 1, "t")], [], 3);
            var p := NoBoardChange.(id := Some(2));
            IdsValid(d) && !IdsValid(d.(boards := d.boards[0 := MergeBoard(d.boards[0], p)]))
  {
    var d := DBData([], [Board(1, "A", None, 1, "t"), Board(2, "B", None, 1, "t")], [], 3);
    var bs := d.boards[0 := MergeBoard(d.boards[0], NoBoardChange.(id := Some(2)))];
    assert BoardId(bs[0]) == BoardId(bs[1]);
  }

  /** Likewise for tasks: a patch naming another task's id leaves two tasks with one id. */
  lemma UpdateCanDuplicateTaskIds()
    ensures var d := DBData([], [], [Task(1, "A", None, 9, None, Pending, "t"),
                                     Task(2, "B", None, 9, None, Pending, "t")], 3);
            var p := NoTaskChange.(id := Some(2));
            IdsValid(d) && !IdsValid(d.(tasks := d.tasks[0 := MergeTask(d.tasks[0], p)]))
  {
    var d := DBData([], [], [Task(1, "A", None, 9, None, Pending, "t"),
                             Task(2, "B", None, 9, None, Pending, "t")], 3);
    var ts := d.tasks[0 := MergeTask(d.tasks[0], NoTaskChange.(id := Some(2)))];
    assert TaskId(ts[0]) == TaskId(ts[1]);
  }

  // ===== Merge =====

  /** Fields a patch does not supply keep their value: in particular, a patch that leaves
      `id`, `userId` and `createdAt` unset cannot touch them. */
  lemma MergeBoardKeepsUnset(b: Board, p: BoardPatch)
    ensures p.id.None? ==> MergeBoard(b, p).id == b.id
    ensures p.userId.None? ==> MergeBoard(b, p).userId == b.userId
    ensures p.createdAt.None? ==> MergeBoard(b, p).createdAt == b.createdAt
    ensures MergeBoard(b, NoBoardChange) == b
    ensures MergeBoard(MergeBoard(b, p), p) == MergeBoard(b, p)
  {
  }

  lemma MergeTaskKeepsUnset(t: Task, p: TaskPatch)
    ensures p.id.None? ==> MergeTask(t, p).id == t.id
    ensures p.boardId.None? ==> MergeTask(t, p).boardId == t.boardId
    ensures p.createdAt.None? ==> MergeTask(t, p).createdAt == t.createdAt
    ensures MergeTask(t, NoTaskChange) == t
    ensures MergeTask(MergeTask(t, p), p) == MergeTask(t, p)
  {
  }

  // ===== Cascade on board deletion =====

  /** After the cascade no task refers to the deleted board. */
  lemma {:induction false} CascadeLeavesNoTask(tasks: seq<Task>, id: nat)
    ensures GetTasksByBoardId(TasksOffBoard(tasks, id), id) == []
  {
    var rest := TasksOffBoard(tasks, id);
    FilterExtremes(rest, OnBoard(id));
  }

  /** The cascade leaves the task list of every other board exactly as it was, order included. */
  lemma {:induction false} CascadeKeepsOtherBoards(tasks: seq<Task>, id: nat, other: nat)
    requires other != id
    ensures GetTasksByBoardId(TasksOffBoard(tasks, id), other) == GetTasksByBoardId(tasks, other)
  {
    FilterFilter(tasks, OffBoard(id), OnBoard(other), OnBoard(other));
  }

  // ===== Demo seeding =====

  /** The two demo boards, taking ids `first` and `first + 1`. */
  function DemoBoards(userId: nat, first: nat, now: string): (boards: seq<Board>) {
    [Board(first, "Project Alpha", Some("Demo project board"), userId, now),
     Board(first + 1, "Project Beta", Some("Second demo board"), userId, now)]
  }

  /** The two demo tasks, one under each demo board, taking ids `first + 2` and `first + 3`. */
  function DemoTasks(first: nat, now: string): (tasks: seq<Task>) {
    [Task(first + 2, "Initial setup", Some("Install dependencies"), first, None, Pending, now),
     Task(first + 3, "Design mockups", Some("UI/UX design"), first + 1, None, Pending, now)]
  }

  /** The state after seeding demo data for `userId`: nothing changes for a user who owns a
      board; otherwise two demo boards and a pending task under each are appended. */
  function Seeded(d: DBData, userId: nat, now: string): (r: DBData)
    ensures r.users == d.users
    ensures GetBoardsByUserId(r.boards, userId) != []
    ensures GetBoardsByUserId(d.boards, userId) != [] ==> r == d
    ensures r.nextId == d.nextId || r.nextId == d.nextId + 4
  {
    if |GetBoardsByUserId(d.boards, userId)| > 0 then d
    else
      var bs := d.boards + DemoBoards(userId, d.nextId, now);
      assert bs[|d.boards|] in GetBoardsByUserId(bs, userId);
      DBData(d.users, bs, d.tasks + DemoTasks(d.nextId, now), d.nextId + 4)
  }

  /** Seeding twice is seeding once. */
  lemma SeedIdempotent(d: DBData, userId: nat, now: string, later: string)
    ensures Seeded(Seeded(d, userId, now), userId, later) == Seeded(d, userId, now)
  {
  }

  /** A demo board holds exactly its one demo task when no earlier task pointed at its id. */
  lemma DemoTaskUnderDemoBoard(tasks: seq<Task>, first: nat, now: string, which: nat)
    requires which < 2
    requires forall t <- tasks :: t.boardId < first
    ensures GetTasksByBoardId(tasks + DemoTasks(first, now), first + which) == [DemoTasks(first, now)[which]]
  {
    var demo := DemoTasks(first, now);
    var p := OnBoard(first + which);
    forall i | 0 <= i < |tasks| ensures !p(tasks[i]) {
      assert tasks[i] in tasks;
    }
    FilterExtremes(tasks, p);
    FilterConcat(tasks, demo, p);
    assert demo[1..] == [demo[1]] && demo[1..][1..] == [];
    assert Filter(demo, p) == [demo[which]];
  }

  /** A user without boards ends up owning exactly the two demo boards. */
  lemma SeedOwnsDemoBoards(d: DBData, userId: nat, now: string)
    requires GetBoardsByUserId(d.boards, userId) == []
    ensures GetBoardsByUserId(Seeded(d, userId, now).boards, userId) == DemoBoards(userId, d.nextId, now)
  {
    var demo := DemoBoards(userId, d.nextId, now);
    var p := OwnedBy(userId);
    FilterConcat(d.boards, demo, p);
    assert demo[1..] == [demo[1]] && demo[1..][1..] == [];
    assert Filter(demo, p) == demo;
  }

  /** ... and each demo board holds exactly its one pending demo task whenever no earlier task
      pointed at those fresh ids. */
  lemma SeedGivesTwoBoards(d: DBData, userId: nat, now: string)
    requires GetBoardsByUserId(d.boards, userId) == []
    requires forall t <- d.tasks :: t.boardId < d.nextId
    ensures var r := Seeded(d, userId, now);
            && GetBoardsByUserId(r.boards, userId) == DemoBoards(userId, d.nextId, now)
            && GetTasksByBoardId(r.tasks, d.nextId) == [DemoTasks(d.nextId, now)[0]]
            && GetTasksByBoardId(r.tasks, d.nextId + 1) == [DemoTasks(d.nextId, now)[1]]
  {
    SeedOwnsDemoBoards(d, userId, now);
    assert Seeded(d, userId, now).tasks == d.tasks + DemoTasks(d.nextId, now);
    DemoTaskUnderDemoBoard(d.tasks, d.nextId, now, 0);
    DemoTaskUnderDemoBoard(d.tasks, d.nextId, now, 1);
  }

  /** Seeding keeps ids valid. */
  lemma SeedKeepsIds(d: DBData, userId: nat, now: string)
    requires IdsValid(d)
    ensures IdsValid(Seeded(d, userId, now))
  {
    if |GetBoardsByUserId(d.boards, userId)| == 0 {
      var bs := DemoBoards(userId, d.nextId, now);
      var ts := DemoTasks(d.nextId, now);
      var d1 := d.(boards := d.boards + [bs[0]], nextId := d.nextId + 1);
      PushBoardKeepsIds(d, bs[0]);
      var d2 := d1.(boards := d1.boards + [bs[1]], nextId := d1.nextId + 1);
      PushBoardKeepsIds(d1, bs[1]);
      var d3 := d2.(tasks := d2.tasks + [ts[0]], nextId := d2.nextId + 1);
      PushTaskKeepsIds(d2, ts[0]);
      PushTaskKeepsIds(d3, ts[1]);
      assert d2.boards == d.boards + bs;
      assert d3.(tasks := d3.tasks + [ts[1]], nextId := d3.nextId + 1).tasks == d.tasks + ts;
    }
  }

  /** A registered user (id 1) seeded on an otherwise empty store gets boards 2 and 3 and
      tasks 4 (on board 2) and 5 (on board 3); deleting board 2 then leaves board 3 and task 5. */
  lemma SeedScenario(u: User, now: string)
    requires u.id == 1
    ensures var r := Seeded(DBData([u], [], [], 2), 1, now);
            && r.boards == [Board(2, "Project Alpha", Some("Demo project board"), 1, now),
                            Board(3, "Project Beta", Some("Second demo board"), 1, now)]
            && r.tasks == [Task(4, "Initial setup", Some("Install dependencies"), 2, None, Pending, now),
                           Task(5, "Design mockups", Some("UI/UX design"), 3, None, Pending, now)]
            && r.nextId == 6
            && BoardIndex(r.boards, 2) == 0
            && RemoveAt(r.boards, 0) == [r.boards[1]]
            && TasksOffBoard(r.tasks, 2) == [r.tasks[1]]
  {
    var r := Seeded(DBData([u], [], [], 2), 1, now);
    assert r.tasks[1..][1..] == [];
  }

  // ===== The store =====

  /** The store object. All state sits in `data`; every change is written through to the
      durable file, which this model does not represent. */
  class Database {
    var data: DBData

    ghost predicate Valid()
      reads this
    {
      IdsValid(data)
    }

    /** Start from the empty dataset with the counter at 1, as when no durable file can be read. */
    constructor ()
      ensures data == Empty
      ensures Valid()
    {
      data := Empty;
    }

    /** Hand out the counter's value and advance the counter by one. */
    method GenerateId() returns (id: nat)
      modifies this
      ensures id == old(data.nextId)
      ensures data == old(data).(nextId := id + 1)
      ensures old(Valid()) ==> Valid()
    {
      id := data.nextId;
      data := data.(nextId := data.nextId + 1);
    }

    method CreateUser(fields: UserFields) returns (user: User)
      modifies this
      ensures user == User(old(data.nextId), fields.email, fields.password, fields.name, fields.createdAt)
      ensures data == old(data).(users := old(data.users) + [user], nextId := old(data.nextId) + 1)
      ensures old(Valid()) ==> Valid()
    {
      ghost var before := data;
      var id := GenerateId();
      user := User(id, fields.email, fields.password, fields.name, fields.createdAt);
      data := data.(users := data.users + [user]);
      if IdsValid(before) {
        PushUserKeepsIds(before, user);
      }
    }

    /** Look a user up by id; a user found without boards gets the demo data on the way. */
    method FindUserById(id: nat, now: string) returns (user: Option<User>)
      modifies this
      ensures user == UserById(old(data.users), id)
      ensures data == if user.Some? then Seeded(old(data), id, now) else old(data)
      ensures user.Some? ==> GetBoardsByUserId(data.boards, id) != []
      ensures old(Valid()) ==> Valid()
    {
      user := UserById(data.users, id);
      if user.Some? {
        if |GetBoardsByUserId(data.boards, user.value.id)| == 0 {
          SeedDemoData(user.value.id, now);
        }
      }
    }

    method CreateBoard(fields: BoardFields, now: string) returns (board: Board)
      modifies this
      ensures board == Board(old(data.nextId), fields.name, fields.description, fields.userId, now)
      ensures data == old(data).(boards := old(data.boards) + [board], nextId := old(data.nextId) + 1)
      ensures GetBoardsByUserId(data.boards, fields.userId)
              == GetBoardsByUserId(old(data.boards), fields.userId) + [board]
      ensures forall u :: u != fields.userId ==>
                GetBoardsByUserId(data.boards, u) == GetBoardsByUserId(old(data.boards), u)
      ensures old(Valid()) ==> Valid()
    {
      ghost var before := data;
      var id := GenerateId();
      board := Board(id, fields.name, fields.description, fields.userId, now);
      data := data.(boards := data.boards + [board]);
      forall u ensures GetBoardsByUserId(data.boards, u)
                       == GetBoardsByUserId(before.boards, u) + (if u == fields.userId then [board] else []) {
        BoardsByUserAfterPush(before.boards, board, u);
      }
      if IdsValid(before) {
        PushBoardKeepsIds(before, board);
      }
    }

    /** Merge `patch` into the first board with id `id` and return the result, or report that
        no board has that id and change nothing. */
    method UpdateBoard(id: nat, patch: BoardPatch) returns (updated: Option<Board>)
      modifies this
      ensures var i := BoardIndex(old(data.boards), id);
              if i < 0 then updated == None && data == old(data)
              else updated == Some(MergeBoard(old(data.boards)[i], patch))
                   && data == old(data).(boards := old(data.boards)[i := updated.value])
      ensures old(Valid()) && (patch.id.None? || patch.id == Some(id)) ==> Valid()
    {
      var idx := BoardIndex(data.boards, id);
      if idx != -1 {
        ghost var before := data;
        var merged := MergeBoard(data.boards[idx], patch);
        data := data.(boards := data.boards[idx := merged]);
        updated := Some(merged);
        if IdsValid(before) && (patch.id.None? || patch.id == Some(id)) {
          ReplaceBoardKeepsIds(before, idx, merged);
        }
      } else {
        updated := None;
      }
    }

    /** Remove the first board with id `id` and every task of board `id`, reporting whether
        such a board existed; when none did, nothing changes. */
    method DeleteBoard(id: nat) returns (found: bool)
      modifies this
      ensures var i := BoardIndex(old(data.boards), id);
              && found == (0 <= i)
              && data == if found
                         then old(data).(boards := RemoveAt(old(data.boards), i),
                                         tasks := TasksOffBoard(old(data.tasks), id))
                         else old(data)
      ensures found ==> GetTasksByBoardId(data.tasks, id) == []
      ensures forall other :: other != id ==>
                GetTasksByBoardId(data.tasks, other) == GetTasksByBoardId(old(data.tasks), other)
      ensures old(Valid()) ==> Valid()
    {
      var idx := BoardIndex(data.boards, id);
      if idx != -1 {
        ghost var before := data;
        data := data.(boards := RemoveAt(data.boards, idx));
        data := data.(tasks := TasksOffBoard(data.tasks, id));
        found := true;
        CascadeLeavesNoTask(before.tasks, id);
        forall other | other != id
          ensures GetTasksByBoardId(data.tasks, other) == GetTasksByBoardId(before.tasks, other)
        {
          CascadeKeepsOtherBoards(before.tasks, id, other);
        }
        if IdsValid(before) {
          RemoveBoardKeepsIds(before, idx, id);
        }
      } else {
        found := false;
      }
    }

    /** Create a task; whatever the caller wanted, a new task is pending. */
    method CreateTask(fields: TaskFields, now: string) returns (task: Task)
      modifies this
      ensures task.status == Pending
      ensures task == Task(old(data.nextId), fields.title, fields.description, fields.boardId,
                           fields.dueDate, Pending, now)
      ensures data == old(data).(tasks := old(data.tasks) + [task], nextId := old(data.nextId) + 1)
      ensures GetTasksByBoardId(data.tasks, fields.boardId)
              == GetTasksByBoardId(old(data.tasks), fields.boardId) + [task]
      ensures forall k :: k != fields.boardId ==>
                GetTasksByBoardId(data.tasks, k) == GetTasksByBoardId(old(data.tasks), k)
      ensures old(Valid()) ==> Valid()
    {
      ghost var before := data;
      var id := GenerateId();
      task := Task(id, fields.title, fields.description, fields.boardId, fields.dueDate, Pending, now);
      data := data.(tasks := data.tasks + [task]);
      forall k ensures GetTasksByBoardId(data.tasks, k)
                       == GetTasksByBoardId(before.tasks, k) + (if k == fields.boardId then [task] else []) {
        TasksByBoardAfterPush(before.tasks, task, k);
      }
      if IdsValid(before) {
        PushTaskKeepsIds(before, task);
      }
    }

    /** Merge `patch` into the first task with id `id` and return the result, or report that no
        task has that id and change nothing. */
    method UpdateTask(id: nat, patch: TaskPatch) returns (updated: Option<Task>)
      modifies this
      ensures var i := TaskIndex(old(data.tasks), id);
              if i < 0 then updated == None && data == old(data)
              else updated == Some(MergeTask(old(data.tasks)[i], patch))
                   && data == old(data).(tasks := old(data.tasks)[i := updated.value])
      ensures old(Valid()) && (patch.id.None? || patch.id == Some(id)) ==> Valid()
    {
      var idx := TaskIndex(data.tasks, id);
      if idx != -1 {
        ghost var before := data;
        var merged := MergeTask(data.tasks[idx], patch);
        data := data.(tasks := data.tasks[idx := merged]);
        updated := Some(merged);
        if IdsValid(before) && (patch.id.None? || patch.id == Some(id)) {
          ReplaceTaskKeepsIds(before, idx, merged);
        }
      } else {
        updated := None;
      }
    }

    /** Remove the first task with id `id`, reporting whether there was one. */
    method DeleteTask(id: nat) returns (found: bool)
      modifies this
      ensures var i := TaskIndex(old(data.tasks), id);
              && found == (0 <= i)
              && data == if found then old(data).(tasks := RemoveAt(old(data.tasks), i)) else old(data)
      ensures old(Valid()) ==> Valid()
    {
      var idx := TaskIndex(data.tasks, id);
      if idx != -1 {
        ghost var before := data;
        data := data.(tasks := RemoveAt(data.tasks, idx));
        found := true;
        if IdsValid(before) {
          RemoveTaskKeepsIds(before, idx);
        }
      } else {
        found := false;
      }
    }

    /** Give a user without boards the demo boards and tasks, through the ordinary creation
        operations; a user who owns a board is left alone. */
    method SeedDemoData(userId: nat, now: string)
      modifies this
      ensures data == Seeded(old(data), userId, now)
      ensures old(Valid()) ==> Valid()
    {
      if |GetBoardsByUserId(data.boards, userId)| > 0 {
        return;
      }
      ghost var before := data;
      var board1 := CreateBoard(BoardFields("Project Alpha", Some("Demo project board"), userId), now);
      var board2 := CreateBoard(BoardFields("Project Beta", Some("Second demo board"), userId), now);
      var task1 := CreateTask(TaskFields("Initial setup", Some("Install dependencies"), board1.id, None), now);
      var task2 := CreateTask(TaskFields("Design mockups", Some("UI/UX design"), board2.id, None), now);
      ghost var demoBoards := DemoBoards(userId, before.nextId, now);
      ghost var demoTasks := DemoTasks(before.nextId, now);
      assert board1 == demoBoards[0] && board2 == demoBoards[1];
      assert task1 == demoTasks[0] && task2 == demoTasks[1];
      assert data.boards == before.boards + [board1] + [board2] == before.boards + demoBoards;
      assert data.tasks == before.tasks + [task1] + [task2] == before.tasks + demoTasks;
      assert data.nextId == before.nextId + 4 && data.users == before.users;
    }
  }
}
