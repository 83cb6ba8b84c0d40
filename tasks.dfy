/**
 * The SQLite task store: the `projects`, `users` and `tasks` tables, the joined row that
 * both indexers read, and the insert that the two task-creation tools perform.
 */
module Tasks {

  import opened Wrappers

  datatype Project = Project(id: int, name: string)

  datatype User = User(id: int, name: string, email: string)

  /** A row of `tasks` without its timestamps; NULL columns are `None`. */
  datatype Task = Task(
    title: string,
    description: Option<string>,
    status: string,
    priority: string,
    dueDate: Option<string>,
    projectId: Option<int>,
    assigneeId: Option<int>)

  /**
   * The database. `projects` and `users` are listed in table (rowid) order, which is the
   * order a full scan returns them in. `nextId` is the AUTOINCREMENT counter: the id the
   * next inserted task receives.
   */
  datatype Db = Db(projects: seq<Project>, users: seq<User>, tasks: map<int, Task>, nextId: int)

  /** The CHECK constraints on `tasks.status` and `tasks.priority`. */
  const Statuses: set<string> := {"To Do", "In Progress", "Done"}
  const Priorities: set<string> := {"Low", "Medium", "High"}

  /**
   * AUTOINCREMENT ids start at 1 and every existing id is below the counter; `projects.id`
   * and `users.id` are primary keys.
   */
  ghost predicate Valid(db: Db) {
    && db.nextId >= 1
    && (forall id :: id in db.tasks ==> 1 <= id < db.nextId)
    && (forall j, k :: 0 <= j < k < |db.projects| ==> db.projects[j].id != db.projects[k].id)
    && (forall j, k :: 0 <= j < k < |db.users| ==> db.users[j].id != db.users[k].id)
  }

  /**
   * One row of `SELECT t.id, t.title, ..., p.name AS project_name, u.name AS assignee_name
   * FROM tasks t LEFT JOIN projects p ... LEFT JOIN users u ...`.
   */
  datatype Row = Row(
    id: int,
    title: string,
    description: Option<string>,
    status: string,
    priority: string,
    dueDate: Option<string>,
    projectName: Option<string>,
    assigneeName: Option<string>)

  /** The name a LEFT JOIN on `projects.id` finds: NULL for a NULL key or no matching project. */
  function ProjectName(projects: seq<Project>, id: Option<int>): (r: Option<string>)
    ensures r.Some? <==> id.Some? && exists k :: 0 <= k < |projects| && projects[k].id == id.value
    ensures r.Some? ==> exists k :: 0 <= k < |projects| && projects[k].id == id.value && projects[k].name == r.value
  {
    if id.None? || projects == [] then None
    else if projects[0].id == id.value then Some(projects[0].name)
    else ProjectName(projects[1..], id)
  }

  /** The name a LEFT JOIN on `users.id` finds. */
  function UserName(users: seq<User>, id: Option<int>): (r: Option<string>)
    ensures r.Some? <==> id.Some? && exists k :: 0 <= k < |users| && users[k].id == id.value
    ensures r.Some? ==> exists k :: 0 <= k < |users| && users[k].id == id.value && users[k].name == r.value
  {
    if id.None? || users == [] then None
    else if users[0].id == id.value then Some(users[0].name)
    else UserName(users[1..], id)
  }

  /** The joined row of task `id`. */
  function JoinRow(db: Db, id: int): (r: Row)
    requires id in db.tasks
    ensures r.id == id && r.title == db.tasks[id].title && r.status == db.tasks[id].status
  {
    var t := db.tasks[id];
    Row(id, t.title, t.description, t.status, t.priority, t.dueDate,
        ProjectName(db.projects, t.projectId), UserName(db.users, t.assigneeId))
  }

  /** The outcome of an INSERT into `tasks`. */
  datatype InsertResult = Inserted(db: Db, id: int) | Rejected(error: string)

  /** The message SQLite attaches to the CHECK violation (status is checked before priority). */
  function ConstraintError(t: Task): string {
    if t.status !in Statuses then "CHECK constraint failed: status IN ('To Do', 'In Progress', 'Done')"
    else "CHECK constraint failed: priority IN ('Low', 'Medium', 'High')"
  }

  /**
   * `INSERT INTO tasks (...) VALUES (...)` followed by `commit()` and `lastrowid`.
   * Foreign keys are not enforced (the connection never enables them), so only the CHECK
   * constraints can refuse the row.
   */
  function Insert(db: Db, t: Task): (r: InsertResult)
    requires Valid(db)
    ensures r.Inserted? <==> t.status in Statuses && t.priority in Priorities
    ensures r.Inserted? ==>
      && r.id !in db.tasks
      && r.db.tasks == db.tasks[r.id := t]
      && |r.db.tasks| == |db.tasks| + 1
      && r.db.projects == db.projects && r.db.users == db.users
      && Valid(r.db)
    ensures r.Rejected? ==> r.error == ConstraintError(t)
  {
    if t.status in Statuses && t.priority in Priorities then
      Inserted(Db(db.projects, db.users, db.tasks[db.nextId := t], db.nextId + 1), db.nextId)
    else
      Rejected(ConstraintError(t))
  }

  /** Inserting a task leaves the joined row of every other task as it was. */
  lemma InsertKeepsOtherRows(db: Db, t: Task, other: int)
    requires Valid(db) && Insert(db, t).Inserted? && other in db.tasks
    ensures other in Insert(db, t).db.tasks
    ensures JoinRow(Insert(db, t).db, other) == JoinRow(db, other)
  {
  }
}
