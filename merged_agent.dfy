/**
 * The task tools of the conversational agent (merged_agent.py): the name lookups, the
 * `AddTask` tool that inserts a task and notifies the index worker, the `ListUsers` tool,
 * and the guard in front of the agent executor.
 */
module MergedAgent {

  import opened Wrappers
  import opened Text
  import opened Tasks
  import opened MemoryManager

  // ---------------------------------------------------------------------------
  // Lookups
  // ---------------------------------------------------------------------------

  /** `SELECT id FROM projects WHERE name = ?` with `fetchone()`: the first project of that exact name. */
  function ProjectIdByName(projects: seq<Project>, name: string): (r: Option<int>)
    ensures r.None? <==> forall k :: 0 <= k < |projects| ==> projects[k].name != name
    ensures r.Some? ==> exists k :: 0 <= k < |projects| && projects[k].name == name && projects[k].id == r.value
                           && forall j :: 0 <= j < k ==> projects[j].name != name
  {
    if projects == [] then None
    else if projects[0].name == name then Some(projects[0].id)
    else
      var r := ProjectIdByName(projects[1..], name);
      assert r.Some? ==> exists k :: 0 < k < |projects| && projects[k].name == name && projects[k].id == r.value
                           && forall j :: 0 <= j < k ==> projects[j].name != name by {
        if r.Some? {
          var k :| 0 <= k < |projects[1..]| && projects[1..][k].name == name && projects[1..][k].id == r.value
                   && forall j :: 0 <= j < k ==> projects[1..][j].name != name;
          assert projects[k + 1] == projects[1..][k];
          forall j | 0 < j < k + 1 ensures projects[j].name != name {
            assert projects[j] == projects[1..][j - 1];
          }
        }
      }
      r
  }

  /**
   * `SELECT id FROM users WHERE name LIKE '%<needle>%'` with `fetchone()`: the first user
   * whose name contains `needle` (LIKE's wildcards and case folding are not modelled).
   */
  function UserIdByName(users: seq<User>, needle: string): (r: Option<int>)
    ensures r.None? <==> forall k :: 0 <= k < |users| ==> !Contains(users[k].name, needle)
    ensures r.Some? ==> exists k :: 0 <= k < |users| && Contains(users[k].name, needle) && users[k].id == r.value
                           && forall j :: 0 <= j < k ==> !Contains(users[j].name, needle)
  {
    if users == [] then None
    else if Contains(users[0].name, needle) then Some(users[0].id)
    else
      var r := UserIdByName(users[1..], needle);
      assert r.Some? ==> exists k :: 0 < k < |users| && Contains(users[k].name, needle) && users[k].id == r.value
                           && forall j :: 0 <= j < k ==> !Contains(users[j].name, needle) by {
        if r.Some? {
          var k :| 0 <= k < |users[1..]| && Contains(users[1..][k].name, needle) && users[1..][k].id == r.value
                   && forall j :: 0 <= j < k ==> !Contains(users[1..][j].name, needle);
          assert users[k + 1] == users[1..][k];
          forall j | 0 < j < k + 1 ensures !Contains(users[j].name, needle) {
            assert users[j] == users[1..][j - 1];
          }
        }
      }
      r
  }

  /** Python's `not x` on a looked-up id: no row, or the id 0. */
  predicate Falsy(id: Option<int>) {
    id.None? || id.value == 0
  }

  // ---------------------------------------------------------------------------
  // The AddTask tool
  // ---------------------------------------------------------------------------

  /** The reply, the database afterwards, and the id of the inserted task if there is one. */
  datatype AddOutcome = AddOutcome(reply: string, db: Db, added: Option<int>)

  function ProjectNotFound(projectName: string): string {
    "Error: Project '" + projectName + "' not found."
  }

  function UserNotFound(assigneeName: string): string {
    "Error: User '" + assigneeName + "' not found."
  }

  function AddedReply(title: string, id: int, projectName: string, assigneeName: string): string {
    "Successfully added new task '" + title + "' with ID " + IntToString(id) + " to project '"
      + projectName + "', assigned to " + assigneeName + "."
  }

  /** The row `add_task` inserts: no due date, the given description, status and priority. */
  function NewTask(title: string, description: string, status: string, priority: string, projectId: int, assigneeId: int): Task {
    Task(title, Some(description), status, priority, None, Some(projectId), Some(assigneeId))
  }

  /**
   * `add_task`: the project is looked up first and the user only when the project exists;
   * a failed lookup or a refused insert leaves the database as it was and adds nothing.
   */
  function AddTaskOutcome(db: Db, title: string, projectName: string, assigneeName: string,
                          description: string := "", priority: string := "Medium", status: string := "To Do"): (o: AddOutcome)
    requires Valid(db)
    ensures Valid(o.db)
    ensures o.added.None? ==> o.db == db
    ensures Falsy(ProjectIdByName(db.projects, projectName)) ==> o.reply == ProjectNotFound(projectName) && o.added.None?
    ensures !Falsy(ProjectIdByName(db.projects, projectName)) && Falsy(UserIdByName(db.users, assigneeName)) ==>
      o.reply == UserNotFound(assigneeName) && o.added.None?
    ensures !Falsy(ProjectIdByName(db.projects, projectName)) && !Falsy(UserIdByName(db.users, assigneeName)) && o.added.None? ==>
      o.reply == "Error adding task: " + ConstraintError(NewTask(title, description, status, priority,
                                                                 ProjectIdByName(db.projects, projectName).value,
                                                                 UserIdByName(db.users, assigneeName).value))
    ensures o.added.Some? <==>
      && !Falsy(ProjectIdByName(db.projects, projectName))
      && !Falsy(UserIdByName(db.users, assigneeName))
      && status in Statuses && priority in Priorities
    ensures o.added.Some? ==>
      var id := o.added.value;
      && id !in db.tasks
      && o.db.tasks == db.tasks[id := NewTask(title, description, status, priority,
                                              ProjectIdByName(db.projects, projectName).value,
                                              UserIdByName(db.users, assigneeName).value)]
      && o.db.projects == db.projects && o.db.users == db.users
      && o.reply == AddedReply(title, id, projectName, assigneeName)
  {
    var projectId := ProjectIdByName(db.projects, projectName);
    if Falsy(projectId) then AddOutcome(ProjectNotFound(projectName), db, None)
    else
      var assigneeId := UserIdByName(db.users, assigneeName);
      if Falsy(assigneeId) then AddOutcome(UserNotFound(assigneeName), db, None)
      else
        match Insert(db, NewTask(title, description, status, priority, projectId.value, assigneeId.value))
        case Rejected(e) => AddOutcome("Error adding task: " + e, db, None)
        case Inserted(db', id) => AddOutcome(AddedReply(title, id, projectName, assigneeName), db', Some(id))
  }

  /** When the project is unknown the users table plays no part in the outcome. */
  lemma ProjectCheckedFirst(db: Db, users: seq<User>, title: string, projectName: string, assigneeName: string,
                            description: string, priority: string, status: string)
    requires Valid(db) && Valid(db.(users := users))
    requires Falsy(ProjectIdByName(db.projects, projectName))
    ensures AddTaskOutcome(db.(users := users), title, projectName, assigneeName, description, priority, status).reply
         == AddTaskOutcome(db, title, projectName, assigneeName, description, priority, status).reply
  {
  }

  /**
   * The inserted task, read back through the LEFT JOIN, names the requested project and an
   * assignee whose name contains the requested one.
   */
  lemma {:induction false} AddedTaskRow(db: Db, title: string, projectName: string, assigneeName: string,
                                         description: string, priority: string, status: string)
    requires Valid(db)
    requires AddTaskOutcome(db, title, projectName, assigneeName, description, priority, status).added.Some?
    ensures var o := AddTaskOutcome(db, title, projectName, assigneeName, description, priority, status);
      var row := JoinRow(o.db, o.added.value);
      && row.title == title && row.description == Some(description)
      && row.status == status && row.priority == priority && row.dueDate.None?
      && row.projectName == Some(projectName)
      && row.assigneeName.Some? && Contains(row.assigneeName.value, assigneeName)
  {
    var o := AddTaskOutcome(db, title, projectName, assigneeName, description, priority, status);
    var pid := ProjectIdByName(db.projects, projectName).value;
    var uid := UserIdByName(db.users, assigneeName).value;
    var p :| 0 <= p < |db.projects| && db.projects[p].name == projectName && db.projects[p].id == pid;
    var u :| 0 <= u < |db.users| && Contains(db.users[u].name, assigneeName) && db.users[u].id == uid;
    ProjectNameOfKey(db.projects, p);
    UserNameOfKey(db.users, u);
  }

  /** With unique ids the join finds the project that carries the key. */
  lemma {:induction false} ProjectNameOfKey(projects: seq<Project>, p: int)
    requires 0 <= p < |projects|
    requires forall j, k :: 0 <= j < k < |projects| ==> projects[j].id != projects[k].id
    ensures ProjectName(projects, Some(projects[p].id)) == Some(projects[p].name)
  {
    if p > 0 {
      ProjectNameOfKey(projects[1..], p - 1);
    }
  }

  lemma {:induction false} UserNameOfKey(users: seq<User>, u: int)
    requires 0 <= u < |users|
    requires forall j, k :: 0 <= j < k < |users| ==> users[j].id != users[k].id
    ensures UserName(users, Some(users[u].id)) == Some(users[u].name)
  {
    if u > 0 {
      UserNameOfKey(users[1..], u - 1);
    }
  }

  // ---------------------------------------------------------------------------
  // The ListUsers tool
  // ---------------------------------------------------------------------------

  function UserLine(u: User): string {
    "- ID: " + IntToString(u.id) + ", Name: " + u.name + ", Email: " + u.email
  }

  function UserLines(users: seq<User>): (ls: seq<string>)
    ensures |ls| == |users| && forall k :: 0 <= k < |users| ==> ls[k] == UserLine(users[k])
  {
    seq(|users|, k requires 0 <= k < |users| => UserLine(users[k]))
  }

  /** `list_users` after the query: a fixed message for an empty table, else one line per user. */
  function ListUsers(users: seq<User>): (r: string)
    ensures users == [] <==> r == "No users found in the database."
  {
    if users == [] then "No users found in the database."
    else
      var ls := UserLines(users);
      JoinStartsWithFirst(ls);
      assert ls[0][0] == '-';
      assert JoinLines(ls)[0] == ls[0][0];
      JoinLines(ls)
  }

  lemma {:induction false} JoinStartsWithFirst(ls: seq<string>)
    requires |ls| >= 1
    ensures |JoinLines(ls)| >= |ls[0]| && JoinLines(ls)[..|ls[0]|] == ls[0]
  {
    if |ls| > 1 {
      assert JoinLines(ls) == ls[0] + ("\n" + JoinLines(ls[1..]));
    }
  }

  /**
   * When no name or email holds a line break, the reply splits back into exactly one
   * line per user, in table order.
   */
  lemma {:induction false} ListUsersLines(users: seq<User>)
    requires users != []
    requires forall k :: 0 <= k < |users| ==> NoNewline(users[k].name) && NoNewline(users[k].email)
    ensures SplitLines(ListUsers(users)) == UserLines(users)
  {
    var ls := UserLines(users);
    forall k | 0 <= k < |ls| ensures NoNewline(ls[k]) {
      UserLineSingle(users[k]);
    }
    SplitJoinLines(ls);
  }

  lemma UserLineSingle(u: User)
    requires NoNewline(u.name) && NoNewline(u.email)
    ensures NoNewline(UserLine(u))
  {
    IntToStringDigits(u.id);
  }

  lemma IntToStringDigits(i: int)
    ensures NoNewline(IntToString(i))
  {
    var s := IntToString(i);
    forall k | 0 <= k < |s| ensures s[k] != '\n' {
      if i < 0 {
        assert s == "-" + NatToString(-i);
        if k > 0 { assert s[k] == NatToString(-i)[k - 1]; }
      }
    }
  }

  // ---------------------------------------------------------------------------
  // The agent
  // ---------------------------------------------------------------------------

  /** What the agent executor did with a query. */
  datatype AgentRun = Raised | Answered(output: Option<string>)

  const NotInitialized := "Error: Agent is not initialized. Please run initialize_agent() first."

  /**
   * `invoke_agent`: before initialisation the fixed error and nothing else; otherwise the
   * executor's `output`, its stand-in when missing, or the apology when it raised.
   */
  function InvokeAgent(ready: bool, run: AgentRun): (r: string)
    ensures !ready ==> r == NotInitialized
    ensures ready && run.Answered? && run.output.Some? ==> r == run.output.value
    ensures ready && run.Answered? && run.output.None? ==> r == "Error: No output from agent."
    ensures ready && run.Raised? ==> r == "Sorry, I encountered an error while processing your request."
  {
    if !ready then NotInitialized
    else match run
      case Raised => "Sorry, I encountered an error while processing your request."
      case Answered(output) => if output.Some? then output.value else "Error: No output from agent."
  }

  /**
   * The module state of merged_agent.py: the database it connects to, the queue to the
   * index worker (`None` until `set_memory_queue`, else the messages put so far) and
   * whether `initialize_agent` has built the executor.
   */
  class TaskAgent {
    var db: Db
    var memoryQueue: Option<seq<Message>>
    var agentReady: bool

    constructor (db0: Db, ready: bool)
      ensures db == db0 && memoryQueue.None? && agentReady == ready
    {
      db := db0;
      memoryQueue := None;
      agentReady := ready;
    }

    /** `set_memory_queue`. */
    method SetMemoryQueue(queue: Option<seq<Message>>)
      modifies this
      ensures memoryQueue == queue
      ensures db == old(db) && agentReady == old(agentReady)
    {
      memoryQueue := queue;
    }

    /**
     * `add_task`: the database becomes the outcome's; exactly one `add` message for the new
     * id is put, and only on success with a queue set.
     */
    method AddTask(title: string, projectName: string, assigneeName: string,
                   description: string := "", priority: string := "Medium", status: string := "To Do")
      returns (reply: string)
      requires Valid(db)
      modifies this
      ensures var o := AddTaskOutcome(old(db), title, projectName, assigneeName, description, priority, status);
        && reply == o.reply && db == o.db
        && memoryQueue == (if o.added.Some? && old(memoryQueue).Some?
                           then Some(old(memoryQueue).value + [AddMessage(o.added.value)])
                           else old(memoryQueue))
      ensures Valid(db) && agentReady == old(agentReady)
    {
      var o := AddTaskOutcome(db, title, projectName, assigneeName, description, priority, status);
      db := o.db;
      if o.added.Some? && memoryQueue.Some? {
        memoryQueue := Some(memoryQueue.value + [AddMessage(o.added.value)]);
      }
      reply := o.reply;
    }

    /** `invoke_agent` reads the executor and changes nothing. */
    method Invoke(run: AgentRun) returns (reply: string)
      ensures !agentReady ==> reply == NotInitialized
      ensures agentReady ==> reply == InvokeAgent(true, run)
    {
      reply := InvokeAgent(agentReady, run);
    }
  }
}
