/**
 * The confirmation-gated task creation tool of agent_main.py: the agent proposes an
 * INSERT, the operator confirms with `y` or cancels with `n`, and only a confirmed insert
 * reaches the database.
 */
module AgentMain {

  import opened Wrappers
  import opened Text
  import opened Tasks

  /** How `add_new_task` ends: with a reply, or by `input()` raising at end of input. */
  datatype Confirmation = Returned(message: string) | InputClosed

  const Canceled := "Action CANCELED by user. No changes were made to the database."

  /** `input(...).lower().strip()`. */
  function Normalize(answer: string): string {
    Strip(Lower(answer))
  }

  /** An answer that ends the confirmation loop. */
  predicate Decisive(answer: string) {
    Normalize(answer) == "y" || Normalize(answer) == "n"
  }

  function SuccessMessage(title: string, id: int): string {
    "Success! Task '" + title + "' has been added to the database with Task ID " + IntToString(id) + "."
  }

  function DatabaseError(e: string, title: string): string {
    "Database Error: " + e + ". Failed to add task '" + title + "'."
  }

  /**
   * The `while True` loop: reads answers until one is decisive. `None` when the answers run
   * out first; otherwise the normalised decisive answer.
   */
  method Confirm(answers: seq<string>) returns (confirm: Option<string>, consumed: nat)
    ensures consumed <= |answers|
    ensures confirm.None? <==> forall j :: 0 <= j < |answers| ==> !Decisive(answers[j])
    ensures confirm.None? ==> consumed == |answers|
    ensures confirm.Some? ==>
      && consumed >= 1 && confirm.value == Normalize(answers[consumed - 1])
      && Decisive(answers[consumed - 1])
      && forall j :: 0 <= j < consumed - 1 ==> !Decisive(answers[j])
  {
    var i := 0;
    while i < |answers|
      invariant 0 <= i <= |answers|
      invariant forall j :: 0 <= j < i ==> !Decisive(answers[j])
    {
      var answer := Normalize(answers[i]);
      if answer == "y" || answer == "n" {
        return Some(answer), i + 1;
      }
      i := i + 1;
    }
    return None, i;
  }

  /** The row `add_new_task` inserts. */
  function NewTask(title: string, description: string, projectId: int, assigneeId: int, priority: string, status: string): Task {
    Task(title, Some(description), status, priority, None, Some(projectId), Some(assigneeId))
  }

  /**
   * `add_new_task`: `n` cancels without touching the database; `y` inserts `(title,
   * description, status, priority, project_id, assignee_id)` and reports the new id, or
   * reports the database's error and changes nothing.
   */
  method AddNewTask(answers: seq<string>, db: Db, title: string, description: string, projectId: int, assigneeId: int,
                    priority: string := "Medium", status: string := "To Do")
    returns (outcome: Confirmation, db': Db, consumed: nat)
    requires Valid(db)
    ensures consumed <= |answers|
    ensures outcome.InputClosed? <==> forall j :: 0 <= j < |answers| ==> !Decisive(answers[j])
    ensures outcome.InputClosed? ==> consumed == |answers| && db' == db
    ensures outcome.Returned? ==>
      && consumed >= 1 && Decisive(answers[consumed - 1])
      && forall j :: 0 <= j < consumed - 1 ==> !Decisive(answers[j])
    ensures outcome.Returned? && Normalize(answers[consumed - 1]) == "n" ==> outcome.message == Canceled && db' == db
    ensures outcome.Returned? && Normalize(answers[consumed - 1]) == "y" ==>
      var r := Insert(db, NewTask(title, description, projectId, assigneeId, priority, status));
      && (r.Inserted? ==> db' == r.db && outcome.message == SuccessMessage(title, r.id))
      && (r.Rejected? ==> db' == db && outcome.message == DatabaseError(r.error, title))
    ensures Valid(db')
  {
    var confirm;
    confirm, consumed := Confirm(answers);
    if confirm.None? {
      return InputClosed, db, consumed;
    }
    if confirm.value != "y" {
      return Returned(Canceled), db, consumed;
    }
    var r := Insert(db, NewTask(title, description, projectId, assigneeId, priority, status));
    if r.Inserted? {
      outcome, db' := Returned(SuccessMessage(title, r.id)), r.db;
    } else {
      outcome, db' := Returned(DatabaseError(r.error, title)), db;
    }
  }
}
