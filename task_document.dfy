/**
 * The text projection of a task row that goes into the knowledge index
 * (`format_task_as_document` in memory_manager.py; embed_db.py builds the same document
 * inline, see module EmbedDb).
 */
module TaskDocument {

  import opened Wrappers
  import opened Text
  import opened Tasks

  /** A metadata value: the row id is an int, the other columns strings or NULL. */
  datatype Value = IntValue(i: int) | StrValue(s: string) | NoneValue

  /** The seven metadata fields stored with every document. */
  datatype Metadata = Metadata(
    taskId: int,
    title: string,
    project: Option<string>,
    status: string,
    priority: string,
    dueDate: Option<string>,
    assignee: Option<string>)
  {
    /** The metadata as the Python dict it is. */
    function AsDict(): (d: map<string, Value>)
      ensures d.Keys == {"task_id", "title", "project", "status", "priority", "due_date", "assignee"}
      ensures d["task_id"] == IntValue(taskId) && d["title"] == StrValue(title)
    {
      map[
        "task_id" := IntValue(taskId),
        "title" := StrValue(title),
        "project" := Column(project),
        "status" := StrValue(status),
        "priority" := StrValue(priority),
        "due_date" := Column(dueDate),
        "assignee" := Column(assignee)]
    }
  }

  function Column(o: Option<string>): Value {
    match o
    case None => NoneValue
    case Some(s) => StrValue(s)
  }

  datatype Document = Document(pageContent: string, metadata: Metadata)

  /** The six labelled lines of a task's page content, in order. */
  function ContentLines(row: Row): seq<string> {
    [ "Task: " + row.title,
      "Project: " + Show(row.projectName),
      "Status: " + row.status,
      "Priority: " + row.priority,
      "Assignee: " + Show(row.assigneeName),
      "Description: " + Show(row.description) ]
  }

  /**
   * `format_task_as_document`: the f-string page content (written right to left, which is
   * the same string) and the metadata dict.
   */
  function FormatTask(row: Row): (d: Document)
    ensures d.metadata.taskId == row.id
    ensures d.pageContent == JoinLines(ContentLines(row))
  {
    var content :=
      "Task: " + row.title + ("\n"
      + ("Project: " + Show(row.projectName) + ("\n"
      + ("Status: " + row.status + ("\n"
      + ("Priority: " + row.priority + ("\n"
      + ("Assignee: " + Show(row.assigneeName) + ("\n"
      + ("Description: " + Show(row.description)))))))))));
    var d := Document(
      content,
      Metadata(row.id, row.title, row.projectName, row.status, row.priority, row.dueDate, row.assigneeName));
    LayoutIsJoin(ContentLines(row));
    d
  }

  /** Six lines joined by newlines, unfolded. */
  lemma LayoutIsJoin(ls: seq<string>)
    requires |ls| == 6
    ensures JoinLines(ls) == ls[0] + ("\n" + (ls[1] + ("\n" + (ls[2] + ("\n" + (ls[3] + ("\n" + (ls[4] + ("\n" + ls[5])))))))))
  {
    assert ls[4..][1..] == ls[5..] == [ls[5]];
    assert JoinLines(ls[5..]) == ls[5];
    var j4 := JoinLines(ls[4..]);
    assert j4 == ls[4] + ("\n" + ls[5]);
    assert ls[3..][1..] == ls[4..];
    var j3 := JoinLines(ls[3..]);
    assert j3 == ls[3] + ("\n" + j4);
    assert ls[2..][1..] == ls[3..];
    var j2 := JoinLines(ls[2..]);
    assert j2 == ls[2] + ("\n" + j3);
    assert ls[1..][1..] == ls[2..];
    var j1 := JoinLines(ls[1..]);
    assert j1 == ls[1] + ("\n" + j2);
  }

  /** No field of the row holds a line break. */
  predicate SingleLineFields(row: Row) {
    && NoNewline(row.title) && NoNewline(Show(row.projectName)) && NoNewline(row.status)
    && NoNewline(row.priority) && NoNewline(Show(row.assigneeName)) && NoNewline(Show(row.description))
  }

  /**
   * The page content is exactly six lines, Task, Project, Status, Priority, Assignee and
   * Description, each carrying its column of the row, when no column holds a line break.
   */
  lemma {:induction false} PageContentHasSixLines(row: Row)
    requires SingleLineFields(row)
    ensures var lines := SplitLines(FormatTask(row).pageContent);
      && |lines| == 6
      && lines[0] == "Task: " + row.title
      && lines[1] == "Project: " + Show(row.projectName)
      && lines[2] == "Status: " + row.status
      && lines[3] == "Priority: " + row.priority
      && lines[4] == "Assignee: " + Show(row.assigneeName)
      && lines[5] == "Description: " + Show(row.description)
  {
    var ls := ContentLines(row);
    forall k | 0 <= k < |ls| ensures NoNewline(ls[k]) {
      NoNewlineConcat("Task: ", row.title);
      NoNewlineConcat("Project: ", Show(row.projectName));
      NoNewlineConcat("Status: ", row.status);
      NoNewlineConcat("Priority: ", row.priority);
      NoNewlineConcat("Assignee: ", Show(row.assigneeName));
      NoNewlineConcat("Description: ", Show(row.description));
    }
    SplitJoinLines(ls);
  }

  lemma NoNewlineConcat(a: string, b: string)
    requires NoNewline(a) && NoNewline(b)
    ensures NoNewline(a + b)
  {
    forall k | 0 <= k < |a + b| ensures (a + b)[k] != '\n' {
      if k >= |a| { assert (a + b)[k] == b[k - |a|]; }
    }
  }

  /** The metadata dict of a document has exactly the seven keys, `task_id` being the row id. */
  lemma {:induction false} MetadataKeys(row: Row)
    ensures var d := FormatTask(row).metadata.AsDict();
      && d.Keys == {"task_id", "title", "project", "status", "priority", "due_date", "assignee"}
      && d["task_id"] == IntValue(row.id)
      && d["project"] == Column(row.projectName)
      && d["assignee"] == Column(row.assigneeName)
      && d["due_date"] == Column(row.dueDate)
  {
  }

  /** `get_all_task_documents`: one document per fetched row, in row order. */
  function AllDocuments(rows: seq<Row>): (docs: seq<Document>)
    ensures |docs| == |rows|
    ensures forall k :: 0 <= k < |rows| ==> docs[k] == FormatTask(rows[k]) && docs[k].metadata.taskId == rows[k].id
  {
    seq(|rows|, k requires 0 <= k < |rows| => FormatTask(rows[k]))
  }
}
