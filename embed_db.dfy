/**
 * The one-off embedding pipeline of embed_db.py: read every task through the same LEFT
 * JOIN the worker uses, build one document per row, and hand them to a new vector store
 * unless there are none.
 */
module EmbedDb {

  import opened Wrappers
  import opened Text
  import opened Tasks
  import opened TaskDocument

  /** The page content as embed_db.py writes it: six f-string lines concatenated left to right. */
  function EmbedContent(row: Row): string {
    "Task: " + row.title + "\n"
      + "Project: " + Show(row.projectName) + "\n"
      + "Status: " + row.status + "\n"
      + "Priority: " + row.priority + "\n"
      + "Assignee: " + Show(row.assigneeName) + "\n"
      + "Description: " + Show(row.description)
  }

  /** embed_db.py's page content is the knowledge-index worker's, line for line. */
  lemma {:induction false} SameLayoutAsIndex(row: Row)
    ensures EmbedContent(row) == FormatTask(row).pageContent
  {
    var ls := ContentLines(row);
    LayoutIsJoin(ls);
    assert EmbedContent(row) == ls[0] + ("\n" + (ls[1] + ("\n" + (ls[2] + ("\n" + (ls[3] + ("\n" + (ls[4] + ("\n" + ls[5])))))))));
  }

  /**
   * `load_tasks_from_db`: no documents when the database file is missing or the connection
   * fails; otherwise one document per fetched row, in row order, built in a loop.
   */
  method LoadTasksFromDb(dbExists: bool, connects: bool, rows: seq<Row>) returns (documents: seq<Document>)
    ensures !dbExists || !connects ==> documents == []
    ensures dbExists && connects ==>
      && |documents| == |rows|
      && forall k :: 0 <= k < |rows| ==> documents[k] == FormatTask(rows[k]) && documents[k].metadata.taskId == rows[k].id
  {
    if !dbExists || !connects {
      return [];
    }
    documents := [];
    for i := 0 to |rows|
      invariant |documents| == i
      invariant forall k :: 0 <= k < i ==> documents[k] == FormatTask(rows[k])
    {
      var row := rows[i];
      var pageContent := EmbedContent(row);
      var metadata := Metadata(row.id, row.title, row.projectName, row.status, row.priority, row.dueDate, row.assigneeName);
      SameLayoutAsIndex(row);
      documents := documents + [Document(pageContent, metadata)];
    }
  }

  /**
   * `main`: halts without building a store when no document was loaded; otherwise the new
   * store holds exactly the loaded documents, which are the worker's documents for the rows.
   */
  method EmbedMain(dbExists: bool, connects: bool, rows: seq<Row>) returns (store: Option<seq<Document>>)
    ensures store.None? <==> !dbExists || !connects || rows == []
    ensures store.Some? ==> store.value == AllDocuments(rows)
  {
    var documents := LoadTasksFromDb(dbExists, connects, rows);
    if documents == [] {
      return None;
    }
    store := Some(documents);
  }
}
