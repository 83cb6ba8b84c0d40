/**
 * The knowledge-index synchroniser of memory_manager.py: a worker that keeps a vector store
 * (here a map from the string id Chroma stores to the document) in step with the task
 * table, first by a full reconciliation at start-up, then by applying the change
 * notifications it receives on its queue, one at a time.
 */
module MemoryManager {

  import opened Wrappers
  import opened Text
  import opened Tasks
  import opened TaskDocument

  /** The vector store: Chroma document id to document. */
  type Index = map<string, Document>

  /** Chroma ids are `str(task_id)`. */
  function Key(id: int): string {
    IntToString(id)
  }

  /** The index keys the database calls for: `{str(id) for every task id}`. */
  function DbKeys(db: Db): set<string> {
    set id | id in db.tasks :: Key(id)
  }

  /** The document the index should hold for task `id`. */
  function DocumentOf(db: Db, id: int): Document
    requires id in db.tasks
  {
    FormatTask(JoinRow(db, id))
  }

  /** The index holds exactly one entry per task, under `str(id)`, and it is the task's current document. */
  ghost predicate Consistent(index: Index, db: Db) {
    && index.Keys == DbKeys(db)
    && forall id :: id in db.tasks ==> Key(id) in index && index[Key(id)] == DocumentOf(db, id)
  }

  /** `get_task_document_by_id`: `None` when no task has that id, else that task's document. */
  function GetTaskDocumentById(db: Db, id: int): (r: Option<Document>)
    ensures r.None? <==> id !in db.tasks
    ensures r.Some? ==> r.value.metadata.taskId == id && r.value == FormatTask(JoinRow(db, id))
  {
    if id in db.tasks then Some(FormatTask(JoinRow(db, id))) else None
  }

  // ---------------------------------------------------------------------------
  // Start-up reconciliation
  // ---------------------------------------------------------------------------

  /** `rows` is what the SELECT over all tasks returns: every task once, each as its joined row. */
  ghost predicate IsListing(db: Db, rows: seq<Row>) {
    && (forall k :: 0 <= k < |rows| ==> rows[k].id in db.tasks && rows[k] == JoinRow(db, rows[k].id))
    && (forall id :: id in db.tasks ==> exists k :: 0 <= k < |rows| && rows[k].id == id)
    && (forall j, k :: 0 <= j < k < |rows| ==> rows[j].id != rows[k].id)
  }

  /** The ids `add_documents` is given: `[str(doc.metadata['task_id']) for doc in docs]`. */
  function DocKeys(docs: seq<Document>): set<string> {
    set k | 0 <= k < |docs| :: Key(docs[k].metadata.taskId)
  }

  /** `add_documents(documents=docs, ids=...)`: each document upserted under its own id, in order. */
  function Upsert(index: Index, docs: seq<Document>): Index
    decreases |docs|
  {
    if docs == [] then index
    else Upsert(index[Key(docs[0].metadata.taskId) := docs[0]], docs[1..])
  }

  /**
   * An upsert of documents with distinct task ids adds exactly their keys, stores each
   * document under its own key and leaves every other entry alone.
   */
  lemma {:induction false} UpsertStoresEach(index: Index, docs: seq<Document>)
    requires forall j, k :: 0 <= j < k < |docs| ==> docs[j].metadata.taskId != docs[k].metadata.taskId
    ensures Upsert(index, docs).Keys == index.Keys + DocKeys(docs)
    ensures forall k :: 0 <= k < |docs| ==> Upsert(index, docs)[Key(docs[k].metadata.taskId)] == docs[k]
    ensures forall key :: key in index && key !in DocKeys(docs) ==> Upsert(index, docs)[key] == index[key]
    decreases |docs|
  {
    if docs != [] {
      var head := Key(docs[0].metadata.taskId);
      var rest := docs[1..];
      UpsertStoresEach(index[head := docs[0]], rest);
      assert DocKeys(docs) == {head} + DocKeys(rest) by {
        forall key | key in DocKeys(docs) ensures key in {head} + DocKeys(rest) {
          var k :| 0 <= k < |docs| && key == Key(docs[k].metadata.taskId);
          if k > 0 { assert key == Key(rest[k - 1].metadata.taskId); }
        }
        forall key | key in DocKeys(rest) ensures key in DocKeys(docs) {
          var k :| 0 <= k < |rest| && key == Key(rest[k].metadata.taskId);
          assert key == Key(docs[k + 1].metadata.taskId);
        }
      }
      forall k | 0 < k < |docs|
        ensures head != Key(docs[k].metadata.taskId)
      {
        IntToStringInjective(docs[0].metadata.taskId, docs[k].metadata.taskId);
      }
      forall j | 0 <= j < |rest| ensures Key(rest[j].metadata.taskId) != head {
        assert rest[j] == docs[j + 1];
      }
      assert head !in DocKeys(rest);
      forall k | 0 <= k < |docs|
        ensures Upsert(index, docs)[Key(docs[k].metadata.taskId)] == docs[k]
      {
        if k > 0 { assert docs[k] == rest[k - 1]; }
      }
    }
  }

  // ---------------------------------------------------------------------------
  // Message dispatch
  // ---------------------------------------------------------------------------

  /** A queue message: `message.get("action")` and `message.get("task_id")`. */
  datatype Message = Message(action: Option<string>, taskId: Option<int>)

  /** Python truthiness of the two fields: `None`, `""` and `0` are false. */
  predicate WellFormed(m: Message) {
    m.action.Some? && m.action.value != "" && m.taskId.Some? && m.taskId.value != 0
  }

  /** The message `add_task` puts on the queue. */
  function AddMessage(id: int): Message {
    Message(Some("add"), Some(id))
  }

  /**
   * One turn of the worker's loop: malformed messages are skipped, `add` and `update`
   * upsert the current document (when the task still exists), `delete` removes the entry,
   * any other action does nothing. Only the entry of the message's own task can change.
   */
  function Dispatch(index: Index, db: Db, m: Message): (r: Index)
    ensures !WellFormed(m) ==> r == index
    ensures WellFormed(m) ==> forall key :: key != Key(m.taskId.value) ==> Get(r, key) == Get(index, key)
    ensures WellFormed(m) && m.action.value in {"add", "update"} ==>
      Get(r, Key(m.taskId.value)) ==
        (if m.taskId.value in db.tasks then Some(DocumentOf(db, m.taskId.value)) else Get(index, Key(m.taskId.value)))
    ensures WellFormed(m) && m.action.value == "delete" ==> Key(m.taskId.value) !in r
    ensures WellFormed(m) && m.action.value !in {"add", "update", "delete"} ==> r == index
  {
    if !WellFormed(m) then index
    else
      var id := m.taskId.value;
      if m.action.value in {"add", "update"} then
        match GetTaskDocumentById(db, id)
        case Some(doc) => index[Key(id) := doc]
        case None => index
      else if m.action.value == "delete" then index - {Key(id)}
      else index
  }

  /** One queued message, with the database as it stands when the worker handles it. */
  datatype Delivery = Delivery(db: Db, message: Message)

  /** The index after the worker has handled `ds` in order. */
  function Replay(index: Index, ds: seq<Delivery>): Index {
    if ds == [] then index
    else Dispatch(Replay(index, ds[..|ds| - 1]), ds[|ds| - 1].db, ds[|ds| - 1].message)
  }

  // ---------------------------------------------------------------------------
  // The worker
  // ---------------------------------------------------------------------------

  class MemoryWorker {

    /** The persisted vector store the worker opened. */
    var index: Index

    constructor (persisted: Index)
      ensures index == persisted
    {
      index := persisted;
    }

    /**
     * Step 2 of `memory_worker`: delete the entries whose key is not a database id, then
     * upsert every current document. Afterwards the index is consistent with the database,
     * including when the database has no tasks.
     */
    method InitialSync(db: Db, rows: seq<Row>)
      requires IsListing(db, rows)
      modifies this
      ensures Consistent(index, db)
    {
      var allDbDocs := AllDocuments(rows);
      var allDbIds := set k | 0 <= k < |allDbDocs| :: Key(allDbDocs[k].metadata.taskId);
      var existingIds := index.Keys;
      var idsToDelete := existingIds - allDbIds;
      if idsToDelete != {} {
        index := index - idsToDelete;
      } else {
        forall key | key in index ensures key in allDbIds {
          assert key !in idsToDelete;
        }
      }
      var pruned := index;
      if allDbDocs != [] {
        index := Upsert(index, allDbDocs);
      }
      SyncResult(pruned, db, rows, index);
    }

    /** One turn of the `while True` loop. */
    method HandleMessage(db: Db, m: Message)
      modifies this
      ensures index == Dispatch(old(index), db, m)
    {
      var action := m.action;
      var taskId := m.taskId;
      if !WellFormed(m) {
        return;
      }
      if action.value in {"add", "update"} {
        var docToUpdate := GetTaskDocumentById(db, taskId.value);
        if docToUpdate.Some? {
          index := index[Key(taskId.value) := docToUpdate.value];
        }
      } else if action.value == "delete" {
        index := index - {Key(taskId.value)};
      }
    }

    /** The loop over the messages received so far. */
    method Listen(ds: seq<Delivery>)
      modifies this
      ensures index == Replay(old(index), ds)
    {
      var i := 0;
      while i < |ds|
        invariant 0 <= i <= |ds|
        invariant index == Replay(old(index), ds[..i])
      {
        HandleMessage(ds[i].db, ds[i].message);
        assert ds[..i + 1][..i] == ds[..i];
        i := i + 1;
      }
      assert ds[..|ds|] == ds;
    }
  }

  /** The ids of the documents of a full listing are the database's ids. */
  lemma ListingKeys(db: Db, rows: seq<Row>)
    requires IsListing(db, rows)
    ensures DocKeys(AllDocuments(rows)) == DbKeys(db)
  {
    var docs := AllDocuments(rows);
    forall key | key in DbKeys(db) ensures key in DocKeys(docs) {
      var id :| id in db.tasks && key == Key(id);
      var k :| 0 <= k < |rows| && rows[k].id == id;
      assert docs[k].metadata.taskId == id;
    }
  }

  /** The reasoning behind `InitialSync`'s postcondition. */
  lemma SyncResult(pruned: Index, db: Db, rows: seq<Row>, after: Index)
    requires IsListing(db, rows)
    requires pruned.Keys <= DocKeys(AllDocuments(rows))
    requires after == if rows == [] then pruned else Upsert(pruned, AllDocuments(rows))
    ensures Consistent(after, db)
  {
    if rows != [] {
      SyncKeys(pruned, db, rows, after);
      UpsertedListing(pruned, db, rows, after);
    } else {
      ListingKeys(db, rows);
      EmptyListing(db, rows);
    }
  }

  /** After the upsert the index keys are the database's keys. */
  lemma SyncKeys(pruned: Index, db: Db, rows: seq<Row>, after: Index)
    requires IsListing(db, rows)
    requires pruned.Keys <= DocKeys(AllDocuments(rows))
    requires after == Upsert(pruned, AllDocuments(rows))
    ensures after.Keys == DbKeys(db)
  {
    ListingKeys(db, rows);
    UpsertStoresEach(pruned, AllDocuments(rows));
  }

  /** After the upsert every task's entry is its current document. */
  lemma UpsertedListing(pruned: Index, db: Db, rows: seq<Row>, after: Index)
    requires IsListing(db, rows)
    requires after == Upsert(pruned, AllDocuments(rows))
    ensures forall id :: id in db.tasks ==> Key(id) in after && after[Key(id)] == DocumentOf(db, id)
  {
    var docs := AllDocuments(rows);
    UpsertStoresEach(pruned, docs);
    forall id | id in db.tasks ensures Key(id) in after && after[Key(id)] == DocumentOf(db, id) {
      var k :| 0 <= k < |rows| && rows[k].id == id;
      assert docs[k].metadata.taskId == id;
    }
  }

  lemma EmptyListing(db: Db, rows: seq<Row>)
    requires IsListing(db, rows) && rows == []
    ensures DbKeys(db) == {}
  {
    assert forall id :: id !in db.tasks;
  }
}
