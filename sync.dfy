/**
 * The producer and consumer sides of the knowledge index together: every change to the
 * task table that is announced on the queue is reflected by the worker, so an index that
 * starts consistent with the database stays consistent with it.
 */
module Sync {

  import opened Wrappers
  import opened Text
  import opened Tasks
  import opened TaskDocument
  import opened MemoryManager
  import opened MergedAgent

  /** `after` is `before` with task `id` inserted or rewritten, and nothing else changed. */
  predicate RowWritten(before: Db, after: Db, id: int) {
    && id in after.tasks
    && after.tasks == before.tasks[id := after.tasks[id]]
    && after.projects == before.projects && after.users == before.users
  }

  /** `after` is `before` without task `id`, and nothing else changed. */
  predicate RowDeleted(before: Db, after: Db, id: int) {
    && after.tasks == before.tasks - {id}
    && after.projects == before.projects && after.users == before.users
  }

  /** Writing one row leaves every other task's document as it was. */
  lemma OtherDocumentsKept(before: Db, after: Db, id: int, other: int)
    requires other in before.tasks && other != id && other in after.tasks
    requires after.tasks[other] == before.tasks[other]
    requires after.projects == before.projects && after.users == before.users
    ensures DocumentOf(after, other) == DocumentOf(before, other)
  {
  }

  /** An `add` or `update` for a written row keeps the index consistent. */
  lemma {:induction false} WrittenRowKeepsConsistent(index: Index, before: Db, after: Db, m: Message)
    requires Consistent(index, before)
    requires WellFormed(m) && m.action.value in {"add", "update"}
    requires RowWritten(before, after, m.taskId.value)
    ensures Consistent(Dispatch(index, after, m), after)
  {
    DispatchWrite(index, after, m);
    WrittenKeys(before, after, m.taskId.value);
    WrittenEntries(index, before, after, m.taskId.value);
  }

  /** The entries after writing the document of `id`. */
  lemma WrittenEntries(index: Index, before: Db, after: Db, id: int)
    requires Consistent(index, before) && RowWritten(before, after, id)
    ensures var r := index[Key(id) := DocumentOf(after, id)];
      forall other :: other in after.tasks ==> Key(other) in r && r[Key(other)] == DocumentOf(after, other)
  {
    var r := index[Key(id) := DocumentOf(after, id)];
    forall other | other in after.tasks
      ensures Key(other) in r && r[Key(other)] == DocumentOf(after, other)
    {
      if other != id {
        OtherEntryKept(index, before, after, id, other);
      }
    }
  }

  lemma OtherEntryKept(index: Index, before: Db, after: Db, id: int, other: int)
    requires Consistent(index, before) && RowWritten(before, after, id)
    requires other in after.tasks && other != id
    ensures Key(other) != Key(id) && Key(other) in index && index[Key(other)] == DocumentOf(after, other)
  {
    IntToStringInjective(other, id);
    OtherDocumentsKept(before, after, id, other);
  }

  lemma DispatchWrite(index: Index, db: Db, m: Message)
    requires WellFormed(m) && m.action.value in {"add", "update"} && m.taskId.value in db.tasks
    ensures Dispatch(index, db, m) == index[Key(m.taskId.value) := DocumentOf(db, m.taskId.value)]
  {
  }

  lemma WrittenKeys(before: Db, after: Db, id: int)
    requires RowWritten(before, after, id)
    ensures DbKeys(after) == DbKeys(before) + {Key(id)}
  {
    assert after.tasks.Keys == before.tasks.Keys + {id};
  }

  /** A `delete` for a deleted row keeps the index consistent. */
  lemma {:induction false} DeletedRowKeepsConsistent(index: Index, before: Db, after: Db, m: Message)
    requires Consistent(index, before)
    requires WellFormed(m) && m.action.value == "delete"
    requires RowDeleted(before, after, m.taskId.value)
    ensures Consistent(Dispatch(index, after, m), after)
  {
    var id := m.taskId.value;
    var r := Dispatch(index, after, m);
    assert r == index - {Key(id)};
    forall key | key in DbKeys(before) - {Key(id)} ensures key in DbKeys(after) {
      var other :| other in before.tasks && key == Key(other);
    }
    forall key | key in DbKeys(after) ensures key in DbKeys(before) - {Key(id)} {
      var other :| other in after.tasks && key == Key(other);
      IntToStringInjective(other, id);
    }
    forall other | other in after.tasks
      ensures Key(other) in r && r[Key(other)] == DocumentOf(after, other)
    {
      IntToStringInjective(other, id);
      OtherDocumentsKept(before, after, id, other);
    }
  }

  /** A delivery announces exactly the change that turned `before` into its database. */
  predicate Announced(before: Db, d: Delivery) {
    && WellFormed(d.message)
    && ((d.message.action.value in {"add", "update"} && RowWritten(before, d.db, d.message.taskId.value))
        || (d.message.action.value == "delete" && RowDeleted(before, d.db, d.message.taskId.value)))
  }

  /** Delivery `k` announces the change since the database of the one before it. */
  predicate AnnouncedAt(db0: Db, ds: seq<Delivery>, k: int)
    requires 0 <= k < |ds|
  {
    Announced(if k == 0 then db0 else ds[k - 1].db, ds[k])
  }

  predicate AnnouncedChain(db0: Db, ds: seq<Delivery>) {
    forall k :: 0 <= k < |ds| ==> AnnouncedAt(db0, ds, k)
  }

  function LastDb(db0: Db, ds: seq<Delivery>): Db {
    if ds == [] then db0 else ds[|ds| - 1].db
  }

  /** Replaying announced changes keeps the index consistent with the latest database. */
  lemma {:induction false} ReplayTracksDb(index: Index, db0: Db, ds: seq<Delivery>)
    requires Consistent(index, db0)
    requires AnnouncedChain(db0, ds)
    ensures Consistent(Replay(index, ds), LastDb(db0, ds))
  {
    if ds != [] {
      var init := ds[..|ds| - 1];
      assert AnnouncedChain(db0, init) by {
        forall k | 0 <= k < |init| ensures AnnouncedAt(db0, init, k) {
          assert AnnouncedAt(db0, ds, k);
          assert init[k] == ds[k];
          if k > 0 { assert init[k - 1] == ds[k - 1]; }
        }
      }
      ReplayTracksDb(index, db0, init);
      var before := LastDb(db0, init);
      var d := ds[|ds| - 1];
      assert Announced(before, d) by {
        assert AnnouncedAt(db0, ds, |ds| - 1);
        if |ds| > 1 { assert init[|init| - 1] == ds[|ds| - 2]; }
      }
      if d.message.action.value in {"add", "update"} {
        WrittenRowKeepsConsistent(Replay(index, init), before, d.db, d.message);
      } else {
        DeletedRowKeepsConsistent(Replay(index, init), before, d.db, d.message);
      }
    }
  }

  /**
   * The producer side: a task added through the agent, once the worker handles the `add`
   * message it was announced with, is in the index and the index is consistent again.
   */
  lemma {:induction false} AddedTaskReachesIndex(index: Index, db: Db, title: string, projectName: string,
                                                  assigneeName: string, description: string, priority: string, status: string)
    requires Valid(db) && Consistent(index, db)
    requires AddTaskOutcome(db, title, projectName, assigneeName, description, priority, status).added.Some?
    ensures var o := AddTaskOutcome(db, title, projectName, assigneeName, description, priority, status);
      && Consistent(Dispatch(index, o.db, AddMessage(o.added.value)), o.db)
      && Key(o.added.value) in Dispatch(index, o.db, AddMessage(o.added.value))
  {
    var o := AddTaskOutcome(db, title, projectName, assigneeName, description, priority, status);
    var id := o.added.value;
    assert id in o.db.tasks && id >= 1;
    WrittenRowKeepsConsistent(index, db, o.db, AddMessage(id));
  }

  /** Handling the same message twice against the same database is the same as handling it once. */
  lemma RedeliveryIsIdempotent(index: Index, db: Db, m: Message)
    ensures Dispatch(Dispatch(index, db, m), db, m) == Dispatch(index, db, m)
  {
  }
}
