/**
 * The store manager scope of `sqlalchemy_media/tests/test_file.py` as an
 * object: the store, the two deletion queues and the record's column are
 * fields, and every event updates them in place. Each method is proved to
 * move the object exactly as the matching `Lifecycle` function moves a world.
 */
module StoreManagement {
  import opened Common
  import opened Lifecycle

  class StoreManager {
    var files: map<FileName, seq<byte>>
    var deleteOnCommit: seq<FileName>
    var deleteOnRollback: seq<FileName>
    const column: AttachmentClass
    var record: RecordState
    var slot: SlotValue
    var row: SlotValue
    var nextKey: Key

    /** The object's state as a world. */
    function State(): World
      reads this
    {
      World(files, deleteOnCommit, deleteOnRollback, column, record, slot, row, nextKey)
    }

    ghost predicate Valid()
      reads this
    {
      Lifecycle.Valid(State())
    }

    /** A scope over a fresh session: no record, an empty store. */
    constructor(column: AttachmentClass)
      ensures Valid() && State() == Initial(column)
    {
      files, deleteOnCommit, deleteOnRollback := map[], [], [];
      this.column := column;
      record, slot, row, nextKey := Absent, Null, Null, 0;
    }

    /** `Person(...)` with the column's initial value, added to the session. */
    method NewRecord(init: Assignable) returns (r: Outcome<LifecycleError>)
      requires Valid() && record.Absent?
      modifies this
      ensures Valid()
      ensures Lifecycle.NewRecord(old(State()), init).Failure? ==>
        r == Fail(Lifecycle.NewRecord(old(State()), init).error) && State() == old(State())
      ensures Lifecycle.NewRecord(old(State()), init).Success? ==>
        r == Pass && State() == Lifecycle.NewRecord(old(State()), init).value
    {
      var e := TypeCheck(column, init);
      if e.Some? {
        return Fail(e.value);
      }
      record := Pending;
      slot := ValueOf(init);
      r := Pass;
    }

    /** Assigning `None` or a fresh instance to the column. */
    method Assign(v: Assignable) returns (r: Outcome<LifecycleError>)
      requires Valid() && Live(State())
      modifies this
      ensures Valid()
      ensures Lifecycle.Assign(old(State()), v).Failure? ==>
        r == Fail(Lifecycle.Assign(old(State()), v).error) && State() == old(State())
      ensures Lifecycle.Assign(old(State()), v).Success? ==>
        r == Pass && State() == Lifecycle.Assign(old(State()), v).value
    {
      ghost var target := Lifecycle.Assign(State(), v);
      var e := TypeCheck(column, v);
      if e.Some? {
        return Fail(e.value);
      }
      if slot.Attached? {
        deleteOnCommit := deleteOnCommit + [PathOf(slot.meta)];
      }
      slot := ValueOf(v);
      r := Pass;
      assert State() == target.value;
    }

    /** `attach`: validate, write the content at once, queue both deletions. */
    method Attach(content: seq<byte>, contentType: Option<string>, extension: Option<string>)
      returns (r: Outcome<LifecycleError>)
      requires Valid() && Live(State()) && !slot.Null?
      modifies this
      ensures Valid()
      ensures Lifecycle.Attach(old(State()), content, contentType, extension).Failure? ==>
        r == Fail(Lifecycle.Attach(old(State()), content, contentType, extension).error) &&
        State() == old(State())
      ensures Lifecycle.Attach(old(State()), content, contentType, extension).Success? ==>
        r == Pass && State() == Lifecycle.Attach(old(State()), content, contentType, extension).value
    {
      ghost var target := Lifecycle.Attach(State(), content, contentType, extension);
      var e := LengthError(slot.of, |content|);
      if e.Some? {
        return Fail(e.value);
      }
      var meta := Attachment(nextKey, extension, contentType, |content|);
      files := files[PathOf(meta) := content];
      deleteOnRollback := deleteOnRollback + [PathOf(meta)];
      if slot.Attached? {
        deleteOnCommit := deleteOnCommit + [PathOf(slot.meta)];
      }
      slot := Attached(slot.of, meta);
      nextKey := nextKey + 1;
      r := Pass;
      assert State() == target.value;
    }

    /** `session.delete(record)`. */
    method DeleteRecord()
      requires Valid() && record.Persistent?
      modifies this
      ensures State() == Lifecycle.DeleteRecord(old(State())) && Valid()
    {
      ghost var target := Lifecycle.DeleteRecord(State());
      if slot.Attached? {
        deleteOnCommit := deleteOnCommit + [PathOf(slot.meta)];
      }
      record := Deleted;
      assert State() == target;
    }

    /** `session.commit()`: the record is written, then the queued files are deleted one by one. */
    method Commit()
      requires Valid()
      modifies this
      ensures State() == Lifecycle.Commit(old(State())) && Valid()
    {
      files := DeleteQueued(files, deleteOnCommit);
      deleteOnCommit, deleteOnRollback := [], [];
      match record
      case Absent =>
      case Deleted =>
        record, slot, row := Absent, Null, Null;
      case _ =>
        record, row := Persistent, slot;
    }

    /** `session.rollback()`: this transaction's files are deleted and the record reverts to its row. */
    method Rollback()
      requires Valid()
      modifies this
      ensures State() == Lifecycle.Rollback(old(State())) && Valid()
    {
      files := DeleteQueued(files, deleteOnRollback);
      deleteOnCommit, deleteOnRollback := [], [];
      match record
      case Persistent =>
        slot := row;
      case Deleted =>
        record, slot := Persistent, row;
      case _ =>
        record, slot, row := Absent, Null, Null;
    }
  }

  /** Pops the queue, deleting each file from the store; a file already gone is skipped. */
  method DeleteQueued(files: map<FileName, seq<byte>>, queue: seq<FileName>)
    returns (remaining: map<FileName, seq<byte>>)
    ensures remaining == DeleteAll(files, queue)
  {
    remaining := files;
    var pending := queue;
    while pending != []
      invariant remaining - SetOf(pending) == files - SetOf(queue)
      decreases |pending|
    {
      SetOfAppend([pending[0]], pending[1..]);
      assert [pending[0]] + pending[1..] == pending;
      remaining := remaining - {pending[0]};
      pending := pending[1..];
    }
    assert SetOf(pending) == {};
  }
}
