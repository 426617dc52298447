/**
 * The attachment lifecycle that `sqlalchemy_media/tests/test_file.py` drives:
 * one record with one attachment column, a store manager scope over its
 * session, and the store the attachment content is written to.
 *
 * A `World` is the whole observable state at one moment. Every event the
 * tests issue (creating a record, assigning to the column, `attach`, deleting
 * the record, `commit`, `rollback`) is a function from one world to the next.
 * `Valid` is the invariant those events keep; its consequence is that content
 * becomes durable exactly when the transaction commits.
 */
module Lifecycle {
  import opened Common
  import opened PyObjects

  /** Attachment keys: fresh, distinct identifiers (a counter stands for uuid generation). */
  type Key = nat

  /** A store address. It is a function of the key and the extension alone. */
  datatype FileName = FileName(key: Key, extension: Option<string>)

  /** The metadata an attached `File` holds: exactly key, extension, contentType and length. */
  datatype Attachment = Attachment(key: Key, extension: Option<string>, contentType: Option<string>, length: nat)

  function PathOf(a: Attachment): FileName {
    FileName(a.key, a.extension)
  }

  /** The dictionary view of an attachment, as `assertDictEqual` sees it. */
  datatype MetaValue = Text(text: string) | Number(number: nat) | NoValue

  function TextOrNone(s: Option<string>): MetaValue {
    if s.Some? then Text(s.value) else NoValue
  }

  function AsDict(a: Attachment): map<string, MetaValue> {
    map["contentType" := TextOrNone(a.contentType), "key" := Number(a.key),
        "extension" := TextOrNone(a.extension), "length" := Number(a.length)]
  }

  /** An attachment type (`File` or a subclass) with its class-level length limits. */
  datatype AttachmentClass = AttachmentClass(cls: PyClass, minLength: Option<nat>, maxLength: Option<nat>)

  /** The attachment types the tests declare. */
  const FileType := AttachmentClass(PyClass("File", []), None, None)
  const LimitedFile := AttachmentClass(PyClass("LimitedFile", ["File"]), Some(20), Some(30))
  const MyAttachmentType := AttachmentClass(PyClass("MyAttachmentType", ["File"]), None, None)

  /** The value of the record's attachment column in memory or in its row. */
  datatype SlotValue =
    | Null
    | Empty(of: AttachmentClass)                      // a `File()` that holds no content yet
    | Attached(of: AttachmentClass, meta: Attachment) // a `File` whose content is in the store

  /** What application code assigns to the column: `None` or a fresh instance. */
  datatype Assignable = NoneValue | NewInstance(of: AttachmentClass)

  /**
   * Where the record stands with respect to the database: no record, added
   * to the session but never committed, committed, or marked by
   * `session.delete` and waiting for the commit.
   */
  datatype RecordState = Absent | Pending | Persistent | Deleted

  datatype LifecycleError =
    | TypeError(expected: string, got: string)
    | MinimumLengthIsNotReached(minimum: nat, length: nat)
    | MaximumLengthIsReached(maximum: nat, length: nat)

  /**
   * files            the store: every filename present, with its content
   * deleteOnCommit   superseded or detached content, removed when the session commits
   * deleteOnRollback content written in the current transaction, removed on rollback
   * column           the attachment type the column is declared with
   * slot, row        the column's value in memory and in the committed row
   * nextKey          the next fresh key
   */
  datatype World = World(
    files: map<FileName, seq<byte>>,
    deleteOnCommit: seq<FileName>,
    deleteOnRollback: seq<FileName>,
    column: AttachmentClass,
    record: RecordState,
    slot: SlotValue,
    row: SlotValue,
    nextKey: Key)

  /** A session with no record and an empty store. */
  function Initial(column: AttachmentClass): (w: World)
    ensures Valid(w) && w.files == map[] && w.record.Absent?
  {
    World(map[], [], [], column, Absent, Null, Null, 0)
  }

  function SlotFiles(v: SlotValue): set<FileName> {
    if v.Attached? then {PathOf(v.meta)} else {}
  }

  /** The files the application can still reach through the record in memory. */
  function LiveFiles(w: World): set<FileName> {
    if w.record.Pending? || w.record.Persistent? then SlotFiles(w.slot) else {}
  }

  /** The files the committed row refers to. */
  function RowFiles(w: World): set<FileName> {
    if w.record.Persistent? || w.record.Deleted? then SlotFiles(w.row) else {}
  }

  predicate Live(w: World) {
    w.record.Pending? || w.record.Persistent?
  }

  /** A column value that is well typed and whose content, if any, is in the store. */
  ghost predicate Stored(w: World, v: SlotValue) {
    && (v.Empty? ==> IsSubclass(v.of.cls, w.column.cls))
    && (v.Attached? ==>
          && IsSubclass(v.of.cls, w.column.cls)
          && PathOf(v.meta) in w.files
          && |w.files[PathOf(v.meta)]| == v.meta.length)
  }

  /**
   * The lifecycle invariant.
   *  - every key in use is older than `nextKey`, so a new key is fresh;
   *  - what the row and the record in memory refer to is in the store;
   *  - the store holds nothing but committed content and this transaction's writes;
   *  - whatever the record no longer refers to is queued for deletion on commit;
   *  - rollback never deletes committed content, commit never deletes live content.
   */
  ghost predicate Valid(w: World) {
    && (forall f :: f in w.files ==> f.key < w.nextKey)
    && (forall f :: f in w.deleteOnCommit ==> f.key < w.nextKey)
    && (forall f :: f in w.deleteOnRollback ==> f.key < w.nextKey)
    && (w.record.Absent? ==> w.slot.Null? && w.row.Null?)
    && (w.record.Pending? ==> w.row.Null?)
    && (Live(w) ==> Stored(w, w.slot))
    && (w.record.Persistent? || w.record.Deleted? ==> Stored(w, w.row))
    && w.files.Keys <= RowFiles(w) + SetOf(w.deleteOnRollback)
    && w.files.Keys - LiveFiles(w) <= SetOf(w.deleteOnCommit)
    && SetOf(w.deleteOnRollback) !! RowFiles(w)
    && SetOf(w.deleteOnCommit) !! LiveFiles(w)
  }

  /** The `TypeError` the column raises for an instance of another attachment type, if any. */
  function TypeCheck(column: AttachmentClass, v: Assignable): (e: Option<LifecycleError>)
    ensures e.Some? <==> v.NewInstance? && !IsSubclass(v.of.cls, column.cls)
    ensures e.Some? ==> e.value == TypeError(column.cls.name, v.of.cls.name)
  {
    if v.NewInstance? && !IsSubclass(v.of.cls, column.cls) then
      Some(TypeError(column.cls.name, v.of.cls.name))
    else
      None
  }

  function ValueOf(v: Assignable): SlotValue {
    if v.NoneValue? then Null else Empty(v.of)
  }

  /** The files a column value stops referring to when it is replaced. */
  function Superseded(v: SlotValue): seq<FileName> {
    if v.Attached? then [PathOf(v.meta)] else []
  }

  /** `Person(...)` added to the session, with the column's initial value. */
  function NewRecord(w: World, init: Assignable): (r: Result<World, LifecycleError>)
    requires Valid(w) && w.record.Absent?
    ensures r.Failure? <==> init.NewInstance? && !IsSubclass(init.of.cls, w.column.cls)
    ensures r.Failure? ==> r.error.TypeError?
    ensures r.Success? ==>
      && Valid(r.value)
      && r.value.record.Pending?
      && r.value.slot == (if init.NoneValue? then Null else Empty(init.of))
      && r.value.files == w.files
      && r.value.deleteOnCommit == w.deleteOnCommit && r.value.deleteOnRollback == w.deleteOnRollback
      && r.value.row == w.row && r.value.column == w.column
  {
    match TypeCheck(w.column, init)
    case Some(e) => Failure(e)
    case None => Success(w.(record := Pending, slot := ValueOf(init)))
  }

  /**
   * Assigning to the column (`person1.image = File()` or `= None`). The
   * column type is checked first, with nothing else touched; a value that is
   * replaced has its content queued for deletion on commit, never deleted now.
   */
  function Assign(w: World, v: Assignable): (r: Result<World, LifecycleError>)
    requires Valid(w) && Live(w)
    ensures r.Failure? <==> v.NewInstance? && !IsSubclass(v.of.cls, w.column.cls)
    ensures r.Failure? ==> r.error == TypeError(w.column.cls.name, v.of.cls.name)
    ensures r.Success? ==>
      && Valid(r.value)
      && r.value.files == w.files
      && r.value.slot == (if v.NoneValue? then Null else Empty(v.of))
      && (w.slot.Attached? ==> PathOf(w.slot.meta) in r.value.deleteOnCommit)
      && r.value.deleteOnRollback == w.deleteOnRollback
      && r.value.record == w.record && r.value.row == w.row && r.value.column == w.column
  {
    match TypeCheck(w.column, v)
    case Some(e) => Failure(e)
    case None =>
      SetOfAppend(w.deleteOnCommit, Superseded(w.slot));
      Success(w.(slot := ValueOf(v), deleteOnCommit := w.deleteOnCommit + Superseded(w.slot)))
  }

  /** The length validation of an attachment type, done before anything is written. */
  function LengthError(of: AttachmentClass, length: nat): (e: Option<LifecycleError>)
    ensures e.Some? <==>
      (of.minLength.Some? && length < of.minLength.value) ||
      (of.maxLength.Some? && length > of.maxLength.value)
    ensures e.Some? && e.value.MaximumLengthIsReached? ==>
      of.maxLength.Some? && length > of.maxLength.value && e.value == MaximumLengthIsReached(of.maxLength.value, length)
    ensures e.Some? && e.value.MinimumLengthIsNotReached? ==>
      of.minLength.Some? && length < of.minLength.value && e.value == MinimumLengthIsNotReached(of.minLength.value, length)
    ensures e.Some? ==> e.value.MaximumLengthIsReached? || e.value.MinimumLengthIsNotReached?
  {
    if of.minLength.Some? && length < of.minLength.value then
      Some(MinimumLengthIsNotReached(of.minLength.value, length))
    else if of.maxLength.Some? && length > of.maxLength.value then
      Some(MaximumLengthIsReached(of.maxLength.value, length))
    else
      None
  }

  /**
   * `attach(content, content_type, extension)` on the column's `File`. The
   * content is validated, then written at once under a fresh key; the new
   * file is queued for deletion on rollback, the one it replaces for
   * deletion on commit.
   */
  function Attach(w: World, content: seq<byte>, contentType: Option<string>, extension: Option<string>)
    : (r: Result<World, LifecycleError>)
    requires Valid(w) && Live(w) && !w.slot.Null?
    ensures r.Failure? <==> LengthError(w.slot.of, |content|).Some?
    ensures r.Failure? ==> r.error == LengthError(w.slot.of, |content|).value
    ensures r.Success? ==>
      && Valid(r.value)
      && r.value.record == w.record
      && r.value.slot.Attached?
      && r.value.slot.of == w.slot.of
      && r.value.slot.meta.length == |content|
      && r.value.slot.meta.contentType == contentType
      && r.value.slot.meta.extension == extension
      && AsDict(r.value.slot.meta).Keys == {"contentType", "key", "extension", "length"}
      && PathOf(r.value.slot.meta) !in w.files
      && r.value.files == w.files[PathOf(r.value.slot.meta) := content]
      && (w.slot.Attached? ==> PathOf(w.slot.meta) in r.value.deleteOnCommit)
      && r.value.row == w.row && r.value.column == w.column
  {
    match LengthError(w.slot.of, |content|)
    case Some(e) => Failure(e)
    case None =>
      var meta := Attachment(w.nextKey, extension, contentType, |content|);
      SetOfAppend(w.deleteOnCommit, Superseded(w.slot));
      SetOfAppend(w.deleteOnRollback, [PathOf(meta)]);
      Success(w.(files := w.files[PathOf(meta) := content],
                 deleteOnRollback := w.deleteOnRollback + [PathOf(meta)],
                 deleteOnCommit := w.deleteOnCommit + Superseded(w.slot),
                 slot := Attached(w.slot.of, meta),
                 nextKey := w.nextKey + 1))
  }

  /** `session.delete(record)`: the record's attachment is queued for deletion on commit. */
  function DeleteRecord(w: World): (r: World)
    requires Valid(w) && w.record.Persistent?
    ensures Valid(r)
    ensures r.record.Deleted? && r.files == w.files && r.row == w.row
    ensures SlotFiles(w.slot) <= SetOf(r.deleteOnCommit)
    ensures r.slot == w.slot && r.deleteOnRollback == w.deleteOnRollback && r.column == w.column
  {
    SetOfAppend(w.deleteOnCommit, Superseded(w.slot));
    w.(record := Deleted, deleteOnCommit := w.deleteOnCommit + Superseded(w.slot))
  }

  /** `files` with every queued filename removed; removing a missing file is no error. */
  function DeleteAll(files: map<FileName, seq<byte>>, queue: seq<FileName>): map<FileName, seq<byte>> {
    files - SetOf(queue)
  }

  /**
   * `session.commit()`: the record's value becomes its row, the queued
   * deletions run, and both queues are emptied. Afterwards the store holds
   * exactly the content the committed row refers to.
   */
  function Commit(w: World): (r: World)
    requires Valid(w)
    ensures Valid(r)
    ensures r.files.Keys == LiveFiles(w)
    ensures r.files.Keys == RowFiles(r)
    ensures r.deleteOnCommit == [] && r.deleteOnRollback == []
    ensures Live(w) ==> r.record.Persistent? && r.row == w.slot && r.slot == w.slot
    ensures !Live(w) ==> r.record.Absent?
    ensures forall f :: f in r.files ==> r.files[f] == w.files[f]
  {
    var files := DeleteAll(w.files, w.deleteOnCommit);
    match w.record
    case Absent => w.(files := files, deleteOnCommit := [], deleteOnRollback := [])
    case Deleted => w.(files := files, deleteOnCommit := [], deleteOnRollback := [],
                       record := Absent, slot := Null, row := Null)
    case _ => w.(files := files, deleteOnCommit := [], deleteOnRollback := [],
                 record := Persistent, row := w.slot)
  }

  /**
   * `session.rollback()`: this transaction's writes are deleted, the queued
   * commit-time deletions are dropped, and the record reads as its row again
   * (a record that was never committed is gone). The store is left holding
   * exactly the committed content, untouched.
   */
  function Rollback(w: World): (r: World)
    requires Valid(w)
    ensures Valid(r)
    ensures r.files.Keys == RowFiles(w)
    ensures r.files.Keys == RowFiles(r)
    ensures r.deleteOnCommit == [] && r.deleteOnRollback == []
    ensures w.record.Persistent? || w.record.Deleted? ==>
      r.record.Persistent? && r.slot == w.row && r.row == w.row
    ensures w.record.Absent? || w.record.Pending? ==> r.record.Absent?
    ensures forall f :: f in r.files ==> r.files[f] == w.files[f]
  {
    var files := DeleteAll(w.files, w.deleteOnRollback);
    match w.record
    case Persistent => w.(files := files, deleteOnCommit := [], deleteOnRollback := [], slot := w.row)
    case Deleted => w.(files := files, deleteOnCommit := [], deleteOnRollback := [],
                       record := Persistent, slot := w.row)
    case _ => w.(files := files, deleteOnCommit := [], deleteOnRollback := [],
                 record := Absent, slot := Null, row := Null)
  }
}
