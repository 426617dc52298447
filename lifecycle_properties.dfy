/**
 * The steps of `sqlalchemy_media/tests/test_file.py`, each stated for every
 * world that satisfies the lifecycle invariant rather than for the one state
 * the test happens to reach.
 */
module LifecycleProperties {
  import opened Common
  import opened PyObjects
  import opened Lifecycle

  /** A valid world whose record is live and whose column holds a `File` instance. */
  ghost predicate CanAttach(w: World) {
    Valid(w) && Live(w) && !w.slot.Null?
  }

  /** Content the column's attachment type accepts. */
  ghost predicate Acceptable(w: World, content: seq<byte>) {
    CanAttach(w) && LengthError(w.slot.of, |content|).None?
  }

  /**
   * After `attach` the column's value is exactly {contentType, key, extension,
   * length} with the content's length, and the file is already in the store.
   */
  lemma AttachWritesEagerly(w: World, content: seq<byte>, contentType: string, extension: string)
    requires Acceptable(w, content)
    ensures var r := Attach(w, content, Some(contentType), Some(extension));
      && r.Success?
      && r.value.slot.Attached?
      && AsDict(r.value.slot.meta) == map["contentType" := Text(contentType), "key" := Number(r.value.slot.meta.key),
                                          "extension" := Text(extension), "length" := Number(|content|)]
      && PathOf(r.value.slot.meta) in r.value.files
      && r.value.files[PathOf(r.value.slot.meta)] == content
  {
  }

  /**
   * A new record attached twice before its first commit: both files exist
   * until the commit, which removes the first and keeps the second.
   */
  lemma AttachTwiceBeforeFirstCommit(w: World, c1: seq<byte>, c2: seq<byte>, ct: Option<string>, ext: Option<string>)
    requires Acceptable(w, c1) && LengthError(w.slot.of, |c2|).None?
    requires w.record.Pending? && w.slot.Empty?
    ensures var w1 := Attach(w, c1, ct, ext).value;
      var w2 := Attach(w1, c2, ct, ext).value;
      var first := PathOf(w1.slot.meta);
      var second := PathOf(w2.slot.meta);
      && first != second
      && first in w2.files && second in w2.files
      && first !in Commit(w2).files
      && second in Commit(w2).files
      && Commit(w2).files[second] == c2
      && Commit(w2).row == w2.slot
  {
    var w1 := Attach(w, c1, ct, ext).value;
    assert Acceptable(w1, c2);
    var w2 := Attach(w1, c2, ct, ext).value;
    assert LiveFiles(w2) == {PathOf(w2.slot.meta)};
  }

  /**
   * Re-attaching a committed value: the old and the new file are both present
   * until commit; the commit deletes the old one and keeps the new one.
   */
  lemma ReattachCommitted(w: World, c: seq<byte>, ct: Option<string>, ext: Option<string>)
    requires Acceptable(w, c)
    requires w.record.Persistent? && w.slot.Attached? && w.slot == w.row
    ensures var w1 := Attach(w, c, ct, ext).value;
      var old_ := PathOf(w.slot.meta);
      var new_ := PathOf(w1.slot.meta);
      && old_ in w1.files && new_ in w1.files
      && old_ !in Commit(w1).files
      && new_ in Commit(w1).files
  {
    var w1 := Attach(w, c, ct, ext).value;
    assert LiveFiles(w1) == {PathOf(w1.slot.meta)};
  }

  /**
   * Rollback after re-attaching a committed value deletes the file just
   * written, keeps the committed file, and the record reads as its row.
   */
  lemma RollbackAttach(w: World, c: seq<byte>, ct: Option<string>, ext: Option<string>)
    requires Acceptable(w, c)
    requires w.record.Persistent? && w.row.Attached?
    ensures var w1 := Attach(w, c, ct, ext).value;
      var committed := PathOf(w.row.meta);
      var written := PathOf(w1.slot.meta);
      && written in w1.files
      && written !in Rollback(w1).files
      && committed in Rollback(w1).files
      && Rollback(w1).files[committed] == w.files[committed]
      && Rollback(w1).slot == w.row
  {
    var w1 := Attach(w, c, ct, ext).value;
    assert RowFiles(w1) == {PathOf(w.row.meta)};
  }

  /**
   * A resolved scope is clean, so the same scope can go on: once committed or
   * rolled back, a further commit or rollback changes nothing.
   */
  lemma ResolvedScopeIsClean(w: World)
    requires Valid(w)
    ensures Commit(Commit(w)) == Commit(w)
    ensures Rollback(Commit(w)) == Commit(w)
    ensures Commit(Rollback(w)) == Rollback(w)
    ensures Rollback(Rollback(w)) == Rollback(w)
  {
    var c := Commit(w);
    assert DeleteAll(c.files, []) == c.files;
    var r := Rollback(w);
    assert DeleteAll(r.files, []) == r.files;
  }

  /** Deleting the committed record and committing deletes its attachment's file. */
  lemma DeleteRecordThenCommit(w: World)
    requires Valid(w) && w.record.Persistent? && w.slot.Attached?
    ensures PathOf(w.slot.meta) in DeleteRecord(w).files
    ensures PathOf(w.slot.meta) !in Commit(DeleteRecord(w)).files
    ensures Commit(DeleteRecord(w)).record.Absent?
    ensures Commit(DeleteRecord(w)).files == map[]
  {
  }

  /** Setting an attached column to `None` keeps the file until the commit, which removes it. */
  lemma SetNoneThenCommit(w: World)
    requires Valid(w) && Live(w) && w.slot.Attached?
    ensures Assign(w, NoneValue).Success?
    ensures PathOf(w.slot.meta) in Assign(w, NoneValue).value.files
    ensures PathOf(w.slot.meta) !in Commit(Assign(w, NoneValue).value).files
    ensures Commit(Assign(w, NoneValue).value).row == Null
  {
  }

  /** `LimitedFile` (20 to 30 bytes) refuses 19 bytes and 31 bytes, and accepts the bounds themselves. */
  lemma LimitedFileBounds(w: World, content: seq<byte>)
    requires CanAttach(w) && w.slot.of == LimitedFile
    ensures |content| == 19 ==> Attach(w, content, None, None) == Failure(MinimumLengthIsNotReached(20, 19))
    ensures |content| == 31 ==> Attach(w, content, None, None) == Failure(MaximumLengthIsReached(30, 31))
    ensures Attach(w, content, None, None).Success? <==> 20 <= |content| <= 30
  {
  }

  /**
   * A base `File` assigned to a column declared for a subclass raises
   * `TypeError`, whether at assignment or through the record's constructor;
   * a subclass instance is accepted by a base-class column.
   */
  lemma SubclassColumnRejectsBaseFile(w: World)
    requires Valid(w)
    ensures w.column == MyAttachmentType && Live(w) ==>
      Assign(w, NewInstance(FileType)) == Failure(TypeError("MyAttachmentType", "File"))
    ensures w.column == MyAttachmentType && w.record.Absent? ==>
      NewRecord(w, NewInstance(FileType)) == Failure(TypeError("MyAttachmentType", "File"))
    ensures w.column == FileType && Live(w) ==> Assign(w, NewInstance(MyAttachmentType)).Success?
  {
  }

  /** `Person(cv=File())` followed by an attach and a commit keeps the content under the row. */
  lemma ConstructorValueAttachCommit(content: seq<byte>)
    ensures var w1 := NewRecord(Initial(FileType), NewInstance(FileType));
      w1.Success? && w1.value.slot == Empty(FileType) &&
      var w2 := Attach(w1.value, content, None, None);
      w2.Success? &&
      var w3 := Commit(w2.value);
      w3.row.Attached? && w3.row.meta.length == |content| &&
      w3.files == map[PathOf(w3.row.meta) := content]
  {
    var w1 := NewRecord(Initial(FileType), NewInstance(FileType)).value;
    var w2 := Attach(w1, content, None, None).value;
    assert LiveFiles(w2) == {PathOf(w2.slot.meta)};
  }

  /** A sequence of attaches in one scope, all accepted. */
  function AttachAll(w: World, contents: seq<seq<byte>>): (r: World)
    requires CanAttach(w)
    requires forall i :: 0 <= i < |contents| ==> LengthError(w.slot.of, |contents[i]|).None?
    ensures CanAttach(r) && r.record == w.record && r.slot.of == w.slot.of && r.row == w.row
    ensures contents != [] ==> r.slot.Attached? && r.slot.meta.length == |contents[|contents| - 1]|
    ensures contents == [] ==> r == w
    decreases |contents|
  {
    if contents == [] then w
    else
      var r := Attach(w, contents[0], None, None).value;
      AttachAll(r, contents[1..])
  }

  /** One accepted attach followed by a commit leaves just that attach's file, holding its content. */
  lemma AttachThenCommit(w: World, content: seq<byte>)
    requires Acceptable(w, content)
    ensures var r := Attach(w, content, None, None).value;
      && Commit(r).files.Keys == {PathOf(r.slot.meta)}
      && Commit(r).files[PathOf(r.slot.meta)] == content
  {
    var r := Attach(w, content, None, None).value;
    assert LiveFiles(r) == {PathOf(r.slot.meta)};
  }

  /**
   * However many attaches one scope makes, the commit leaves exactly the
   * last one's file in the store, and a rollback leaves exactly the committed
   * files, with the record reading as its row.
   */
  lemma {:induction false} OnlyLastAttachSurvivesCommit(w: World, contents: seq<seq<byte>>)
    requires CanAttach(w) && contents != []
    requires forall i :: 0 <= i < |contents| ==> LengthError(w.slot.of, |contents[i]|).None?
    ensures var r := AttachAll(w, contents);
      && Commit(r).files.Keys == {PathOf(r.slot.meta)}
      && Commit(r).files[PathOf(r.slot.meta)] == contents[|contents| - 1]
    decreases |contents|
  {
    if |contents| == 1 {
      var r := Attach(w, contents[0], None, None).value;
      assert AttachAll(w, contents) == AttachAll(r, contents[1..]) == r;
      AttachThenCommit(w, contents[0]);
    } else {
      var r := Attach(w, contents[0], None, None).value;
      var rest := contents[1..];
      assert CanAttach(r) && r.slot.of == w.slot.of;
      assert forall i :: 0 <= i < |rest| ==> rest[i] == contents[i + 1];
      OnlyLastAttachSurvivesCommit(r, rest);
      assert AttachAll(w, contents) == AttachAll(r, rest);
      assert rest[|rest| - 1] == contents[|contents| - 1];
    }
  }

  lemma {:induction false} AttachesUndoneByRollback(w: World, contents: seq<seq<byte>>)
    requires CanAttach(w)
    requires forall i :: 0 <= i < |contents| ==> LengthError(w.slot.of, |contents[i]|).None?
    ensures var r := AttachAll(w, contents);
      && Rollback(r).files.Keys == RowFiles(w)
      && (forall f :: f in Rollback(r).files ==> Rollback(r).files[f] == w.files[f])
      && (w.record.Persistent? ==> Rollback(r).slot == w.row)
      && (w.record.Pending? ==> Rollback(r).files == map[])
    decreases |contents|
  {
    if contents != [] {
      var r := Attach(w, contents[0], None, None).value;
      assert forall i :: 0 <= i < |contents[1..]| ==> contents[1..][i] == contents[i + 1];
      AttachesUndoneByRollback(r, contents[1..]);
    }
  }
}
