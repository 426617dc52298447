/**
 * The four tests of `sqlalchemy_media/tests/test_file.py`, each replayed step
 * by step on a `StoreManager` of its own; each assertion of a test is an
 * `assert` here, and what the test ends with is the method's `ensures`.
 */
module Scenarios {
  import opened Common
  import opened Lifecycle
  import opened StoreManagement

  /** The bytes of an ASCII text. */
  function Ascii(s: string): (b: seq<byte>)
    requires forall i :: 0 <= i < |s| ==> s[i] as int < 256
    ensures |b| == |s|
  {
    seq(|s|, i requires 0 <= i < |s| => s[i] as int as byte)
  }

  /** `test_attachment`: the three parts below in one scope; the store ends empty. */
  method TestAttachment() returns (stored: map<FileName, seq<byte>>)
    ensures stored == map[]
  {
    var m := new StoreManager(FileType);
    var second := AttachTwiceThenCommit(m);
    ReattachCommitRollback(m, second);
    DeleteRecordAndSetNull(m);
    stored := m.files;
  }

  /** Lines 30 to 58: a new record attached twice, then committed. */
  method AttachTwiceThenCommit(m: StoreManager) returns (committed: FileName)
    requires m.Valid() && m.record.Absent? && m.column == FileType
    modifies m
    ensures m.Valid() && m.record.Persistent? && m.slot == m.row && m.slot.Attached?
    ensures m.files.Keys == {PathOf(m.slot.meta)} && committed == PathOf(m.slot.meta) && m.slot.of == FileType
  {
    var r := m.NewRecord(NoneValue);
    assert m.slot == Null;
    r := m.Assign(NewInstance(FileType));
    var sample := Ascii("Simple text.");

    // First file before commit
    r := m.Attach(sample, Some("text/plain"), Some(".txt"));
    assert r == Pass && m.slot.Attached?;
    assert AsDict(m.slot.meta) == map["contentType" := Text("text/plain"), "key" := Number(m.slot.meta.key),
                                      "extension" := Text(".txt"), "length" := Number(12)];
    var first := PathOf(m.slot.meta);
    assert first in m.files;

    // Second file before commit
    r := m.Attach(sample, Some("text/plain"), Some(".txt"));
    var second := PathOf(m.slot.meta);
    assert second in m.files;

    m.Commit();
    assert first !in m.files;
    assert second in m.files;
    committed := second;
  }

  /** Lines 60 to 86: re-attach a committed value, commit, attach again, roll back. */
  method ReattachCommitRollback(m: StoreManager, second: FileName)
    requires m.Valid() && m.record.Persistent? && m.slot == m.row && m.slot.Attached?
    requires PathOf(m.slot.meta) == second && m.slot.of == FileType
    modifies m
    ensures m.Valid() && m.record.Persistent? && m.slot == m.row && m.slot.Attached?
    ensures m.files.Keys == {PathOf(m.slot.meta)} && m.slot.of == FileType
  {
    var sample := Ascii("Lorem ipsum dolor sit amet");
    var r := m.Attach(sample, Some("text/plain"), Some(".txt"));
    assert r == Pass && m.slot.Attached? && m.slot.of == FileType;
    assert AsDict(m.slot.meta) == map["contentType" := Text("text/plain"), "key" := Number(m.slot.meta.key),
                                      "extension" := Text(".txt"), "length" := Number(26)];
    var third := PathOf(m.slot.meta);
    assert second in m.files && third in m.files;

    m.Commit();
    assert second !in m.files;
    assert third in m.files;

    // Rollback
    r := m.Attach(sample, Some("text/plain"), Some(".txt"));
    var fourth := PathOf(m.slot.meta);
    assert fourth in m.files;
    m.Rollback();
    assert third in m.files;
    assert fourth !in m.files;
  }

  /** Lines 88 to 104: delete the record and commit; then attach on a new record, set it to None, commit. */
  method DeleteRecordAndSetNull(m: StoreManager)
    requires m.Valid() && m.record.Persistent? && m.slot == m.row && m.slot.Attached?
    requires m.files.Keys == {PathOf(m.slot.meta)} && m.column == FileType
    modifies m
    ensures m.Valid() && m.files == map[]
  {
    var third := PathOf(m.slot.meta);
    m.DeleteRecord();
    m.Commit();
    assert third !in m.files;

    var r := m.NewRecord(NoneValue);
    assert m.slot == Null;
    r := m.Assign(NewInstance(FileType));
    r := m.Attach(Ascii("Lorem ipsum dolor sit amet"), Some("text/plain"), Some(".txt"));
    var fifth := PathOf(m.slot.meta);
    r := m.Assign(NoneValue);
    assert fifth in m.files;
    m.Commit();
    assert fifth !in m.files;
  }

  /** The two contents `test_file_size_limit` attaches. */
  method SizeLimitSamples() returns (short: seq<byte>, long: seq<byte>)
    ensures |short| == 19 && |long| == 31
  {
    short := Ascii("less than 20 chars!");
    long := Ascii("more than 30 chars!............");
  }

  /** Lines 119 to 120: a record whose column holds an empty `LimitedFile()`. */
  method NewLimitedRecord() returns (m: StoreManager)
    ensures fresh(m) && m.Valid() && m.column == LimitedFile && m.record.Pending?
    ensures m.slot == Empty(LimitedFile) && m.files == map[]
  {
    m := new StoreManager(LimitedFile);
    var r := m.NewRecord(NoneValue);
    r := m.Assign(NewInstance(LimitedFile));
  }

  /** `test_file_size_limit`: 19 bytes and 31 bytes are refused and nothing is written. */
  method TestFileSizeLimit()
    returns (tooShort: Outcome<LifecycleError>, tooLong: Outcome<LifecycleError>, stored: map<FileName, seq<byte>>)
    ensures tooShort == Fail(MinimumLengthIsNotReached(20, 19))
    ensures tooLong == Fail(MaximumLengthIsReached(30, 31))
    ensures stored == map[]
  {
    var short, long := SizeLimitSamples();
    var m := NewLimitedRecord();
    tooShort := m.Attach(short, None, None);
    assert m.slot == Empty(LimitedFile) && m.files == map[];
    tooLong := m.Attach(long, None, None);
    stored := m.files;
  }

  /** `test_attribute_type_assertion`: a base `File` is refused by a subclass column. */
  method TestAttributeTypeAssertion() returns (r: Outcome<LifecycleError>, slot: SlotValue)
    ensures r == Fail(TypeError("MyAttachmentType", "File"))
    ensures slot == Null
  {
    var m := new StoreManager(MyAttachmentType);
    r := m.NewRecord(NoneValue);
    r := m.Assign(NewInstance(FileType));
    slot := m.slot;
  }

  /** `test_model_constructor`: `Person(cv=File())`, attach, commit. */
  method TestModelConstructor() returns (row: SlotValue, stored: map<FileName, seq<byte>>)
    ensures row.Attached? && row.of == FileType && row.meta.length == 11
    ensures stored == map[PathOf(row.meta) := Ascii("Simple text")]
  {
    var m := new StoreManager(FileType);
    var r := m.NewRecord(NewInstance(FileType));
    assert r == Pass && m.slot == Empty(FileType);
    r := m.Attach(Ascii("Simple text"), None, None);
    assert r == Pass;
    m.Commit();
    row, stored := m.row, m.files;
  }
}
