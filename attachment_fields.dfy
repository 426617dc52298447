/**
 * `FileField` of `sqlalchemy_media/attachmentfields.py`: a string column that
 * stores an attachment in its encoded form. The constructor only records its
 * arguments, so the field is an immutable configuration value; binding and
 * loading are functions of it.
 */
module AttachmentFields {
  import opened Common
  import opened PyObjects

  /** The default attachment type. Its own base classes are not part of this model. */
  const StringFile := PyClass("StringFile", [])
  const DefaultLength: nat := 255

  /** A keyword argument of the constructor: left out, or passed (possibly as `None`). */
  datatype Arg<T> = Omitted | Passed(value: T)

  /**
   * The arguments a field keeps. `None` is Python's `None`: for the attachment
   * type it is what an explicit `attachment_type=None` stores, for the length an
   * unbounded `String` column.
   */
  datatype FileField = FileField(
    directory: Option<string>,
    imageStore: Option<string>,
    processors: Option<seq<string>>,
    attachmentType: Option<PyClass>,
    length: Option<nat>)

  /**
   * `FileField(directory, image_store, processors, attachment_type, length)`.
   * The first three default to `None`, so leaving them out and passing `None`
   * agree. The default `StringFile` and 255 apply only when the argument is
   * left out; a `None` passed explicitly is stored as it is.
   */
  function NewFileField(directory: Option<string>, imageStore: Option<string>, processors: Option<seq<string>>,
                        attachmentType: Arg<Option<PyClass>>, length: Arg<Option<nat>>): (f: FileField)
    ensures f.directory == directory && f.imageStore == imageStore && f.processors == processors
    ensures attachmentType.Omitted? ==> f.attachmentType == Some(StringFile)
    ensures attachmentType.Passed? ==> f.attachmentType == attachmentType.value
    ensures length.Omitted? ==> f.length == Some(255)
    ensures length.Passed? ==> f.length == length.value
  {
    FileField(directory, imageStore, processors,
      if attachmentType.Passed? then attachmentType.value else Some(StringFile),
      if length.Passed? then length.value else Some(DefaultLength))
  }

  /**
   * A Python value as `process_bind_param` sees it: its class, its truth
   * value, and the string its `encode()` returns (the encoding itself is not
   * part of this model).
   */
  datatype PyValue = PyValue(cls: PyClass, truthy: bool, encoded: string)

  const PyNone := PyValue(PyClass("NoneType", []), false, "")

  /**
   * What the field raises: `ValueError` for a value of the wrong type;
   * `TypeError` from `isinstance` and `AttributeError` from `None.decode`
   * when the attachment type is `None`.
   */
  datatype FieldError =
    | ValueError(expected: string, got: string)
    | TypeError
    | AttributeError

  /**
   * `process_bind_param`: a falsy value becomes NULL whatever its type, a
   * truthy value of another type raises `ValueError`, and an attachment of
   * the configured type is stored as its encoding. With no attachment type,
   * `isinstance` itself raises `TypeError` for a truthy value.
   */
  function ProcessBindParam(field: FileField, value: PyValue): (r: Result<Option<string>, FieldError>)
    ensures r == Success(None) <==> !value.truthy
    ensures r == Failure(TypeError) <==> value.truthy && field.attachmentType.None?
    ensures r.Failure? && r.error.ValueError? <==>
      value.truthy && field.attachmentType.Some? && !IsSubclass(value.cls, field.attachmentType.value)
    ensures r.Failure? && r.error.ValueError? ==>
      r.error == ValueError(field.attachmentType.value.name, value.cls.name)
    ensures r.Success? && r.value.Some? <==>
      value.truthy && field.attachmentType.Some? && IsSubclass(value.cls, field.attachmentType.value)
    ensures r.Success? && r.value.Some? ==> r.value.value == value.encoded
  {
    if !value.truthy then Success(None)
    else if field.attachmentType.None? then Failure(TypeError)
    else if !IsSubclass(value.cls, field.attachmentType.value) then
      Failure(ValueError(field.attachmentType.value.name, value.cls.name))
    else Success(Some(value.encoded))
  }

  /** The call `process_result_value` delegates to: `attachment_type.decode(value, store, directory, processors)`. */
  datatype DecodeCall = DecodeCall(
    attachmentType: PyClass,
    value: Option<string>,
    store: Option<string>,
    directory: Option<string>,
    processors: Option<seq<string>>)

  /**
   * `process_result_value`: the column value, NULL included, is handed to the
   * attachment type's `decode` together with the field's store, directory and
   * processors; with no attachment type the lookup of `decode` fails.
   */
  function ProcessResultValue(field: FileField, value: Option<string>): (r: Result<DecodeCall, FieldError>)
    ensures r.Failure? <==> field.attachmentType.None?
    ensures r.Failure? ==> r.error == AttributeError
    ensures r.Success? ==>
      && r.value.attachmentType == field.attachmentType.value
      && r.value.value == value
      && r.value.store == field.imageStore
      && r.value.directory == field.directory
      && r.value.processors == field.processors
  {
    if field.attachmentType.None? then Failure(AttributeError)
    else Success(DecodeCall(field.attachmentType.value, value, field.imageStore, field.directory, field.processors))
  }

  /**
   * Loading a column of a field built from given arguments decodes with
   * exactly those arguments, and with `StringFile` when no type was given;
   * it fails only for an explicit `attachment_type=None`.
   */
  lemma ResultValueUsesConstructorArguments(directory: Option<string>, imageStore: Option<string>,
                                            processors: Option<seq<string>>, attachmentType: Arg<Option<PyClass>>,
                                            length: Arg<Option<nat>>, value: Option<string>)
    ensures var r := ProcessResultValue(NewFileField(directory, imageStore, processors, attachmentType, length), value);
      && (r.Success? <==> attachmentType != Passed(None))
      && (r.Success? ==>
      && r.value.value == value
      && r.value.store == imageStore && r.value.directory == directory && r.value.processors == processors
      && r.value.attachmentType == (if attachmentType.Passed? then attachmentType.value.value else StringFile))
  {
  }

  /**
   * A field given `attachment_type=None` still binds falsy values to NULL,
   * but binding any other value and loading any column value raise.
   */
  lemma ExplicitNoneTypeFails(value: PyValue, column: Option<string>, length: Arg<Option<nat>>)
    ensures var field := NewFileField(None, None, None, Passed(None), length);
      && ProcessBindParam(field, value) == (if value.truthy then Failure(TypeError) else Success(None))
      && ProcessResultValue(field, column) == Failure(AttributeError)
  {
  }

  /**
   * Binding on a field built for an attachment type: an instance of a
   * subclass is encoded like one of the type itself.
   */
  lemma BindParamAcceptsSubclasses(field: FileField, value: PyValue)
    requires value.truthy && field.attachmentType.Some? && field.attachmentType.value.name in value.cls.ancestors
    ensures ProcessBindParam(field, value) == Success(Some(value.encoded))
  {
  }

  /** `None`, the empty string and an empty attachment all bind to NULL, even if of another type. */
  lemma FalsyBindsToNull(field: FileField, cls: PyClass, encoded: string)
    ensures ProcessBindParam(field, PyNone) == Success(None)
    ensures ProcessBindParam(field, PyValue(cls, false, encoded)) == Success(None)
  {
  }
}
