# sqlalchemy-media attachments, modelled in Dafny

This project models three pieces of sqlalchemy-media. The library keeps file
attachments in an external store and their metadata in a database column, and
it keeps the two in step across commits and rollbacks.

- **The attachment lifecycle**, as `sqlalchemy_media/tests/test_file.py` drives it. A
  `StoreManager` scope over a session tracks one record with one attachment
  column. The events are: create the record, assign to the column, `attach`,
  delete the record, commit and roll back. The state is:
  - the store, as a map from filename to content;
  - the column's value, both in memory and in the committed row;
  - a queue of files to delete on commit, holding superseded or detached content;
  - a queue of files to delete on rollback, holding content written in the current transaction.

  `Lifecycle` states each event as a function on a `World` value. Its `Valid`
  invariant is kept by every event, and the main results rest on it:
  - after a commit, the store holds exactly the files the committed row refers to;
  - after a rollback, the store holds exactly the files the row referred to before;
  - no committed file is deleted before the commit, and none is ever leaked.

  `StoreManagement.StoreManager` is the same state machine as an object. Its
  fields are updated in place, and its commit and rollback delete queued files
  one at a time in a loop. Each method is proved to move the object as the
  matching `Lifecycle` function moves a world. `LifecycleProperties` proves each
  test step for every valid world. `Scenarios` replays each of the four tests
  (`test_attachment`, `test_file_size_limit`, `test_attribute_type_assertion`
  and `test_model_constructor`) on a `StoreManager` of its own, with the
  test's checks as `assert`s and what it ends with as `ensures`.
- **The S3 store's configuration and URL logic** (`sqlalchemy_media/stores/s3boto3.py`):
  - how `base_url`, the policy, the storage class and the resource keyword arguments are chosen;
  - the trailing-slash normalisation of `cdn_url`;
  - the `ExtraArgs` map of an upload;
  - the length `put` reports, which is the stream's declared `content_length`
    (0 when the attribute is missing, `None` when it holds `None`), not the
    length of what is uploaded;
  - `locate`.

  The bucket is a map from filename to the uploaded object.
- **`FileField`** (`sqlalchemy_media/attachmentfields.py`). Its configuration
  is an immutable value. `process_bind_param` and `process_result_value` are
  functions of it. A keyword argument left out and one passed as `None` are
  told apart: the defaults `StringFile` and 255 apply only to the first.

Files: `common.dfy` (Option/Result, bytes, the `isinstance` view of Python
classes), `lifecycle.dfy`, `lifecycle_properties.dfy`, `store_manager.dfy`,
`scenarios.dfy`, `s3boto3_store.dfy`, `attachment_fields.dfy`.

Modelling choices:
- **Keys.** A counter stands for uuid generation. A filename is the pair of
  key and extension, so distinct attachments never share a path.
- **Length validation.** It runs before anything is written, and a refused
  attach changes nothing. The tests show only the exception. The `attach`
  implementation is not part of this model, so the model takes validation to be
  side-effect free. The comparisons are strict, so the bounds themselves
  are accepted: 20 and 30 bytes both pass `LimitedFile`.
- **Attaching twice before the first commit.** The first file is deleted at
  commit time, through the commit queue. Deleting it at once would also be
  sound, because it was never visible outside the scope. The test only checks
  after the commit, where both readings agree (`test_file.py:57`). The model
  follows the queue behaviour.
- **What the S3 code does, as written:**
  - The policy defaults to a non-empty string, so `ACL` is always sent:
    `S3Boto3Store.UploadParameters` proves this for every constructed store.
  - `storage_class` is stored, but `_upload_file` never sends it. `StorageClass`
    appears only through `reduced_redundancy`.
  - A `cdn_url` made only of slashes becomes `''`, and `locate` then falls back
    to `base_url`.

## Model

| member | source | states |
|---|---|---|
| `Lifecycle.Initial` | sqlalchemy_media/tests/test_file.py:27-35 | a fresh session scope satisfies the lifecycle invariant: empty store, no record |
| `Lifecycle.TypeCheck` | sqlalchemy_media/tests/test_file.py:129-143 | a `TypeError` (payload: the model's class names) arises exactly for an instance whose class is not the column's class or a subclass of it; `None` is never refused |
| `Lifecycle.NewRecord` | sqlalchemy_media/tests/test_file.py:145-158 | a record created with a value of the wrong type is refused with a `TypeError`; otherwise it is pending with that value, the store is untouched and the invariant holds |
| `Lifecycle.Assign` | sqlalchemy_media/tests/test_file.py:94-104 | assignment refuses a wrong type, and only then; it never touches the store; the replaced attachment's file is queued for deletion on commit; the record, the committed row and the column type stay as they were |
| `Lifecycle.LengthError` | sqlalchemy_media/tests/test_file.py:106-127 | an error arises exactly when the length is below `min_length` or above `max_length`, as MinimumLengthIsNotReached or MaximumLengthIsReached (carrying, as the model's choice, the limit and the length) |
| `Lifecycle.Attach` | sqlalchemy_media/tests/test_file.py:38-47 | a refused attach happens exactly on a length error; an accepted one writes the content at once under a path not in the store, sets the column to exactly {contentType, key, extension, length = content length}, queues the replaced file for commit, leaves the committed row and the column type alone, and keeps the invariant |
| `Lifecycle.DeleteRecord` | sqlalchemy_media/tests/test_file.py:88-92 | deleting the record keeps its files until the commit and queues the attachment's file for deletion on commit |
| `Lifecycle.Commit` | sqlalchemy_media/tests/test_file.py:75-78 | after a commit the store holds exactly the files the record referred to, which are now exactly the committed row's; contents are unchanged; the queues are empty; the invariant holds |
| `Lifecycle.Rollback` | sqlalchemy_media/tests/test_file.py:80-86 | after a rollback the store holds exactly the committed files, with unchanged contents; the record reads as its row; a never-committed record is gone; the queues are empty |
| `LifecycleProperties.AttachWritesEagerly` | sqlalchemy_media/tests/test_file.py:38-47 | after attach the column's dictionary is exactly contentType, key, extension and length = content length, and the store already holds that content at the column's path |
| `LifecycleProperties.AttachTwiceBeforeFirstCommit` | sqlalchemy_media/tests/test_file.py:50-58 | attaching a new record twice before its first commit gives two distinct files, both present; the commit removes the first and keeps the second as the row's |
| `LifecycleProperties.ReattachCommitted` | sqlalchemy_media/tests/test_file.py:61-78 | re-attaching a committed value leaves the old and the new file present until commit; the commit deletes the old one and keeps the new one |
| `LifecycleProperties.RollbackAttach` | sqlalchemy_media/tests/test_file.py:80-86 | rollback after an attach deletes the newly written file, keeps the committed file with its content, and restores the column to the row's value |
| `LifecycleProperties.ResolvedScopeIsClean` | sqlalchemy_media/tests/test_file.py:35-104 | once a scope is committed or rolled back, a further commit or rollback changes nothing, so the same scope goes on from a clean state |
| `LifecycleProperties.DeleteRecordThenCommit` | sqlalchemy_media/tests/test_file.py:88-92 | deleting the record keeps its file until commit; the commit removes it and leaves no record and an empty store |
| `LifecycleProperties.SetNoneThenCommit` | sqlalchemy_media/tests/test_file.py:94-104 | setting an attached column to None keeps the file until the commit, which removes it and commits NULL |
| `LifecycleProperties.LimitedFileBounds` | sqlalchemy_media/tests/test_file.py:106-127 | for `LimitedFile` (20..30), 19 bytes raise MinimumLengthIsNotReached(20, 19), 31 bytes raise MaximumLengthIsReached(30, 31), and attach succeeds exactly for 20..30 bytes |
| `LifecycleProperties.SubclassColumnRejectsBaseFile` | sqlalchemy_media/tests/test_file.py:129-143 | a base `File` assigned to a `MyAttachmentType` column raises TypeError, both at assignment and through the constructor; a subclass instance is accepted by a `File` column |
| `LifecycleProperties.ConstructorValueAttachCommit` | sqlalchemy_media/tests/test_file.py:145-158 | `Person(cv=File())`, attach and commit leave the row's attachment with the content's length as the only file in the store |
| `LifecycleProperties.AttachThenCommit` | sqlalchemy_media/tests/test_file.py:145-158 | one accepted attach followed by a commit leaves exactly that attach's file in the store, holding the attached content |
| `LifecycleProperties.AttachAll` | sqlalchemy_media/tests/test_file.py:37-52 | a run of accepted attaches keeps the invariant, the record and the row; the column ends holding the last content's length |
| `LifecycleProperties.OnlyLastAttachSurvivesCommit` | sqlalchemy_media/tests/test_file.py:37-58 | after any non-empty run of attaches in one scope, the commit leaves exactly the last attach's file, holding the last content |
| `LifecycleProperties.AttachesUndoneByRollback` | sqlalchemy_media/tests/test_file.py:80-86 | after any run of attaches, rollback leaves exactly the committed files with their contents; a committed record reads as its row; a new record leaves an empty store |
| `StoreManagement.StoreManager.constructor` | sqlalchemy_media/tests/test_file.py:27-35 | a new scope is the initial world and satisfies the invariant |
| `StoreManagement.StoreManager.NewRecord` | sqlalchemy_media/tests/test_file.py:30-33 | moves the object as `Lifecycle.NewRecord`; a refusal changes nothing |
| `StoreManagement.StoreManager.Assign` | sqlalchemy_media/tests/test_file.py:97-100 | moves the object as `Lifecycle.Assign`; a refused assignment changes nothing |
| `StoreManagement.StoreManager.Attach` | sqlalchemy_media/tests/test_file.py:38-52 | moves the object as `Lifecycle.Attach`; a refused attach changes nothing |
| `StoreManagement.StoreManager.DeleteRecord` | sqlalchemy_media/tests/test_file.py:89-90 | moves the object as `Lifecycle.DeleteRecord` and keeps the invariant |
| `StoreManagement.StoreManager.Commit` | sqlalchemy_media/tests/test_file.py:55-58 | moves the object as `Lifecycle.Commit`, deleting the queued files one at a time |
| `StoreManagement.StoreManager.Rollback` | sqlalchemy_media/tests/test_file.py:84-86 | moves the object as `Lifecycle.Rollback`, deleting this transaction's files one at a time |
| `StoreManagement.DeleteQueued` | sqlalchemy_media/tests/test_file.py:56-57 | popping a queue and deleting each file leaves the store minus every queued filename; a file already gone is skipped |
| `Scenarios.TestAttachment` | sqlalchemy_media/tests/test_file.py:19-104 | the whole `test_attachment` on one scope, from a new record to the final commit, leaves the store empty |
| `Scenarios.AttachTwiceThenCommit` | sqlalchemy_media/tests/test_file.py:30-58 | the test's first steps on one object: two attaches, then a commit leaving only the second file, as the row's |
| `Scenarios.ReattachCommitRollback` | sqlalchemy_media/tests/test_file.py:60-86 | the test's middle steps: re-attach and commit, then attach and roll back, ending with only the committed third file |
| `Scenarios.DeleteRecordAndSetNull` | sqlalchemy_media/tests/test_file.py:88-104 | the test's last steps: delete the record and commit, then attach on a new record, set it to None and commit, ending with an empty store |
| `Scenarios.NewLimitedRecord` | sqlalchemy_media/tests/test_file.py:119-120 | a new record whose column holds an empty `LimitedFile()` is pending, valid, and has written nothing |
| `Scenarios.TestFileSizeLimit` | sqlalchemy_media/tests/test_file.py:106-127 | on a `LimitedFile` column, 19 bytes give MinimumLengthIsNotReached(20, 19), 31 bytes give MaximumLengthIsReached(30, 31), and nothing is stored |
| `Scenarios.TestAttributeTypeAssertion` | sqlalchemy_media/tests/test_file.py:129-143 | assigning a `File()` to a `MyAttachmentType` column raises TypeError (carrying, as the model's choice, both class names) and leaves the column None |
| `Scenarios.TestModelConstructor` | sqlalchemy_media/tests/test_file.py:145-158 | `Person(cv=File())`, attach of 'Simple text' and commit give a committed row of length 11 whose file is the only one stored, holding those bytes |
| `S3Boto3.ChooseBaseUrl` | sqlalchemy_media/stores/s3boto3.py:30-33 | an explicit non-empty `base_url` is used verbatim; otherwise 'https://' + bucket_name + '.s3.amazonaws.com' |
| `S3Boto3.OrDefault` | sqlalchemy_media/stores/s3boto3.py:35-36 | a given non-empty policy or storage class is kept; otherwise the default ('public-read', 'STANDARD') |
| `S3Boto3.ResourceOptions` | sqlalchemy_media/stores/s3boto3.py:38-42 | `region_name` is passed exactly when a region is given, with that region, and nothing else is |
| `S3Boto3.StripTrailingSlashes` | sqlalchemy_media/stores/s3boto3.py:56-57 | `rstrip('/')` gives a prefix that does not end in '/' and leaves only '/' after it |
| `S3Boto3.NormalizeCdnUrl` | sqlalchemy_media/stores/s3boto3.py:56-59 | a CDN URL ending in '/' loses every trailing '/'; one that does not is unchanged; an absent one stays absent; the result never ends in '/' |
| `S3Boto3.GetAttr` | sqlalchemy_media/stores/s3boto3.py:75-76 | `getattr` with a default gives the default exactly when the attribute is missing, and the attribute's value (even `None`) otherwise |
| `S3Boto3.ReportedLength` | sqlalchemy_media/stores/s3boto3.py:75 | `put` reports 0 when the stream has no `content_length` attribute, and the attribute's value, `None` included, when it has one |
| `S3Boto3.StreamContentType` | sqlalchemy_media/stores/s3boto3.py:76 | the content type sent is the stream's `content_type` attribute, or `None` when it has none |
| `S3Boto3.S3Boto3Store.constructor` | sqlalchemy_media/stores/s3boto3.py:22-59 | each configuration field is stored as given or defaulted as above, and the CDN URL is normalised, so the store is valid |
| `S3Boto3.S3Boto3Store.UploadParameters` | sqlalchemy_media/stores/s3boto3.py:64-70 | the parameters always hold ContentType; ServerSideEncryption='AES256' iff encryption; StorageClass='REDUCED_REDUNDANCY' iff reduced redundancy; ACL=policy iff the policy is non-empty, which is always the case for a constructed store; no other keys |
| `S3Boto3.S3Boto3Store.UploadFile` | sqlalchemy_media/stores/s3boto3.py:61-72 | the object is stored under its filename with its content and exactly those upload parameters; no other object changes |
| `S3Boto3.S3Boto3Store.Put` | sqlalchemy_media/stores/s3boto3.py:74-78 | `put` uploads the stream's content with its content type, changes no other object, and returns the length `getattr` finds on the stream |
| `S3Boto3.S3Boto3Store.PublicBase` | sqlalchemy_media/stores/s3boto3.py:101-104 | the URL base is the CDN URL when it is set and non-empty, and `base_url` otherwise |
| `S3Boto3.S3Boto3Store.Locate` | sqlalchemy_media/stores/s3boto3.py:97-105 | `locate` is '' exactly when the path is empty or absent; otherwise the URL splits into base, one '/', and the path |
| `S3Boto3.CdnJoinHasSingleSlash` | sqlalchemy_media/stores/s3boto3.py:56-59 | with a CDN URL configured, the URL `locate` builds starts with the normalised CDN URL, which does not end in '/', followed by the joining '/', whatever trailing slashes were configured; a path that itself starts with '/' still gives '//' |
| `S3Boto3.DefaultLocation` | sqlalchemy_media/stores/s3boto3.py:20 | without a base URL or CDN URL, an attachment is at 'https://' + the store's bucket + '.s3.amazonaws.com/' + path |
| `S3Boto3.PutReportsDeclaredLength` | sqlalchemy_media/stores/s3boto3.py:74-78 | a non-empty stream without `content_length` is uploaded in full yet reported as 0 bytes, and one whose `content_length` is `None` is reported as `None` |
| `AttachmentFields.NewFileField` | sqlalchemy_media/attachmentfields.py:9-15 | directory, image store and processors are kept unchanged; the attachment type is StringFile and the length 255 when left out, and whatever is passed, `None` included, otherwise |
| `AttachmentFields.ProcessBindParam` | sqlalchemy_media/attachmentfields.py:17-25 | NULL exactly for a falsy value, whatever its type; TypeError exactly for a truthy value when the attachment type is None; ValueError exactly for a truthy value that is not an instance of the configured type; otherwise exactly `value.encode()` |
| `AttachmentFields.ProcessResultValue` | sqlalchemy_media/attachmentfields.py:27-28 | loading calls the attachment type's `decode` with the column value and the field's store, directory and processors; AttributeError exactly when the attachment type is None |
| `AttachmentFields.ResultValueUsesConstructorArguments` | sqlalchemy_media/attachmentfields.py:9-28 | loading decodes with the type given to the constructor (StringFile when left out), the column value, and the store, directory and processors given to the constructor; it fails only for an explicit `attachment_type=None` |
| `AttachmentFields.ExplicitNoneTypeFails` | sqlalchemy_media/attachmentfields.py:9-28 | a field constructed with `attachment_type=None` binds falsy values to NULL, raises TypeError for any other value, and cannot load any column value |
| `AttachmentFields.BindParamAcceptsSubclasses` | sqlalchemy_media/attachmentfields.py:21-25 | an instance of a subclass of the configured type is accepted and encoded |
| `AttachmentFields.FalsyBindsToNull` | sqlalchemy_media/attachmentfields.py:17-19 | None and any falsy value, even of another type, bind to NULL |

## Left out

- The library's `StoreManager` class, `Attachment.attach`, the mapping-layer events and the scope's
  enter and exit are not modelled as code; the lifecycle is what `test_file.py` asserts, and what happens
  to pending queues when the scope exits is not modelled.
- One record with one attachment column is modelled, the test's `person1`. `Lifecycle.NewRecord` requires
  that there is no record at all, live or deleted and awaiting commit, because a second record is not representable. Creating a record also adds it to
  the session: every test adds its record before committing. A record left out of the session over a commit is not modelled.
- Assigning an already attached value to the column, and so aliasing one attachment between two
  values, is not modelled. The tests assign only `None` and fresh instances.
- Attachment collections (lists and dicts), processors, analyzers, content-type validation and the
  store registry are not modelled.
- Store failures are not modelled: a write that fails, or a delete that fails during commit cleanup.
  Delete in the model is total, and deleting a missing file does nothing.
- `Lifecycle.LengthError`: the limit check inside `Attachment.attach` is not modelled as code, so a 0 limit is
  enforced as a bound; Python truthiness could make a 0 limit mean "no limit".
- Error payloads: the fields of `TypeError(expected, got)`, `MinimumLengthIsNotReached(minimum, length)`
  and `MaximumLengthIsReached(maximum, length)` are the model's choice. The tests check only the exception class, and
  the library's exception classes and messages are not modelled.
- Class identity is by name: a class's ancestors are listed by name, and `isinstance` is membership in that list.
- The encoded form of an attachment (`encode`/`decode`) and `StringFile` are not modelled.
  `AttachmentFields.PyValue` carries the string `encode()` returns. `process_result_value` is modelled up to the decode call it makes,
  `AttachmentFields.DecodeCall`; what `decode` returns is not modelled.
- All boto3 and botocore I/O in `s3boto3.py`: the session, resource, bucket creation, `delete`, `open`, and the
  contents of `reload` and `get`. `delete` and `open` are not modelled: their branches depend on how boto3
  defines an object's truth value. Credentials are stored but not used.
- The `ValueError` message text is reduced to the expected and actual class names.
- Concurrency and the thread-local lookup of the current scope are not modelled.
