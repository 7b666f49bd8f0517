/**
 * The PDF upload route: the middleware that admits only signed-in users, and
 * the upload-complete handler that records the file, indexes its pages and
 * settles the file's upload status.
 */
module UploadCore {
  import opened Wrappers

  /** Where the storage service serves uploaded files; a file's URL is this prefix followed by its key. */
  const S3_PREFIX: string := "https://uploadthing-prod.s3.us-west-2.amazonaws.com/"

  /** The vector index the page documents go to. */
  const INDEX_NAME: string := "quill"

  datatype UploadStatus = PROCESSING | SUCCESS | FAILED

  /** The session user; an absent or empty id means the session is not usable. */
  datatype User = User(id: Option<string>)

  /** What the middleware attaches to the upload. */
  datatype Metadata = Metadata(userId: string)

  /** The uploaded file as the storage service reports it. */
  datatype UploadedFile = UploadedFile(key: string, name: string)

  /** A row of the file table. */
  datatype FileRow = FileRow(id: string, key: string, name: string, userId: string, url: string, uploadStatus: UploadStatus)

  /** One call of the vector store: the index, the page documents, and the namespace (if any). */
  datatype StoreCall = StoreCall(indexName: string, documents: seq<string>, namespace: Option<string>)

  /**
   * The outcomes of the external steps the handler awaits, in order: creating
   * the row; fetching the file and reading its blob; loading its pages (their texts, or a
   * failure); creating the embedding model and the vector-store client;
   * embedding and storing the pages; the SUCCESS update; the FAILED update.
   */
  datatype Steps = Steps(
    createOk: bool,
    fetchOk: bool,
    loaded: Option<seq<string>>,
    clientOk: bool,
    storeOk: bool,
    successUpdateOk: bool,
    failedUpdateOk: bool)

  /** The middleware: the session must hold a user with a non-empty id. */
  function Middleware(user: Option<User>): (r: Result<Metadata>)
    ensures r.Err? <==> user.None? || user.value.id.None? || user.value.id.value == ""
    ensures r.Err? ==> r.error == "Unauthorized"
    ensures r.Ok? ==> user.value.id == Some(r.value.userId) && r.value.userId != ""
  {
    if user.None? || user.value.id.None? || user.value.id.value == "" then Err("Unauthorized")
    else Ok(Metadata(user.value.id.value))
  }

  /** The URL recorded for, and fetched from, the file with this key. */
  function FileUrl(key: string): (url: string)
    ensures |url| == |S3_PREFIX| + |key|
    ensures url[..|S3_PREFIX|] == S3_PREFIX && url[|S3_PREFIX|..] == key
  {
    S3_PREFIX + key
  }

  /** Whether the page documents reach the vector store. */
  predicate StoreWritten(s: Steps) {
    s.fetchOk && s.loaded.Some? && s.clientOk && s.storeOk
  }

  /** Whether every step of the `try` block succeeds, the SUCCESS update included. */
  predicate PipelineSucceeds(s: Steps) {
    StoreWritten(s) && s.successUpdateOk
  }

  /** The status the created row is left in. */
  function FinalStatus(s: Steps): (st: UploadStatus)
    ensures st == SUCCESS <==> PipelineSucceeds(s)
    ensures st == FAILED <==> !PipelineSucceeds(s) && s.failedUpdateOk
    ensures st == PROCESSING <==> !PipelineSucceeds(s) && !s.failedUpdateOk
  {
    if PipelineSucceeds(s) then SUCCESS else if s.failedUpdateOk then FAILED else PROCESSING
  }

  /**
   * The statuses the handler writes to the new row once it is created, in order:
   * PROCESSING first, then at most one more, which is never PROCESSING and
   * which is where the row is left.
   */
  function StatusHistory(s: Steps): (h: seq<UploadStatus>)
    ensures 1 <= |h| <= 2 && h[0] == PROCESSING
    ensures h[|h| - 1] == FinalStatus(s)
    ensures |h| == 2 ==> h[1] != PROCESSING
  {
    [PROCESSING] + if PipelineSucceeds(s) then [SUCCESS] else if s.failedUpdateOk then [FAILED] else []
  }

  /** The file table and the vector store the route writes. */
  class UploadBackend {
    var files: map<string, FileRow>
    var store: seq<StoreCall>
    /** Every status the table has recorded through a create or an update, in order. */
    ghost var statusLog: seq<UploadStatus>

    constructor (files: map<string, FileRow>)
      ensures this.files == files && store == [] && statusLog == []
    {
      this.files := files;
      store := [];
      statusLog := [];
    }

    /**
     * `db.file.create`; it throws when the database fails. The id comes from the
     * database, so a collision, which it also refuses, does not arise in practice.
     */
    method CreateFile(id: string, key: string, name: string, userId: string, url: string, status: UploadStatus, available: bool)
      returns (created: Result<FileRow>)
      modifies this`files, this`statusLog
      ensures created.Err? <==> !available || id in old(files)
      ensures created.Err? ==> files == old(files) && statusLog == old(statusLog)
      ensures created.Ok? ==>
        && created.value == FileRow(id, key, name, userId, url, status)
        && files == old(files)[id := created.value]
        && statusLog == old(statusLog) + [status]
    {
      if !available {
        return Err("DB");
      }
      if id in files {
        return Err("P2002");  // the database's unique-constraint violation
      }
      created := Ok(FileRow(id, key, name, userId, url, status));
      files := files[id := created.value];
      statusLog := statusLog + [status];
    }

    /** `db.file.update` of one row's status; it throws when the database fails or the row is missing. */
    method UpdateStatus(id: string, status: UploadStatus, available: bool) returns (threw: bool)
      modifies this`files, this`statusLog
      ensures threw <==> !available || id !in old(files)
      ensures threw ==> files == old(files) && statusLog == old(statusLog)
      ensures !threw ==>
        && files == old(files)[id := old(files)[id].(uploadStatus := status)]
        && statusLog == old(statusLog) + [status]
    {
      if !available || id !in files {
        return true;
      }
      files := files[id := files[id].(uploadStatus := status)];
      statusLog := statusLog + [status];
      return false;
    }

    /** `PineconeStore.fromDocuments`: embeds and stores all documents in one call, or throws. */
    method FromDocuments(documents: seq<string>, namespace: Option<string>, available: bool) returns (threw: bool)
      modifies this`store
      ensures threw == !available
      ensures store == if available then old(store) + [StoreCall(INDEX_NAME, documents, namespace)] else old(store)
    {
      if !available {
        return true;
      }
      store := store + [StoreCall(INDEX_NAME, documents, namespace)];
      return false;
    }

    /**
     * The upload-complete handler. It creates the row in PROCESSING, runs the
     * indexing steps, and marks the row SUCCESS, or FAILED when any of them
     * threw. Only a failure of the create or of the FAILED update escapes it.
     * The statuses written along the way are `StatusHistory(steps)`.
     */
    method OnUploadComplete(metadata: Metadata, file: UploadedFile, newId: string, steps: Steps) returns (threw: bool)
      modifies this`files, this`store, this`statusLog
      ensures !steps.createOk || newId in old(files) ==>
        threw && files == old(files) && store == old(store) && statusLog == old(statusLog)
      ensures steps.createOk && newId !in old(files) ==>
        && files == old(files)[newId := FileRow(newId, file.key, file.name, metadata.userId, FileUrl(file.key), FinalStatus(steps))]
        && threw == (FinalStatus(steps) == PROCESSING)
        && store == (if StoreWritten(steps) then old(store) + [StoreCall(INDEX_NAME, steps.loaded.value, None)] else old(store))
        && statusLog == old(statusLog) + StatusHistory(steps)
    {
      var created := CreateFile(newId, file.key, file.name, metadata.userId, FileUrl(file.key), PROCESSING, steps.createOk);
      if created.Err? {
        return true;
      }
      var row := created.value;
      // the `try` block: each step runs only if the ones before it succeeded
      var failed: bool;
      if !steps.fetchOk || steps.loaded.None? || !steps.clientOk {
        failed := true;
      } else {
        // no namespace: the per-file namespace is commented out
        failed := FromDocuments(steps.loaded.value, None, steps.storeOk);
        if !failed {
          failed := UpdateStatus(row.id, SUCCESS, steps.successUpdateOk);
        }
      }
      // the `catch` block
      if failed {
        threw := UpdateStatus(row.id, FAILED, steps.failedUpdateOk);
      } else {
        threw := false;
      }
    }
  }
}
