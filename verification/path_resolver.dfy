/**
 * The validation chains of `/api/task/<folder>/<filename>` and `/api/doc/<path:doc_path>`:
 * a traversal check, an allowlist, then an existence check, each ending in its own status.
 * Whether a path exists on disk is a parameter, `onDisk`; the file read itself is not modelled.
 */
module PathResolver {
  import opened Text
  import opened Http

  /** an error answer: its HTTP status and the `error` text of its JSON body */
  datatype Rejection = Rejection(status: nat, error: string)

  const InvalidPath := Rejection(400, "Invalid path")
  const InvalidFolder := Rejection(400, "Invalid folder")
  const NotAllowed := Rejection(403, "Document not allowed")
  const NotFound := Rejection(404, "File not found")

  /** the task-card folders that may be read */
  const AllowedFolders: seq<string> := ["active", "next", "waiting", "completed"]
  /** `TASKS_DIR`, below the directory that holds the dashboard */
  const TasksDir := "tasks"

  /** `TASKS_DIR / folder / filename` */
  function TaskFile(folder: string, filename: string): Path {
    [TasksDir, folder, filename]
  }

  datatype TaskResult = TaskFound(folder: string, filename: string, file: Path) | TaskRejected(why: Rejection)

  /** `get_task_content` without the read: which check stops the request, or which file it reads */
  function ResolveTask(folder: string, filename: string, onDisk: Path -> bool): (r: TaskResult)
    ensures r == TaskRejected(InvalidPath) <==> HasDotDot(folder) || HasDotDot(filename)
    ensures r == TaskRejected(InvalidFolder) <==>
              !HasDotDot(folder) && !HasDotDot(filename) && folder !in AllowedFolders
    ensures r == TaskRejected(NotFound) <==>
              !HasDotDot(folder) && !HasDotDot(filename) && folder in AllowedFolders && !onDisk(TaskFile(folder, filename))
    ensures r.TaskFound? <==>
              !HasDotDot(folder) && !HasDotDot(filename) && folder in AllowedFolders && onDisk(TaskFile(folder, filename))
    ensures r.TaskFound? ==> r == TaskFound(folder, filename, TaskFile(folder, filename)) && onDisk(r.file)
  {
    if HasDotDot(folder) || HasDotDot(filename) then TaskRejected(InvalidPath)
    else if folder !in AllowedFolders then TaskRejected(InvalidFolder)
    else if !onDisk(TaskFile(folder, filename)) then TaskRejected(NotFound)
    else TaskFound(folder, filename, TaskFile(folder, filename))
  }

  /** A request stopped by the traversal or folder check gets the same answer whatever is on disk. */
  lemma TaskChecksPrecedeFilesystem(folder: string, filename: string, onDisk1: Path -> bool, onDisk2: Path -> bool)
    requires HasDotDot(folder) || HasDotDot(filename) || folder !in AllowedFolders
    ensures ResolveTask(folder, filename, onDisk1) == ResolveTask(folder, filename, onDisk2)
  {
  }

  /** A folder outside the allowlist is refused whatever the filename and the disk hold. */
  lemma UnknownFolderRejected(folder: string, filename: string, onDisk: Path -> bool)
    requires folder !in AllowedFolders
    ensures ResolveTask(folder, filename, onDisk).TaskRejected?
    ensures ResolveTask(folder, filename, onDisk).why.status == 400
  {
  }

  /** A file that resolves is three components below `tasks`, in an allowlisted folder, with no `..` anywhere. */
  lemma {:induction false} TaskFilesStayInTaskFolders(folder: string, filename: string, onDisk: Path -> bool)
    ensures var r := ResolveTask(folder, filename, onDisk);
            r.TaskFound? ==>
              |r.file| == 3 && r.file[0] == TasksDir && r.file[1] in AllowedFolders
              && forall c :: c in r.file ==> !HasDotDot(c)
  {
    var r := ResolveTask(folder, filename, onDisk);
    if r.TaskFound? {
      NoDotDotInPlainNames();
    }
  }

  /** the fixed names of the model carry no `..` */
  lemma NoDotDotInPlainNames()
    ensures !HasDotDot(TasksDir)
    ensures forall f :: f in AllowedFolders ==> !HasDotDot(f)
  {
    DotFree("tasks");
    DotFree("active");
    DotFree("next");
    DotFree("waiting");
    DotFree("completed");
  }

  lemma DotFree(s: string)
    requires forall i :: 0 <= i < |s| ==> s[i] != '.'
    ensures !HasDotDot(s)
  {
  }

  /** `/api/task/active/foo.md` with no such file on disk is a 404. */
  lemma MissingTaskFileIsNotFound(onDisk: Path -> bool)
    requires !onDisk(TaskFile("active", "foo.md"))
    ensures ResolveTask("active", "foo.md", onDisk) == TaskRejected(NotFound)
  {
    NoDotDotInPlainNames();
    assert forall i :: 0 <= i < |"foo.md"| - 1 ==> !DotDotAt("foo.md", i);
  }

  /** the documents that may be read: request key to file below the dashboard's parent directory */
  const AllowedDocs: map<string, Path> := map[
    "youtube-books/CURRENT_SYSTEM_SUMMARY.md" := ["youtube-books", "CURRENT_SYSTEM_SUMMARY.md"],
    "shorts/docs/book_recommendation_proposal.md" := ["shorts", "docs", "book_recommendation_proposal.md"],
    "shorts/DEPLOY.md" := ["shorts", "DEPLOY.md"],
    "knowledge/youtube.md" := ["knowledge", "youtube.md"],
    "knowledge/infra.md" := ["knowledge", "infra.md"]
  ]

  /** pathlib's `.name`: the last component */
  function FileName(p: Path): string {
    if p == [] then "" else p[|p| - 1]
  }

  datatype DocResult = DocFound(path: string, filename: string, file: Path) | DocRejected(why: Rejection)

  /** `get_doc_content` without the read: which check stops the request, or which file it reads */
  function ResolveDoc(docPath: string, onDisk: Path -> bool): (r: DocResult)
    ensures r == DocRejected(InvalidPath) <==> HasDotDot(docPath)
    ensures r == DocRejected(NotAllowed) <==> !HasDotDot(docPath) && docPath !in AllowedDocs
    ensures r == DocRejected(NotFound) <==>
              !HasDotDot(docPath) && docPath in AllowedDocs && !onDisk(AllowedDocs[docPath])
    ensures r.DocFound? <==> !HasDotDot(docPath) && docPath in AllowedDocs && onDisk(AllowedDocs[docPath])
    ensures r.DocFound? ==>
              docPath in AllowedDocs && onDisk(r.file)
              && r == DocFound(docPath, FileName(AllowedDocs[docPath]), AllowedDocs[docPath])
  {
    if HasDotDot(docPath) then DocRejected(InvalidPath)
    else if docPath !in AllowedDocs then DocRejected(NotAllowed)
    else
      var file := AllowedDocs[docPath];
      if !onDisk(file) then DocRejected(NotFound)
      else DocFound(docPath, FileName(file), file)
  }

  /** A request stopped by the traversal or allowlist check gets the same answer whatever is on disk. */
  lemma DocChecksPrecedeFilesystem(docPath: string, onDisk1: Path -> bool, onDisk2: Path -> bool)
    requires HasDotDot(docPath) || docPath !in AllowedDocs
    ensures ResolveDoc(docPath, onDisk1) == ResolveDoc(docPath, onDisk2)
  {
  }

  /** Only the five mapped files can ever be read, and each under its own key. */
  lemma DocFilesAreAllowlisted(docPath: string, onDisk: Path -> bool)
    ensures var r := ResolveDoc(docPath, onDisk);
            r.DocFound? ==> r.file in AllowedDocs.Values && AllowedDocs[r.path] == r.file
  {
  }

  /**
   * No allowlisted key holds `..`, so the traversal check only changes the status of a
   * request that the allowlist would refuse anyway (400 instead of 403).
   */
  lemma {:induction false} TraversalCheckOnlyChangesStatus(docPath: string, onDisk: Path -> bool)
    requires HasDotDot(docPath)
    ensures docPath !in AllowedDocs
    ensures ResolveDoc(docPath, onDisk) == DocRejected(InvalidPath)
  {
    NoDotDotInDocKeys();
  }

  /** `/api/doc/unknown/key.md` names no allowlisted document: a 403. */
  lemma UnknownDocIsForbidden(onDisk: Path -> bool)
    ensures ResolveDoc("unknown/key.md", onDisk) == DocRejected(NotAllowed)
  {
    UnknownKeyHasNoDotDot();
    UnknownKeyNotListed();
  }

  lemma UnknownKeyHasNoDotDot()
    ensures !HasDotDot("unknown/key.md")
  {
    var key := "unknown/key.md";
    assert forall i :: 0 <= i < |key| - 1 ==> !DotDotAt(key, i);
  }

  lemma UnknownKeyNotListed()
    ensures "unknown/key.md" !in AllowedDocs
  {
  }

  /** `/api/doc/knowledge/youtube.md` reads `knowledge/youtube.md` and names it `youtube.md`. */
  lemma KnownDocResolves(onDisk: Path -> bool)
    requires onDisk(["knowledge", "youtube.md"])
    ensures ResolveDoc("knowledge/youtube.md", onDisk)
              == DocFound("knowledge/youtube.md", "youtube.md", ["knowledge", "youtube.md"])
  {
    KnownKeyHasNoDotDot();
  }

  lemma KnownKeyHasNoDotDot()
    ensures !HasDotDot("knowledge/youtube.md")
  {
    var key := "knowledge/youtube.md";
    assert forall i :: 0 <= i < |key| - 1 ==> !DotDotAt(key, i);
  }

  lemma NoDotDotInDocKeys()
    ensures forall k :: k in AllowedDocs ==> !HasDotDot(k)
  {
    forall k | k in AllowedDocs ensures !HasDotDot(k) {
      assert forall i :: 0 <= i < |k| - 1 ==> !DotDotAt(k, i);
    }
  }
}
