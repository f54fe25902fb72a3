/** The stage movers of adapters/local_media_store.py and
    adapters/local_media_file_store.py, and the read-only file queries of
    adapters/local_media_file_store.py and adapters/local_storage.py, over
    the filesystem of FileSystems. */
module MediaStores {
  import opened Results
  import Models
  import opened FileSystems
  import opened AdapterErrors

  /** `transition` once the destination directory is known: the checks in
      their fixed order (source missing, source not a file, destination
      present), then the rename. The result is the destination's text or
      the error raised, with the filesystem afterwards. */
  function Move(es: Entries, cwd: Path, refuse: (Path, Path) -> Option<OsError>,
                destDir: Path, mediaRef: string): (r: (Result<string, AdapterError>, Entries))
    ensures r.0.Err? ==> r.1 == es
    ensures r.0.Err? ==> r.0.error.code in {"FILE_NOT_FOUND", "NOT_A_FILE", "FILE_EXISTS", "PERMISSION_DENIED", "MOVE_FAILED"}
    ensures r.0.Ok? ==> r.0.value == Text(Div(destDir, ParsePath(Name(ParsePath(mediaRef)))))
  {
    var source := ParsePath(mediaRef);
    var src := Div(cwd, source);
    if !Exists(es, src) then
      (Err(AdapterError("FILE_NOT_FOUND", "Source file not found: " + mediaRef,
                        Some([("source_path", Text(source))]))), es)
    else if !IsFile(es, src) then
      (Err(AdapterError("NOT_A_FILE", "Source path is not a file: " + mediaRef,
                        Some([("source_path", Text(source))]))), es)
    else
      var dest := Div(destDir, ParsePath(Name(source)));
      var dst := Div(cwd, dest);
      var paths := [("source_path", Text(source)), ("dest_path", Text(dest))];
      if Exists(es, dst) then
        (Err(AdapterError("FILE_EXISTS", "Destination file already exists: " + Name(dest), Some(paths))), es)
      else
        match Rename(es, refuse, src, dst, Text(source), Text(dest))
        case Err(e) =>
          if e.IsPermission() then
            (Err(AdapterError("PERMISSION_DENIED", "Permission denied moving file: " + Name(source),
                              Some(paths + [("error", e.Text())]))), es)
          else
            (Err(AdapterError("MOVE_FAILED", "Failed to move file: " + Name(source),
                              Some(paths + [("error", e.Text())]))), es)
        case Ok(moved) => (Ok(Text(dest)), moved)
  }

  /** The error codes of `transition`, in the order they are checked: the
      first failing check decides the code. */
  lemma MoveCheckOrder(es: Entries, cwd: Path, refuse: (Path, Path) -> Option<OsError>,
                       destDir: Path, mediaRef: string)
    ensures var src := Div(cwd, ParsePath(mediaRef));
      var r := Move(es, cwd, refuse, destDir, mediaRef).0;
      var dst := Div(cwd, Div(destDir, ParsePath(Name(ParsePath(mediaRef)))));
      && (!Exists(es, src) <==> r.Err? && r.error.code == "FILE_NOT_FOUND")
      && (Exists(es, src) && !IsFile(es, src) <==> r.Err? && r.error.code == "NOT_A_FILE")
      && (IsFile(es, src) && Exists(es, dst) <==> r.Err? && r.error.code == "FILE_EXISTS")
  {
  }

  /** A failed transition leaves the filesystem as it was: the source and
      an existing destination are untouched. */
  lemma MoveErrorUnchanged(es: Entries, cwd: Path, refuse: (Path, Path) -> Option<OsError>,
                           destDir: Path, mediaRef: string)
    ensures Move(es, cwd, refuse, destDir, mediaRef).0.Err? ==> Move(es, cwd, refuse, destDir, mediaRef).1 == es
  {
  }

  /** A successful transition returns the stage directory joined with the
      source's name; afterwards the source is gone, the destination holds
      the source's content and no other path changed. The working
      directory is a directory. */
  lemma MoveSuccess(es: Entries, cwd: Path, refuse: (Path, Path) -> Option<OsError>,
                    destDir: Path, mediaRef: string)
    requires cwd.absolute && IsDir(es, cwd)
    ensures var source := ParsePath(mediaRef);
      var src := Div(cwd, source);
      var dest := Div(destDir, ParsePath(Name(source)));
      var dst := Div(cwd, dest);
      var (r, after) := Move(es, cwd, refuse, destDir, mediaRef);
      r.Ok? ==>
        && r.value == Text(dest)
        && dest == Path(destDir.absolute, destDir.parts + [Name(source)])
        && !Exists(after, src) && IsFile(after, dst) && after[dst] == es[src]
        && (forall q :: q != src && q != dst ==> (q in after <==> q in es))
        && (forall q :: q != src && q != dst && q in es ==> after[q] == es[q])
  {
    var source := ParsePath(mediaRef);
    var src := Div(cwd, source);
    var dest := Div(destDir, ParsePath(Name(source)));
    var dst := Div(cwd, dest);
    assert source.parts == [] ==> src == cwd || IsRoot(src);
    if IsFile(es, src) && !Exists(es, dst) {
      RenameEffect(es, refuse, src, dst, Text(source), Text(dest));
      if source.parts != [] {
        NameChild(destDir, source);
      }
    }
  }

  /** A rename the system refuses becomes PERMISSION_DENIED for EPERM and
      EACCES, MOVE_FAILED otherwise. */
  lemma MoveRefused(es: Entries, cwd: Path, refuse: (Path, Path) -> Option<OsError>,
                    destDir: Path, mediaRef: string)
    ensures var source := ParsePath(mediaRef);
      var src := Div(cwd, source);
      var dst := Div(cwd, Div(destDir, ParsePath(Name(source))));
      var r := Move(es, cwd, refuse, destDir, mediaRef).0;
      IsFile(es, src) && !Exists(es, dst) && IsDir(es, Parent(dst)) && refuse(src, dst).Some? ==>
        && r.Err?
        && (refuse(src, dst).value.IsPermission() <==> r.error.code == "PERMISSION_DENIED")
        && (!refuse(src, dst).value.IsPermission() <==> r.error.code == "MOVE_FAILED")
  {
  }

  /** adapters/local_media_store.py: both stages always have a directory. */
  class LocalMediaStore {
    const disk: Disk
    const stageDirs: map<Models.MediaStage, Path>

    constructor(disk: Disk, inProgressDir: string, uploadedDir: string)
      ensures this.disk == disk
      ensures stageDirs == map[Models.StageInProgress := ParsePath(inProgressDir), Models.StageUploaded := ParsePath(uploadedDir)]
    {
      this.disk := disk;
      stageDirs := map[Models.StageInProgress := ParsePath(inProgressDir), Models.StageUploaded := ParsePath(uploadedDir)];
    }

    /** `__init__`: the stage map, then each stage directory created with
      its parents, IN_PROGRESS first; an OSError from `mkdir` propagates. */
    static method Open(disk: Disk, inProgressDir: string, uploadedDir: string)
      returns (r: Result<LocalMediaStore, OsError>)
      requires disk.cwd.absolute
      modifies disk
      ensures r.Ok? ==> fresh(r.value) && r.value.disk == disk
      ensures r.Ok? ==> r.value.stageDirs.Keys == {Models.StageInProgress, Models.StageUploaded}
      ensures r.Ok? ==> forall s :: s in r.value.stageDirs ==> IsDir(disk.entries, Div(disk.cwd, r.value.stageDirs[s]))
    {
      var store := new LocalMediaStore(disk, inProgressDir, uploadedDir);
      var e := disk.MakeDirectories(store.stageDirs[Models.StageInProgress]);
      if e.Some? {
        return Err(e.value);
      }
      ghost var first := disk.entries;
      MakeDirsEffect(old(disk.entries), Div(disk.cwd, store.stageDirs[Models.StageInProgress]),
                     Text(store.stageDirs[Models.StageInProgress]));
      e := disk.MakeDirectories(store.stageDirs[Models.StageUploaded]);
      if e.Some? {
        return Err(e.value);
      }
      MakeDirsEffect(first, Div(disk.cwd, store.stageDirs[Models.StageUploaded]), Text(store.stageDirs[Models.StageUploaded]));
      return Ok(store);
    }

    /** `transition`: `media_ref` is taken as given, relative to the
      working directory. */
    method Transition(mediaRef: string, toStage: Models.MediaStage) returns (r: Result<string, AdapterError>)
      requires disk.cwd.absolute && toStage in stageDirs
      modifies disk
      ensures (r, disk.entries) == Move(old(disk.entries), disk.cwd, disk.refuse, stageDirs[toStage], mediaRef)
    {
      var source := ParsePath(mediaRef);
      var src := Div(disk.cwd, source);
      if !Exists(disk.entries, src) {
        return Err(AdapterError("FILE_NOT_FOUND", "Source file not found: " + mediaRef,
                                Some([("source_path", Text(source))])));
      }
      if !IsFile(disk.entries, src) {
        return Err(AdapterError("NOT_A_FILE", "Source path is not a file: " + mediaRef,
                                Some([("source_path", Text(source))])));
      }
      var dest := Div(stageDirs[toStage], ParsePath(Name(source)));
      var paths := [("source_path", Text(source)), ("dest_path", Text(dest))];
      if Exists(disk.entries, Div(disk.cwd, dest)) {
        return Err(AdapterError("FILE_EXISTS", "Destination file already exists: " + Name(dest), Some(paths)));
      }
      var e := disk.RenameFile(source, dest);
      if e.Some? {
        if e.value.IsPermission() {
          return Err(AdapterError("PERMISSION_DENIED", "Permission denied moving file: " + Name(source),
                                  Some(paths + [("error", e.value.Text())])));
        }
        return Err(AdapterError("MOVE_FAILED", "Failed to move file: " + Name(source),
                                Some(paths + [("error", e.value.Text())])));
      }
      return Ok(Text(dest));
    }
  }

  /** `Path(x) if x else default` for an optional path argument. */
  function PathOr(x: Option<string>, default: Path): Path {
    if x.Some? && x.value != "" then ParsePath(x.value) else default
  }

  /** The stage map of adapters/local_media_file_store.py: only the stages
      given a non-empty directory. */
  function FileStoreStages(inProgressDir: Option<string>, uploadedDir: Option<string>): (m: map<Models.MediaStage, Path>)
    ensures Models.StageInProgress in m <==> inProgressDir.Some? && inProgressDir.value != ""
    ensures Models.StageUploaded in m <==> uploadedDir.Some? && uploadedDir.value != ""
    ensures Models.StageInProgress in m ==> m[Models.StageInProgress] == ParsePath(inProgressDir.value)
    ensures Models.StageUploaded in m ==> m[Models.StageUploaded] == ParsePath(uploadedDir.value)
  {
    var a := if inProgressDir.Some? && inProgressDir.value != ""
             then map[Models.StageInProgress := ParsePath(inProgressDir.value)] else map[];
    if uploadedDir.Some? && uploadedDir.value != "" then a[Models.StageUploaded := ParsePath(uploadedDir.value)] else a
  }

  /** `get_path` against a filesystem: FILE_NOT_FOUND, then NOT_A_FILE,
      otherwise the resolved path. */
  function FileStorePath(es: Entries, cwd: Path, base: Path, path: string): Result<Path, AdapterError>
    requires cwd.absolute
  {
    var p := Resolve(cwd, base, path);
    if !Exists(es, p) then Err(AdapterError("FILE_NOT_FOUND", "File does not exist: " + path, Some([("path", Text(p))])))
    else if !IsFile(es, p) then Err(AdapterError("NOT_A_FILE", "Path is not a file: " + path, Some([("path", Text(p))])))
    else Ok(p)
  }

  /** adapters/local_media_file_store.py: a base directory for relative
      paths and the configured stages only. */
  class LocalMediaFileStore {
    const disk: Disk
    const basePath: Path
    const stageDirs: map<Models.MediaStage, Path>

    constructor(disk: Disk, basePath: Option<string>, inProgressDir: Option<string>, uploadedDir: Option<string>)
      ensures this.disk == disk && this.basePath == PathOr(basePath, disk.cwd)
      ensures stageDirs == FileStoreStages(inProgressDir, uploadedDir)
    {
      this.disk := disk;
      this.basePath := PathOr(basePath, disk.cwd);
      stageDirs := FileStoreStages(inProgressDir, uploadedDir);
    }

    /** `__init__`: the configured stage directories are created, IN_PROGRESS
      first; an OSError from `mkdir` propagates. */
    static method Open(disk: Disk, basePath: Option<string>, inProgressDir: Option<string>, uploadedDir: Option<string>)
      returns (r: Result<LocalMediaFileStore, OsError>)
      requires disk.cwd.absolute
      modifies disk
      ensures r.Ok? ==> fresh(r.value) && r.value.disk == disk
      ensures r.Ok? ==> r.value.stageDirs == FileStoreStages(inProgressDir, uploadedDir)
      ensures r.Ok? ==> forall s :: s in r.value.stageDirs ==> IsDir(disk.entries, Div(disk.cwd, r.value.stageDirs[s]))
    {
      var store := new LocalMediaFileStore(disk, basePath, inProgressDir, uploadedDir);
      ghost var start := disk.entries;
      if Models.StageInProgress in store.stageDirs {
        var dir := store.stageDirs[Models.StageInProgress];
        var e := disk.MakeDirectories(dir);
        if e.Some? {
          return Err(e.value);
        }
        MakeDirsEffect(start, Div(disk.cwd, dir), Text(dir));
      }
      ghost var first := disk.entries;
      assert Models.StageInProgress in store.stageDirs ==> IsDir(first, Div(disk.cwd, store.stageDirs[Models.StageInProgress]));
      if Models.StageUploaded in store.stageDirs {
        var dir := store.stageDirs[Models.StageUploaded];
        var e := disk.MakeDirectories(dir);
        if e.Some? {
          return Err(e.value);
        }
        MakeDirsEffect(first, Div(disk.cwd, dir), Text(dir));
      }
      return Ok(store);
    }

    /** `exists`: a regular file at the resolved path. */
    function Exists(path: string): (r: bool)
      requires disk.cwd.absolute
      reads disk
    {
      var p := Resolve(disk.cwd, basePath, path);
      FileSystems.Exists(disk.entries, p) && IsFile(disk.entries, p)
    }

    /** `get_path`. */
    function GetPath(path: string): Result<Path, AdapterError>
      requires disk.cwd.absolute
      reads disk
    {
      FileStorePath(disk.entries, disk.cwd, basePath, path)
    }

    /** `get_size`: through `get_path`, then the file's length. */
    function GetSize(path: string): Result<nat, AdapterError>
      requires disk.cwd.absolute
      reads disk
    {
      match GetPath(path)
      case Err(e) => Err(e)
      case Ok(p) => Ok(|disk.entries[p].content|)
    }

    /** `exists` holds exactly when `get_path` succeeds, and then `get_size`
      is the length of that file; otherwise both raise the same error. */
    lemma QueriesAgree(path: string)
      requires disk.cwd.absolute
      ensures Exists(path) <==> GetPath(path).Ok?
      ensures GetPath(path).Ok? ==>
        && IsFile(disk.entries, GetPath(path).value)
        && GetSize(path) == Ok(|disk.entries[GetPath(path).value].content|)
      ensures GetPath(path).Err? ==> GetSize(path) == Err(GetPath(path).error)
      ensures GetPath(path).Ok? ==> GetPath(path).value == Resolve(disk.cwd, basePath, path)
      ensures GetPath(path).Err? ==> GetPath(path).error.code in {"FILE_NOT_FOUND", "NOT_A_FILE"}
    {
    }

    /** `transition`: STAGE_NOT_CONFIGURED before any filesystem check;
      otherwise what LocalMediaStore does. `media_ref` is not resolved
      against the base directory. */
    method Transition(mediaRef: string, toStage: Models.MediaStage) returns (r: Result<string, AdapterError>)
      requires disk.cwd.absolute
      modifies disk
      ensures toStage !in stageDirs ==>
        && r == Err(AdapterError("STAGE_NOT_CONFIGURED", "Stage directory not configured: " + Models.StageValue(toStage),
                                 Some([("stage", Models.StageValue(toStage))])))
        && disk.entries == old(disk.entries)
      ensures toStage in stageDirs ==>
        (r, disk.entries) == Move(old(disk.entries), disk.cwd, disk.refuse, stageDirs[toStage], mediaRef)
    {
      if toStage !in stageDirs {
        return Err(AdapterError("STAGE_NOT_CONFIGURED", "Stage directory not configured: " + Models.StageValue(toStage),
                                Some([("stage", Models.StageValue(toStage))])));
      }
      var source := ParsePath(mediaRef);
      var src := Div(disk.cwd, source);
      if !FileSystems.Exists(disk.entries, src) {
        return Err(AdapterError("FILE_NOT_FOUND", "Source file not found: " + mediaRef,
                                Some([("source_path", Text(source))])));
      }
      if !IsFile(disk.entries, src) {
        return Err(AdapterError("NOT_A_FILE", "Source path is not a file: " + mediaRef,
                                Some([("source_path", Text(source))])));
      }
      var dest := Div(stageDirs[toStage], ParsePath(Name(source)));
      var paths := [("source_path", Text(source)), ("dest_path", Text(dest))];
      if FileSystems.Exists(disk.entries, Div(disk.cwd, dest)) {
        return Err(AdapterError("FILE_EXISTS", "Destination file already exists: " + Name(dest), Some(paths)));
      }
      var e := disk.RenameFile(source, dest);
      if e.Some? {
        if e.value.IsPermission() {
          return Err(AdapterError("PERMISSION_DENIED", "Permission denied moving file: " + Name(source),
                                  Some(paths + [("error", e.value.Text())])));
        }
        return Err(AdapterError("MOVE_FAILED", "Failed to move file: " + Name(source),
                                Some(paths + [("error", e.value.Text())])));
      }
      return Ok(Text(dest));
    }
  }

  /** adapters/local_storage.py: read-only queries below a base directory,
      failing with a StorageError message. */
  datatype LocalFileStorage = LocalFileStorage(basePath: Path)
  {
    /** `exists`. */
    predicate Exists(es: Entries, cwd: Path, path: string)
      requires cwd.absolute
    {
      var p := Resolve(cwd, basePath, path);
      FileSystems.Exists(es, p) && IsFile(es, p)
    }

    /** `get_path`: the messages name the resolved path. */
    function GetPath(es: Entries, cwd: Path, path: string): Result<Path, string>
      requires cwd.absolute
    {
      var p := Resolve(cwd, basePath, path);
      if !FileSystems.Exists(es, p) then Err("File does not exist: " + Text(p))
      else if !IsFile(es, p) then Err("Path is not a file: " + Text(p))
      else Ok(p)
    }

    /** `get_size`: validation by `get_path`. */
    function GetSize(es: Entries, cwd: Path, path: string): Result<nat, string>
      requires cwd.absolute
    {
      match GetPath(es, cwd, path)
      case Err(e) => Err(e)
      case Ok(p) => Ok(|es[p].content|)
    }
  }

  /** `LocalFileStorage(base_path)`: the working directory when no base is
      given. */
  function NewStorage(basePath: Option<string>, cwd: Path): (s: LocalFileStorage)
    ensures basePath.None? || basePath == Some("") ==> s.basePath == cwd
    ensures basePath.Some? && basePath.value != "" ==> s.basePath == ParsePath(basePath.value)
  {
    LocalFileStorage(PathOr(basePath, cwd))
  }

  /** The storage's queries agree: `exists` holds exactly when `get_path`
      succeeds, `get_size` fails exactly with `get_path`'s message and
      otherwise is the file's length; a missing path and a directory are
      told apart. */
  lemma StorageQueriesAgree(s: LocalFileStorage, es: Entries, cwd: Path, path: string)
    requires cwd.absolute
    ensures s.Exists(es, cwd, path) <==> s.GetPath(es, cwd, path).Ok?
    ensures s.GetPath(es, cwd, path).Ok? ==>
      && s.GetPath(es, cwd, path).value == Resolve(cwd, s.basePath, path)
      && s.GetSize(es, cwd, path) == Ok(|es[s.GetPath(es, cwd, path).value].content|)
    ensures s.GetPath(es, cwd, path).Err? ==> s.GetSize(es, cwd, path) == Err(s.GetPath(es, cwd, path).error)
    ensures var p := Resolve(cwd, s.basePath, path);
      && (!FileSystems.Exists(es, p) <==> s.GetPath(es, cwd, path) == Err("File does not exist: " + Text(p)))
      && (IsDir(es, p) ==> s.GetPath(es, cwd, path) == Err("Path is not a file: " + Text(p)))
  {
    var p := Resolve(cwd, s.basePath, path);
    if FileSystems.Exists(es, p) {
      assert "File does not exist: " + Text(p) != "Path is not a file: " + Text(p) by {
        assert ("File does not exist: " + Text(p))[0] != ("Path is not a file: " + Text(p))[0];
      }
    }
  }
}
