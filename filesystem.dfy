/** The part of the local filesystem the media stores use: POSIX paths as
    `pathlib` parses and prints them, a map from absolute paths to files and
    directories, and the two mutating calls the stores make,
    `Path.mkdir(parents=True, exist_ok=True)` and `Path.rename`. */
module FileSystems {
  import opened Results
  import opened Strings

  /** A `pathlib.PurePosixPath`: whether it is absolute, and its parts
      after the root. */
  datatype Path = Path(absolute: bool, parts: seq<string>)

  /** A part as `pathlib` keeps it: non-empty, not ".", no separator. */
  predicate ValidPart(x: string) {
    x != "" && x != "." && '/' !in x
  }

  predicate ValidPath(p: Path) {
    forall i :: 0 <= i < |p.parts| ==> ValidPart(p.parts[i])
  }

  /** The pieces between separators, without the empty and "." ones. */
  function Proper(ps: seq<string>): (r: seq<string>)
    ensures |r| <= |ps|
  {
    if ps == [] then []
    else (if ps[0] == "" || ps[0] == "." then [] else [ps[0]]) + Proper(ps[1..])
  }

  lemma {:induction false} ProperValid(ps: seq<string>)
    requires forall i :: 0 <= i < |ps| ==> '/' !in ps[i]
    ensures forall i :: 0 <= i < |Proper(ps)| ==> ValidPart(Proper(ps)[i])
  {
    if ps != [] {
      ProperValid(ps[1..]);
      var head := if ps[0] == "" || ps[0] == "." then [] else [ps[0]];
      assert Proper(ps) == head + Proper(ps[1..]);
      forall i | 0 <= i < |Proper(ps)| ensures ValidPart(Proper(ps)[i]) {
        if i >= |head| {
          assert Proper(ps)[i] == Proper(ps[1..])[i - |head|];
        }
      }
    }
  }

  lemma {:induction false} ProperOfValid(ps: seq<string>)
    requires forall i :: 0 <= i < |ps| ==> ValidPart(ps[i])
    ensures Proper(ps) == ps
  {
    if ps != [] {
      ProperOfValid(ps[1..]);
      assert ps == [ps[0]] + ps[1..];
    }
  }

  /** `Path(s)`: repeated separators and "." parts disappear; a leading
      separator makes the path absolute. Every parsed path is well
      formed. */
  function ParsePath(s: string): (r: Path)
    ensures ValidPath(r)
    ensures r.absolute <==> |s| > 0 && s[0] == '/'
  {
    var ps := Split(s, '/');
    assert forall i :: 0 <= i < |ps| ==> ps[i] in ps;
    ProperValid(ps);
    Path(|s| > 0 && s[0] == '/', Proper(ps))
  }

  /** `str(p)`: the parts joined by separators, behind a root separator
      when absolute; an empty relative path prints as ".". */
  function Text(p: Path): string {
    if p.absolute then "/" + Join(p.parts, '/')
    else if p.parts == [] then "."
    else Join(p.parts, '/')
  }

  lemma {:induction false} JoinHead(parts: seq<string>)
    requires |parts| > 0 && parts[0] != ""
    ensures |Join(parts, '/')| > 0 && Join(parts, '/')[0] == parts[0][0]
  {
  }

  /** Printing a well-formed path and parsing the text gives the path
      back. */
  lemma TextRoundTrip(p: Path)
    requires ValidPath(p)
    ensures ParsePath(Text(p)) == p
  {
    var j := Join(p.parts, '/');
    if p.parts != [] {
      assert forall x :: x in p.parts ==> '/' !in x;
      SplitJoin(p.parts, '/');
      ProperOfValid(p.parts);
    }
    if p.absolute {
      var t := "/" + j;
      assert t == "" + ['/'] + j;
      SplitAppend("", j, '/');
      var x := [""] + Split(j, '/');
      assert x[1..] == Split(j, '/');
      assert Proper(x) == Proper(Split(j, '/'));
      if p.parts == [] {
        assert Proper(Split(j, '/')) == Proper([""]) == [];
      }
      assert ParsePath(t) == Path(true, Proper(x));
    } else if p.parts == [] {
      assert Split(".", '/') == ["."] by {
        SplitNoSep(".", '/');
      }
    } else {
      JoinHead(p.parts);
    }
  }

  /** `p / q`: an absolute `q` replaces `p`, a relative one extends it. */
  function Div(p: Path, q: Path): (r: Path)
    ensures q.absolute ==> r == q
    ensures !q.absolute ==> r.absolute == p.absolute && r.parts == p.parts + q.parts
    ensures ValidPath(p) && ValidPath(q) ==> ValidPath(r)
  {
    if q.absolute then q else Path(p.absolute, p.parts + q.parts)
  }

  /** `str(p / q)` for a relative `q` is `str(p)`, a separator and
      `str(q)`, when both have parts. */
  lemma DivText(p: Path, q: Path)
    requires !q.absolute && p.parts != [] && q.parts != []
    ensures Text(Div(p, q)) == Text(p) + "/" + Text(q)
  {
    JoinAppend(p.parts, q.parts, '/');
  }

  /** `p.name`: the last part, or "" for a path without parts. */
  function Name(p: Path): string {
    if p.parts == [] then "" else p.parts[|p.parts| - 1]
  }

  function Parent(p: Path): Path {
    if p.parts == [] then p else Path(p.absolute, p.parts[..|p.parts| - 1])
  }

  /** The name of a well-formed path with parts is one part: joining it
      onto a directory adds exactly that part. */
  lemma NameChild(dir: Path, p: Path)
    requires ValidPath(p) && p.parts != []
    ensures Div(dir, ParsePath(Name(p))) == Path(dir.absolute, dir.parts + [Name(p)])
    ensures Parent(Div(dir, ParsePath(Name(p)))) == dir
  {
    var n := Name(p);
    assert ValidPart(p.parts[|p.parts| - 1]);
    TextRoundTrip(Path(false, [n]));
    assert Text(Path(false, [n])) == n;
    assert (dir.parts + [n])[..|dir.parts|] == dir.parts;
  }

  /** A file with its bytes, or a directory. */
  datatype Entry = File(content: seq<bv8>) | Directory

  /** The filesystem: what each absolute path holds. The root always
      exists and is a directory. */
  type Entries = map<Path, Entry>

  predicate IsRoot(p: Path) {
    p.absolute && p.parts == []
  }

  /** `p.exists()` for an absolute `p`. */
  predicate Exists(es: Entries, p: Path) {
    IsRoot(p) || p in es
  }

  /** `p.is_file()` for an absolute `p`; the root is never a file. */
  predicate IsFile(es: Entries, p: Path) {
    !IsRoot(p) && p in es && es[p].File?
  }

  /** `p.is_dir()` for an absolute `p`. */
  predicate IsDir(es: Entries, p: Path) {
    IsRoot(p) || (p in es && es[p].Directory?)
  }

  /** An `OSError` as the operating system reports it: the error number,
      its description and the file names involved. */
  datatype OsError = OsError(errno: nat, strerror: string, filename: string, filename2: Option<string>)
  {
    /** `except PermissionError` catches the errors numbered EPERM (1) and
        EACCES (13). */
    predicate IsPermission() {
      errno == 1 || errno == 13
    }

    /** `str(e)`: `[Errno n] description: 'file'`, with ` -> 'other'` for a
        two-file call. */
    function Text(): string {
      "[Errno " + NatToString(errno) + "] " + strerror + ": " + Repr(filename)
        + (if filename2.Some? then " -> " + Repr(filename2.value) else "")
    }
  }

  /** The `k`-th ancestor-or-self of `p`, counted from the root. */
  function Prefix(p: Path, k: nat): Path
    requires k <= |p.parts|
  {
    Path(p.absolute, p.parts[..k])
  }

  /** Every path from the first part down to `p` itself. */
  function Lineage(p: Path): set<Path> {
    set k | 1 <= k <= |p.parts| :: Prefix(p, k)
  }

  /** `p.mkdir(parents=True, exist_ok=True)` on the absolute `at`, `p`'s
      text being `name`: it fails when `at` itself is a file, or when an
      ancestor is one; otherwise every missing path of the lineage becomes
      a directory and nothing else changes. */
  function MakeDirs(es: Entries, at: Path, name: string): (r: Result<Entries, OsError>)
    ensures r.Err? ==> r.error.filename == name && (r.error.errno == 17 <==> IsFile(es, at))
    ensures r.Ok? ==> forall q :: q in es ==> q in r.value && r.value[q] == es[q]
  {
    if exists k :: 1 <= k <= |at.parts| && IsFile(es, Prefix(at, k)) then
      if IsFile(es, at) then Err(OsError(17, "File exists", name, None))
      else Err(OsError(20, "Not a directory", name, None))
    else Ok(es + map q | q in Lineage(at) && !Exists(es, q) :: Directory)
  }

  /** After a successful `mkdir` the directory and all its ancestors are
      directories and every existing entry keeps what it held; it fails
      exactly when some path of the lineage is a file. */
  lemma MakeDirsEffect(es: Entries, at: Path, name: string)
    requires at.absolute
    ensures MakeDirs(es, at, name).Err? <==> exists k :: 1 <= k <= |at.parts| && IsFile(es, Prefix(at, k))
    ensures MakeDirs(es, at, name).Ok? ==>
      var after := MakeDirs(es, at, name).value;
      && (forall k :: 1 <= k <= |at.parts| ==> IsDir(after, Prefix(at, k)))
      && IsDir(after, at)
      && (forall q :: q in es ==> q in after && after[q] == es[q])
      && (forall q :: q in after && q !in es ==> q in Lineage(at))
  {
    if MakeDirs(es, at, name).Ok? {
      var after := MakeDirs(es, at, name).value;
      forall k | 1 <= k <= |at.parts| ensures IsDir(after, Prefix(at, k)) {
        assert Prefix(at, k) in Lineage(at);
        if k == |at.parts| {
          assert Prefix(at, k) == at;
        }
      }
      if at.parts != [] {
        assert Prefix(at, |at.parts|) == at;
      }
    }
  }

  /** `os.rename(src, dst)` of an existing file `src` to an absent `dst`
      (the callers check both first), their texts being `srcName` and
      `dstName`: it fails with ENOENT (2) when `dst`'s directory is
      missing and with ENOTDIR (20) when that path is a file, or as the
      system refuses; otherwise the file is at `dst` and no longer at
      `src`. */
  function Rename(es: Entries, refuse: (Path, Path) -> Option<OsError>, src: Path, dst: Path,
                  srcName: string, dstName: string): (r: Result<Entries, OsError>)
    requires IsFile(es, src)
    ensures !IsDir(es, Parent(dst)) ==>
      r.Err? && r.error.errno == (if Exists(es, Parent(dst)) then 20 else 2) && r.error.filename2 == Some(dstName)
    ensures r.Ok? ==> dst in r.value && r.value[dst] == es[src]
    ensures r.Ok? ==> forall q :: q in r.value ==> q in es || q == dst
  {
    if !IsDir(es, Parent(dst)) then
      if Exists(es, Parent(dst)) then Err(OsError(20, "Not a directory", srcName, Some(dstName)))
      else Err(OsError(2, "No such file or directory", srcName, Some(dstName)))
    else if refuse(src, dst).Some? then Err(refuse(src, dst).value)
    else Ok((es - {src})[dst := es[src]])
  }

  /** A successful rename moves the one file and changes nothing else. */
  lemma RenameEffect(es: Entries, refuse: (Path, Path) -> Option<OsError>, src: Path, dst: Path,
                     srcName: string, dstName: string)
    requires IsFile(es, src) && !Exists(es, dst)
    ensures var r := Rename(es, refuse, src, dst, srcName, dstName);
      r.Ok? <==> IsDir(es, Parent(dst)) && refuse(src, dst).None?
    ensures var r := Rename(es, refuse, src, dst, srcName, dstName);
      r.Ok? ==>
        && src !in r.value && IsFile(r.value, dst) && r.value[dst] == es[src]
        && (forall q :: q != src && q != dst ==> (q in r.value <==> q in es))
        && (forall q :: q != src && q != dst && q in es ==> r.value[q] == es[q])
  {
  }

  /** The resolved form of `path` for a store whose base directory is
      `base`: an absolute path unchanged, a relative one joined onto the
      base and made absolute against the working directory `cwd`. */
  function Resolve(cwd: Path, base: Path, path: string): (r: Path)
    requires cwd.absolute
    ensures r.absolute
    ensures ParsePath(path).absolute ==> r == ParsePath(path)
    ensures !ParsePath(path).absolute ==>
      |r.parts| >= |ParsePath(path).parts| && r.parts[|r.parts| - |ParsePath(path).parts|..] == ParsePath(path).parts
  {
    var p := ParsePath(path);
    if p.absolute then p else Div(cwd, Div(base, p))
  }

  /** An absolute path resolves to itself; a relative one resolves below
      the base directory. */
  lemma ResolveCases(cwd: Path, base: Path, path: string)
    requires cwd.absolute
    ensures ParsePath(path).absolute ==> Resolve(cwd, base, path) == ParsePath(path)
    ensures !ParsePath(path).absolute && base.absolute ==>
      Resolve(cwd, base, path) == Path(true, base.parts + ParsePath(path).parts)
    ensures !ParsePath(path).absolute && !base.absolute ==>
      Resolve(cwd, base, path) == Path(true, cwd.parts + base.parts + ParsePath(path).parts)
  {
  }

  /** The filesystem the stores act on, with the working directory and the
      renames the system refuses (permissions, other devices). */
  class Disk {
    var entries: Entries
    const cwd: Path
    const refuse: (Path, Path) -> Option<OsError>

    constructor(entries: Entries, cwd: Path, refuse: (Path, Path) -> Option<OsError>)
      requires cwd.absolute
      ensures this.entries == entries && this.cwd == cwd && this.refuse == refuse
    {
      this.entries := entries;
      this.cwd := cwd;
      this.refuse := refuse;
    }

    /** `Path(dir).mkdir(parents=True, exist_ok=True)`. */
    method MakeDirectories(dir: Path) returns (e: Option<OsError>)
      requires cwd.absolute
      modifies this
      ensures match MakeDirs(old(entries), Div(cwd, dir), Text(dir))
        case Ok(es) => e.None? && entries == es
        case Err(x) => e == Some(x) && entries == old(entries)
    {
      var r := MakeDirs(entries, Div(cwd, dir), Text(dir));
      if r.Err? {
        return Some(r.error);
      }
      entries := r.value;
      return None;
    }

    /** `src.rename(dst)` for an existing file and an absent destination. */
    method RenameFile(src: Path, dst: Path) returns (e: Option<OsError>)
      requires cwd.absolute && IsFile(entries, Div(cwd, src))
      modifies this
      ensures match Rename(old(entries), refuse, Div(cwd, src), Div(cwd, dst), Text(src), Text(dst))
        case Ok(es) => e.None? && entries == es
        case Err(x) => e == Some(x) && entries == old(entries)
    {
      var r := Rename(entries, refuse, Div(cwd, src), Div(cwd, dst), Text(src), Text(dst));
      if r.Err? {
        return Some(r.error);
      }
      entries := r.value;
      return None;
    }
  }
}
