/** The file system the builder reads and writes: a map from path to bytes
    and a set of directories. Paths are compared as strings, so the model
    assumes callers use one spelling per file (no `..`, no doubled slashes).
    Each operation is a function of the old state that gives the new state or
    the exception Python raises; the class `FileSystem` holds the state and
    its methods are proved to perform exactly those functions. */
module Disk {
  import opened Common
  import opened Paths

  datatype Fs = Fs(files: map<Path, Bytes>, dirs: set<Path>)

  /** What an operation leaves behind, with its outcome. */
  datatype Step<+T> = Step(fs: Fs, result: Result<T>)

  /** `os.path.exists(p)`: a file or a directory; the empty path never exists. */
  predicate Exists(fs: Fs, p: Path) {
    p != [] && (p in fs.files || p in fs.dirs)
  }

  /** The directory `p` would be created in is there (a bare name lives in
      the working directory, which exists). */
  predicate ParentExists(fs: Fs, p: Path) {
    var d := Dirname(p);
    d == [] || d in fs.dirs
  }

  /** `open(p, 'wb').write(data)`: fails on a directory, on the empty name and
      when the containing directory is missing. */
  function AfterWrite(fs: Fs, p: Path, data: Bytes): (r: Result<Fs>)
    ensures r.Ok? ==> r.value.files == fs.files[p := data] && r.value.dirs == fs.dirs
    ensures r.Err? ==> r.error == IOError
    ensures r.Ok? <==> p != [] && p !in fs.dirs && ParentExists(fs, p)
  {
    if p == [] || p in fs.dirs || !ParentExists(fs, p) then Err(IOError)
    else Ok(Fs(fs.files[p := data], fs.dirs))
  }

  /** `open(p, 'rb').read()`: only regular files can be read. */
  function Read(fs: Fs, p: Path): (r: Result<Bytes>)
    ensures r.Ok? <==> p in fs.files
    ensures r.Ok? ==> r.value == fs.files[p]
    ensures r.Err? ==> r.error == IOError
  {
    if p in fs.files then Ok(fs.files[p]) else Err(IOError)
  }

  /** `os.makedirs(p)`: creates `p` and its missing ancestors; raises when `p`
      is empty or exists, or when an ancestor is a regular file. */
  function AfterMakeDirs(fs: Fs, p: Path): (r: Result<Fs>)
    ensures r.Ok? ==> r.value.files == fs.files && r.value.dirs == fs.dirs + Lineage(p)
    ensures r.Ok? ==> Exists(r.value, p) && !Exists(fs, p)
    ensures r.Err? ==> r.error == OSError
  {
    if p == [] || Exists(fs, p) || !(Lineage(p) !! fs.files.Keys) then Err(OSError)
    else Ok(Fs(fs.files, fs.dirs + Lineage(p)))
  }

  /** `os.unlink(p)` */
  function AfterUnlink(fs: Fs, p: Path): (r: Result<Fs>)
    ensures r.Ok? <==> p in fs.files
    ensures r.Ok? ==> r.value.files == fs.files - {p} && r.value.dirs == fs.dirs
    ensures r.Err? ==> r.error == OSError
  {
    if p in fs.files then Ok(Fs(fs.files - {p}, fs.dirs)) else Err(OSError)
  }

  /** Nothing but `p` itself has `p` as its directory. */
  predicate EmptyDir(fs: Fs, p: Path) {
    (forall q :: q in fs.files ==> Dirname(q) != p) &&
    (forall q :: q in fs.dirs && q != p ==> Dirname(q) != p)
  }

  /** `os.rmdir(p)`: only an empty directory can be removed. */
  function AfterRmDir(fs: Fs, p: Path): (r: Result<Fs>)
    ensures r.Ok? <==> p in fs.dirs && EmptyDir(fs, p)
    ensures r.Ok? ==> r.value.files == fs.files && r.value.dirs == fs.dirs - {p}
    ensures r.Err? ==> r.error == OSError
  {
    if p in fs.dirs && EmptyDir(fs, p) then Ok(Fs(fs.files, fs.dirs - {p})) else Err(OSError)
  }

  /** The state after an operation that either succeeded or raised with no
      effect. */
  function Commit(fs: Fs, r: Result<Fs>): Fs {
    if r.Ok? then r.value else fs
  }

  function Status(r: Result<Fs>): Result<()> {
    if r.Ok? then Ok(()) else Err(r.error)
  }

  /** Reading back a file just written gives the bytes written, and every
      other file keeps its contents. */
  lemma WriteThenRead(fs: Fs, p: Path, data: Bytes, q: Path)
    requires AfterWrite(fs, p, data).Ok?
    ensures Read(AfterWrite(fs, p, data).value, p) == Ok(data)
    ensures q != p ==> Read(AfterWrite(fs, p, data).value, q) == Read(fs, q)
  {
  }

  /** After `makedirs` every ancestor of the new directory is a directory,
      so a file can be written directly inside it. */
  lemma MakeDirsThenWrite(fs: Fs, d: Path, name: Path, data: Bytes)
    requires AfterMakeDirs(fs, d).Ok?
    requires Dirname(name) == d && name != [] && name !in fs.dirs + Lineage(d)
    ensures AfterWrite(AfterMakeDirs(fs, d).value, name, data).Ok?
  {
  }

  /** Removing a file and then its now empty directory leaves neither. */
  lemma UnlinkThenRmDir(fs: Fs, f: Path, d: Path)
    requires Dirname(f) == d && f in fs.files && d in fs.dirs && d !in fs.files
    requires forall q :: q in fs.files && q != f ==> Dirname(q) != d
    requires forall q :: q in fs.dirs && q != d ==> Dirname(q) != d
    ensures AfterUnlink(fs, f).Ok?
    ensures AfterRmDir(AfterUnlink(fs, f).value, d).Ok?
    ensures !Exists(AfterRmDir(AfterUnlink(fs, f).value, d).value, f)
    ensures !Exists(AfterRmDir(AfterUnlink(fs, f).value, d).value, d)
  {
  }

  /** The operating system's files and directories, updated in place. */
  class FileSystem {
    var files: map<Path, Bytes>
    var dirs: set<Path>

    function State(): Fs
      reads this
    {
      Fs(files, dirs)
    }

    constructor(init: Fs)
      ensures State() == init
    {
      files := init.files;
      dirs := init.dirs;
    }

    /** The effect of code outside the model (such as `build_data`), given
        as the state it leaves. */
    method Replace(next: Fs)
      modifies this
      ensures State() == next
    {
      files := next.files;
      dirs := next.dirs;
    }

    method ReadFile(p: Path) returns (r: Result<Bytes>)
      ensures r == Read(State(), p)
    {
      if p in files {
        r := Ok(files[p]);
      } else {
        r := Err(IOError);
      }
    }

    method WriteFile(p: Path, data: Bytes) returns (r: Result<()>)
      modifies this
      ensures State() == Commit(old(State()), AfterWrite(old(State()), p, data))
      ensures r == Status(AfterWrite(old(State()), p, data))
    {
      if p == [] || p in dirs {
        r := Err(IOError);
        return;
      }
      var d := Dirname(p);
      if d != [] && d !in dirs {
        r := Err(IOError);
        return;
      }
      files := files[p := data];
      r := Ok(());
    }

    method MakeDirs(p: Path) returns (r: Result<()>)
      modifies this
      ensures State() == Commit(old(State()), AfterMakeDirs(old(State()), p))
      ensures r == Status(AfterMakeDirs(old(State()), p))
    {
      var lineage := Lineage(p);
      if p == [] || p in files || p in dirs || !(lineage !! files.Keys) {
        r := Err(OSError);
        return;
      }
      dirs := dirs + lineage;
      r := Ok(());
    }

    method Unlink(p: Path) returns (r: Result<()>)
      modifies this
      ensures State() == Commit(old(State()), AfterUnlink(old(State()), p))
      ensures r == Status(AfterUnlink(old(State()), p))
    {
      if p !in files {
        r := Err(OSError);
        return;
      }
      files := files - {p};
      r := Ok(());
    }

    method RmDir(p: Path) returns (r: Result<()>)
      modifies this
      ensures State() == Commit(old(State()), AfterRmDir(old(State()), p))
      ensures r == Status(AfterRmDir(old(State()), p))
    {
      if p !in dirs || !EmptyDir(State(), p) {
        r := Err(OSError);
        return;
      }
      dirs := dirs - {p};
      r := Ok(());
    }
  }
}
