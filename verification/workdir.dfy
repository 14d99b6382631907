/** The working directory the snapshot code reads and rewrites, as an
    in-memory tree of regular files, directories and other entries, and the
    `is_ignored` filter (`jgit/base.py`). */
module WorkDir {
  import opened Failures
  import opened Text
  import opened Data

  /** A location below the working directory, one name per level; `[]` is
      the working directory itself. */
  type Path = seq<string>

  /** A name a directory can hold. */
  predicate GoodName(n: string) {
    n != "" && '/' !in n && n != "." && n != ".."
  }

  /** The directory holding `p`. */
  function Parent(p: Path): Path
    requires p != []
  {
    p[..|p| - 1]
  }

  /** A well-formed directory tree: the working directory exists, no
      location is two kinds of entry, and every entry sits, under a good
      name, in a directory that exists. `others` are entries that are neither
      regular files nor directories, such as symbolic links. */
  ghost predicate Tidy(files: map<Path, Bytes>, dirs: set<Path>, others: set<Path>) {
    && [] in dirs
    && (forall p :: p in files ==> p !in dirs && p !in others)
    && (forall p :: p in dirs ==> p !in others)
    && (forall p :: p in files ==> p != [] && Parent(p) in dirs && GoodName(p[|p| - 1]))
    && (forall p {:trigger Parent(p)} :: p in dirs && p != [] ==> Parent(p) in dirs)
    && (forall p :: p in dirs && p != [] ==> GoodName(p[|p| - 1]))
    && (forall p :: p in others ==> p != [] && Parent(p) in dirs && GoodName(p[|p| - 1]))
  }

  /** The working directory. */
  class FileSystem {
    var files: map<Path, Bytes>
    var dirs: set<Path>
    var others: set<Path>

    ghost predicate Valid()
      reads this
    {
      Tidy(files, dirs, others)
    }

    constructor (files: map<Path, Bytes>, dirs: set<Path>, others: set<Path>)
      requires Tidy(files, dirs, others)
      ensures Valid()
      ensures this.files == files && this.dirs == dirs && this.others == others
    {
      this.files := files;
      this.dirs := dirs;
      this.others := others;
    }

    /** `os.remove(path)` on a regular file. */
    method Remove(p: Path)
      requires Valid() && p in files
      modifies this
      ensures Valid()
      ensures files == old(files) - {p} && dirs == old(dirs) && others == old(others)
    {
      files := files - {p};
    }

    /** `os.remove(path)` on an entry that is not a regular file or a
        directory, such as a symbolic link: the entry itself goes. */
    method RemoveOther(p: Path)
      requires Valid() && p in others
      modifies this
      ensures Valid()
      ensures others == old(others) - {p} && files == old(files) && dirs == old(dirs)
    {
      others := others - {p};
    }

    /** `os.makedirs(d, exist_ok=True)`: every missing directory on the way
        to `d` is created. It fails when a location on the way is not a
        directory: with `FileExistsError` when that location is `d` itself,
        with `NotADirectoryError` when it is above `d`. */
    method MakeDirs(d: Path) returns (failure: Option<Error>)
      requires Valid() && forall i :: 0 <= i < |d| ==> GoodName(d[i])
      modifies this
      ensures Valid()
      ensures files == old(files) && others == old(others)
      ensures failure.None? <==> forall i :: 0 < i <= |d| ==> d[..i] !in old(files) && d[..i] !in old(others)
      ensures failure.None? ==> dirs == old(dirs) + Prefixes(d)
      ensures failure.Some? ==> dirs == old(dirs) && MakeDirsStops(old(files), old(others), d, failure.value)
    {
      failure := FirstBlock(files, others, d, 0);
      if failure.None? {
        MadeDirsTidy(files, dirs, others, d);
        dirs := dirs + Prefixes(d);
      }
    }

    /** `open(p, 'wb')`: a regular file at `p` is truncated, a missing one
        is created empty, and a directory cannot be opened. */
    method Create(p: Path) returns (failure: Option<Error>)
      requires Valid() && p !in others
      requires p != [] ==> Parent(p) in dirs && GoodName(p[|p| - 1])
      modifies this
      ensures Valid()
      ensures failure.Some? <==> p in dirs
      ensures failure.Some? ==> failure == Some(IsADirectory(p)) && files == old(files)
      ensures failure.None? ==> files == old(files)[p := []]
      ensures dirs == old(dirs) && others == old(others)
    {
      if p in dirs {
        return Some(IsADirectory(p));
      }
      files := files[p := []];
      return None;
    }

    /** `f.write(data)` on a file just opened for writing. */
    method Write(p: Path, data: Bytes)
      requires Valid() && p in files
      modifies this
      ensures Valid()
      ensures files == old(files)[p := data] && dirs == old(dirs) && others == old(others)
    {
      files := files[p := data];
    }
  }

  /** A location on the way to `d`, `d` included, is a regular file in
      `files`, so that `os.makedirs(d)` cannot go through. */
  predicate DirBlocked(files: map<Path, Bytes>, d: Path) {
    exists i :: 0 < i <= |d| && d[..i] in files
  }

  /** `os.makedirs(d, exist_ok=True)` raises `e`: `d[..i]` is the first
      location on the way to `d` that is not a directory, and the error is
      `FileExistsError` when it is `d` itself, `NotADirectoryError` for the
      next level down otherwise. */
  predicate MakeDirsStops(files: map<Path, Bytes>, others: set<Path>, d: Path, e: Error) {
    exists i :: 0 < i <= |d| && (d[..i] in files || d[..i] in others)
      && (forall j :: 0 < j < i ==> d[..j] !in files && d[..j] !in others)
      && e == (if i == |d| then FileExists(d) else NotADirectory(d[..i + 1]))
  }

  /** What `os.makedirs(d)` raises, if anything, when the first `i` levels
      of `d` are known not to be files or other entries: the levels below
      are looked at in turn, down to the first that is not a directory. */
  function FirstBlock(files: map<Path, Bytes>, others: set<Path>, d: Path, i: nat): (r: Option<Error>)
    requires i <= |d|
    requires forall j :: 0 < j <= i ==> d[..j] !in files && d[..j] !in others
    ensures r.None? <==> forall j :: 0 < j <= |d| ==> d[..j] !in files && d[..j] !in others
    ensures r.Some? ==> MakeDirsStops(files, others, d, r.value)
    decreases |d| - i
  {
    if i == |d| then None
    else if d[..i + 1] in files || d[..i + 1] in others then
      StopsAt(files, others, d, i + 1);
      Some(if i + 1 == |d| then FileExists(d) else NotADirectory(d[..i + 2]))
    else FirstBlock(files, others, d, i + 1)
  }

  /** Making every directory on the way to `d` keeps the directory tree
      well formed when none of those locations is a file or other entry. */
  lemma MadeDirsTidy(files: map<Path, Bytes>, dirs: set<Path>, others: set<Path>, d: Path)
    requires Tidy(files, dirs, others)
    requires forall i :: 0 <= i < |d| ==> GoodName(d[i])
    requires forall i :: 0 < i <= |d| ==> d[..i] !in files && d[..i] !in others
    ensures Tidy(files, dirs + Prefixes(d), others)
  {
    forall p | p in Prefixes(d)
      ensures Parent(p) in dirs + Prefixes(d) && GoodName(p[|p| - 1])
    {
      var i :| 0 < i <= |d| && p == d[..i];
      assert Parent(p) == d[..i - 1];
    }
  }

  /** `os.makedirs(d)` stops at `d[..i]` when that is the first location on
      the way to `d` that is not a directory. */
  lemma StopsAt(files: map<Path, Bytes>, others: set<Path>, d: Path, i: nat)
    requires 0 < i <= |d| && (d[..i] in files || d[..i] in others)
    requires forall j :: 0 < j < i ==> d[..j] !in files && d[..j] !in others
    ensures MakeDirsStops(files, others, d, if i == |d| then FileExists(d) else NotADirectory(d[..i + 1]))
  {
  }

  /** Every directory on the way to `d`, `d` included, the working directory
      not. */
  function Prefixes(d: Path): (r: set<Path>)
    ensures forall q :: q in r <==> exists i :: 0 < i <= |d| && q == d[..i]
  {
    set i | 0 < i <= |d| :: d[..i]
  }

  /** `is_ignored(path)` (base.py:115-116): a single name is ignored exactly
      when it is `.jgit`; with `IgnoredSlash` this fixes it for every path. */
  predicate IsIgnored(path: string)
    ensures '/' !in path ==> (IsIgnored(path) <==> path == GitDir)
  {
    GitDir in Split(path, '/')
  }

  /** A path joined at a `'/'` is ignored exactly when one side is. */
  lemma IgnoredSlash(a: string, b: string)
    ensures IsIgnored(a + "/" + b) <==> IsIgnored(a) || IsIgnored(b)
  {
    SplitConcat(a, b, '/');
  }

  /** The working-directory-relative spelling of a location,
      `os.path.relpath` of it (base.py:97, 104). */
  function RelPath(p: Path): string {
    Join(p, '/')
  }

  /** The spelling `write_tree` builds for a location, `'.'` followed by one
      `'/' + name` per level (base.py:13). */
  function Render(p: Path): string {
    Join(["."] + p, '/')
  }

  /** A location is ignored when one of its names is `.jgit`, whichever way
      it is spelt; a name that merely contains `.jgit` does not count. */
  lemma {:induction false} IgnoredNames(p: Path)
    requires forall i :: 0 <= i < |p| ==> '/' !in p[i]
    ensures p != [] ==> (IsIgnored(RelPath(p)) <==> GitDir in p)
    ensures IsIgnored(Render(p)) <==> GitDir in p
  {
    if p != [] {
      SplitJoin(p, '/');
    }
    SplitJoin(["."] + p, '/');
    assert GitDir in ["."] + p <==> GitDir in p by {
      assert GitDir != ".";
      assert forall x :: x in ["."] + p <==> x == "." || x in p;
    }
  }

  /** Every name on the way to an entry of a well-formed tree is good. */
  lemma {:induction false} NamesGood(files: map<Path, Bytes>, dirs: set<Path>, others: set<Path>, p: Path)
    requires Tidy(files, dirs, others)
    requires p in files || p in dirs || p in others
    ensures forall i :: 0 <= i < |p| ==> GoodName(p[i])
    decreases |p|
  {
    if p != [] {
      var q := Parent(p);
      NamesGood(files, dirs, others, q);
      assert forall i :: 0 <= i < |q| ==> p[i] == q[i];
    }
  }
}
