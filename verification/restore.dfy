/** Replacing the working directory with a snapshot (`jgit/base.py`):
    `empty_current_directory` and `read_tree`. */
module Restore {
  import opened Failures
  import opened Text
  import opened Data
  import opened TreeCodec
  import opened Flatten
  import opened WorkDir
  import Snapshot

  /** The files that survive emptying the working directory: those with a
      `.jgit` name on their way. */
  function Kept(files: map<Path, Bytes>): (r: map<Path, Bytes>)
  {
    map p | p in files && GitDir in p :: files[p]
  }

  /** The files still there while `empty_current_directory` walks: those in
      directories not yet visited, those of the current directory not yet
      looked at, and the ignored ones. */
  function Survivors(files: map<Path, Bytes>, pendingDirs: set<Path>, pendingPaths: set<Path>)
    : map<Path, Bytes>
  {
    map p | p in files && (p == [] || Parent(p) in pendingDirs || p in pendingPaths || GitDir in p) :: files[p]
  }

  /** The other entries that survive emptying the working directory: all
      but the symbolic links to regular files outside `.jgit`. */
  function KeptOthers(others: set<Path>, fileLinks: set<Path>): (r: set<Path>)
  {
    set p | p in others && (p !in fileLinks || GitDir in p)
  }

  /** The other entries still there while `empty_current_directory` walks. */
  function OthersLeft(others: set<Path>, fileLinks: set<Path>, pendingDirs: set<Path>, pendingPaths: set<Path>)
    : set<Path>
  {
    set p | p in others && (p == [] || Parent(p) in pendingDirs || p in pendingPaths || p !in fileLinks || GitDir in p)
  }

  /** `empty_current_directory()` (base.py:89-111): every regular file whose
      path has no `.jgit` name is removed, and so is every such entry of
      `fileLinks`, the symbolic links `os.path.isfile` follows to a regular
      file (base.py:98). Directories are not: the guard at base.py:105 asks
      `os.path.isfile` of a directory, which never holds, so the `rmdir`
      below it is never reached. */
  method EmptyCurrentDirectory(fs: FileSystem, fileLinks: set<Path>)
    requires fs.Valid()
    modifies fs
    ensures fs.Valid()
    ensures fs.files == Kept(old(fs.files))
    ensures fs.others == KeptOthers(old(fs.others), fileLinks)
    ensures fs.dirs == old(fs.dirs)
  {
    var roots := fs.dirs;
    while roots != {}
      invariant fs.Valid()
      invariant fs.dirs == old(fs.dirs)
      invariant fs.files == Survivors(old(fs.files), roots, {})
      invariant fs.others == OthersLeft(old(fs.others), fileLinks, roots, {})
    {
      var root :| root in roots;
      var filenames := set p | p in fs.files.Keys + fs.others && p != [] && Parent(p) == root;
      SurvivorsEnter(old(fs.files), fs.files, fs.others, roots, root);
      OthersEnter(old(fs.others), fileLinks, fs.files.Keys, fs.others, roots, root);
      roots := roots - {root};
      while filenames != {}
        invariant fs.Valid()
        invariant fs.dirs == old(fs.dirs)
        invariant forall p :: p in filenames ==> p != [] && Parent(p) == root
        invariant fs.files == Survivors(old(fs.files), roots, filenames)
        invariant fs.others == OthersLeft(old(fs.others), fileLinks, roots, filenames)
      {
        var path :| path in filenames;
        NamesGood(fs.files, fs.dirs, fs.others, path);
        IgnoredNames(path);
        SurvivorsLook(old(fs.files), fs.files, roots, filenames, path);
        OthersLook(old(fs.others), fileLinks, fs.others, roots, filenames, path);
        filenames := filenames - {path};
        var isFile := path in fs.files || (path in fs.others && path in fileLinks);
        if IsIgnored(RelPath(path)) || !isFile {
          continue;
        }
        if path in fs.files {
          fs.Remove(path);
        } else {
          fs.RemoveOther(path);
        }
      }
      var dirnames := set q | q in fs.dirs && q != [] && Parent(q) == root;
      while dirnames != {}
        invariant dirnames <= fs.dirs
      {
        var path :| path in dirnames;
        dirnames := dirnames - {path};
        if !IsIgnored(RelPath(path)) && path in fs.files {
          assert false;
        }
      }
    }
    SurvivorsLeave(old(fs.files));
    OthersLeave(old(fs.others), fileLinks);
  }

  /** Entering a directory: its files are listed, and are the ones of it
      still there. */
  lemma SurvivorsEnter(files: map<Path, Bytes>, current: map<Path, Bytes>, others: set<Path>,
                       roots: set<Path>, root: Path)
    requires root in roots && current == Survivors(files, roots, {})
    ensures current == Survivors(files, roots - {root},
                                 set p | p in current.Keys + others && p != [] && Parent(p) == root)
  {
  }

  /** Looking at one listed path: it stays exactly when it is ignored. */
  lemma SurvivorsLook(files: map<Path, Bytes>, current: map<Path, Bytes>, roots: set<Path>,
                      pending: set<Path>, path: Path)
    requires path in pending && path != [] && Parent(path) !in roots
    requires current == Survivors(files, roots, pending)
    ensures GitDir in path || path !in current ==> current == Survivors(files, roots, pending - {path})
    ensures GitDir !in path && path in current ==> current - {path} == Survivors(files, roots, pending - {path})
  {
  }

  /** Once every directory has been visited, the ignored files are left. */
  lemma SurvivorsLeave(files: map<Path, Bytes>)
    ensures Survivors(files, {}, {}) == map p | p in files && (p == [] || GitDir in p) :: files[p]
  {
  }

  /** Entering a directory: its other entries are listed among its names. */
  lemma OthersEnter(others: set<Path>, fileLinks: set<Path>, fileKeys: set<Path>, current: set<Path>,
                    roots: set<Path>, root: Path)
    requires root in roots && current == OthersLeft(others, fileLinks, roots, {})
    ensures current == OthersLeft(others, fileLinks, roots - {root},
                                  set p | p in fileKeys + current && p != [] && Parent(p) == root)
  {
  }

  /** Looking at one listed path: a link to a file outside `.jgit` goes,
      every other entry stays. */
  lemma OthersLook(others: set<Path>, fileLinks: set<Path>, current: set<Path>, roots: set<Path>,
                   pending: set<Path>, path: Path)
    requires path in pending && path != [] && Parent(path) !in roots
    requires current == OthersLeft(others, fileLinks, roots, pending)
    ensures GitDir in path || path !in fileLinks || path !in current ==>
              current == OthersLeft(others, fileLinks, roots, pending - {path})
    ensures GitDir !in path && path in fileLinks && path in current ==>
              current - {path} == OthersLeft(others, fileLinks, roots, pending - {path})
  {
  }

  /** Once every directory has been visited, only the kept other entries are left. */
  lemma OthersLeave(others: set<Path>, fileLinks: set<Path>)
    requires forall p :: p in others ==> p != []
    ensures OthersLeft(others, fileLinks, {}, {}) == KeptOthers(others, fileLinks)
  {
  }

  /** The names the operating system follows for a `'/'`-separated path
      relative to the working directory: empty names, from doubled or
      trailing slashes, and `.` leave the location where it is. */
  function Clean(parts: seq<string>): Path
  {
    if parts == [] then []
    else
      var last := parts[|parts| - 1];
      Clean(parts[..|parts| - 1]) + (if last == "" || last == "." then [] else [last])
  }

  /** The location `open(path)` names. */
  function Target(path: string): Path {
    Clean(Split(path, '/'))
  }

  /** The location `os.path.dirname(path)` names: the path up to its last
      `'/'`. */
  function DirOf(path: string): Path {
    var parts := Split(path, '/');
    Clean(parts[..|parts| - 1])
  }

  /** A path names its directory or one good name below it. */
  lemma TargetInDir(path: string)
    requires Inside(["."], path)
    ensures forall i :: 0 <= i < |DirOf(path)| ==> GoodName(DirOf(path)[i])
    ensures var t := Target(path);
            t == DirOf(path) || (t != [] && Parent(t) == DirOf(path) && GoodName(t[|t| - 1]))
  {
    var parts := Split(path, '/');
    CleanNames(parts[..|parts| - 1]);
  }

  lemma {:induction false} CleanNames(parts: seq<string>)
    requires forall i :: 0 <= i < |parts| ==> '/' !in parts[i] && parts[i] != ".."
    ensures forall i :: 0 <= i < |Clean(parts)| ==> GoodName(Clean(parts)[i])
    decreases |parts|
  {
    if parts != [] {
      CleanNames(parts[..|parts| - 1]);
    }
  }

  /** Every path of `order` is a path of `tree` whose object `getObject`
      reads. */
  predicate AllRead(getObject: string -> Result<Bytes>, tree: map<string, string>, order: seq<string>) {
    forall i :: 0 <= i < |order| ==> order[i] in tree && getObject(tree[order[i]]).Ok?
  }

  /** The files once the paths `order` of `tree` have been written, in that
      order, over `emptied`: each write replaces what its location held. */
  function Checkout(getObject: string -> Result<Bytes>, tree: map<string, string>,
                    emptied: map<Path, Bytes>, order: seq<string>): map<Path, Bytes>
    requires AllRead(getObject, tree, order)
    decreases |order|
  {
    if order == [] then emptied
    else
      var k := order[|order| - 1];
      Checkout(getObject, tree, emptied, order[..|order| - 1])[Target(k) := getObject(tree[k]).value]
  }

  /** The directories once those of the paths `order` have been made over
      `dirs0`. */
  function MadeDirs(dirs0: set<Path>, order: seq<string>): set<Path>
    decreases |order|
  {
    if order == [] then dirs0
    else MadeDirs(dirs0, order[..|order| - 1]) + Prefixes(DirOf(order[|order| - 1]))
  }

  /** `get_object(oid)` with the default expected type, over the store
      contents `objects`. */
  function Reader(objects: map<string, Bytes>): string -> Result<Bytes> {
    oid => GetObject(objects, oid)
  }

  /** `read_tree(tree_oid)` (base.py:77-84): empty the working directory,
      then, for each path of `get_tree(tree_oid, './')` in turn, create its
      directory, open the file for writing and write the content of the
      path's object read as type `blob`. `order` is the order in which the
      dictionary gave its paths, up to a failure, and `stop` the path at
      which a failure stopped the loop; a file an `open` emptied stays empty
      when its object cannot be read. */
  method ReadTree(store: Store, fs: FileSystem, treeOid: string, depth: nat)
    returns (failure: Option<Error>, ghost order: seq<string>, ghost stop: string)
    requires fs.Valid() && fs.others == {}
    modifies fs
    ensures fs.Valid() && fs.others == {}
    ensures Flatten.Flatten(Trees(store.objects), treeOid, "./", depth).Err? ==>
              && failure == Some(Flatten.Flatten(Trees(store.objects), treeOid, "./", depth).error)
              && fs.files == Kept(old(fs.files)) && fs.dirs == old(fs.dirs)
    ensures Flatten.Flatten(Trees(store.objects), treeOid, "./", depth).Ok? ==>
              var tree := Flatten.Flatten(Trees(store.objects), treeOid, "./", depth).value;
              Looped(Reader(store.objects), tree, Kept(old(fs.files)), old(fs.dirs), order, stop,
                     failure, fs.files, fs.dirs)
  {
    EmptyCurrentDirectory(fs, {});
    var got := GetTree(Trees(store.objects), treeOid, depth, "./");
    if got.Err? {
      return Some(got.error), [], "";
    }
    assert Join(["."], '/') + "/" == "./";
    FlattenInside(Trees(store.objects), treeOid, ["."], depth);
    failure, order, stop := WriteFiles(Reader(store.objects), fs, got.value);
  }

  /** What the loop of base.py:80-84 leaves: with no failure, every path of
      `tree` written in the order `order`; after a failure at the path
      `stop`, the paths before it written and `stop` failed as `Stopped`
      says. */
  ghost predicate Looped(getObject: string -> Result<Bytes>, tree: map<string, string>,
                         emptied: map<Path, Bytes>, dirs0: set<Path>, order: seq<string>, stop: string,
                         failure: Option<Error>, files: map<Path, Bytes>, dirs: set<Path>)
  {
    && AllRead(getObject, tree, order)
    && (failure.None? ==>
          && (forall k :: k in order <==> k in tree)
          && files == Checkout(getObject, tree, emptied, order)
          && dirs == MadeDirs(dirs0, order))
    && (failure.Some? ==>
          && stop in tree && stop !in order
          && Stopped(getObject(tree[stop]), Checkout(getObject, tree, emptied, order), MadeDirs(dirs0, order),
                     DirOf(stop), Target(stop), failure.value, files, dirs))
  }

  /** One turn of the loop of base.py:81-84 that raised `e`, for the
      location `target` in the directory `dir`, from the files `before` and
      the directories `made` to `files` and `dirs`: either `os.makedirs`
      stopped at a file on the way to `dir`, changing nothing; or `open` met
      a directory at `target`; or `open` emptied `target` and reading the
      object, `got`, then failed. */
  predicate Stopped(got: Result<Bytes>, before: map<Path, Bytes>, made: set<Path>, dir: Path, target: Path,
                    e: Error, files: map<Path, Bytes>, dirs: set<Path>)
  {
    if DirBlocked(before, dir) then
      MakeDirsStops(before, {}, dir, e) && files == before && dirs == made
    else
      && dirs == made + Prefixes(dir)
      && if target in dirs then e == IsADirectory(target) && files == before
         else got.Err? && e == got.error && files == before[target := []]
  }

  /** The loop of base.py:80-84 over the paths of `tree`, reading objects
      with `getObject`. */
  method WriteFiles(getObject: string -> Result<Bytes>, fs: FileSystem, tree: map<string, string>)
    returns (failure: Option<Error>, ghost order: seq<string>, ghost stop: string)
    requires fs.Valid() && fs.others == {}
    requires forall k :: k in tree ==> Inside(["."], k)
    modifies fs
    ensures fs.Valid() && fs.others == {}
    ensures Looped(getObject, tree, old(fs.files), old(fs.dirs), order, stop, failure, fs.files, fs.dirs)
  {
    order, stop := [], "";
    var pending := tree.Keys;
    while pending != {}
      invariant fs.Valid() && fs.others == {}
      invariant pending <= tree.Keys
      invariant forall k :: k in order <==> k in tree && k !in pending
      invariant AllRead(getObject, tree, order)
      invariant fs.files == Checkout(getObject, tree, old(fs.files), order)
      invariant fs.dirs == MadeDirs(old(fs.dirs), order)
    {
      var path :| path in pending;
      var got := getObject(tree[path]);
      TargetInDir(path);
      failure := WriteFile(fs, DirOf(path), Target(path), got);
      if failure.Some? {
        stop := path;
        return;
      }
      CheckoutSnoc(getObject, tree, old(fs.files), old(fs.dirs), order, path);
      OrderSnoc(tree, order, pending, path);
      order := order + [path];
      pending := pending - {path};
    }
    return None, order, stop;
  }

  /** One turn of the loop of base.py:80-84 for a path naming the location
      `target` in the directory `dir`: `os.makedirs(dir)`, `open` of `target`
      for writing, and the write of `got`, what reading the path's object
      gives. Objects are read from the store as it stood when the loop
      began, so that read can be made by the caller; it still takes effect
      only after the `open`. A path through `.jgit/objects` would overwrite an
      object file in the source, which this model of the store does not
      capture. */
  method WriteFile(fs: FileSystem, dir: Path, target: Path, got: Result<Bytes>)
    returns (failure: Option<Error>)
    requires fs.Valid() && fs.others == {}
    requires forall i :: 0 <= i < |dir| ==> GoodName(dir[i])
    requires target == dir || (target != [] && Parent(target) == dir && GoodName(target[|target| - 1]))
    modifies fs
    ensures fs.Valid() && fs.others == {}
    ensures failure.None? <==>
              !DirBlocked(old(fs.files), dir) && target !in old(fs.dirs) + Prefixes(dir) && got.Ok?
    ensures failure.None? ==> fs.files == old(fs.files)[target := got.value]
    ensures failure.None? ==> fs.dirs == old(fs.dirs) + Prefixes(dir)
    ensures failure.Some? ==>
              Stopped(got, old(fs.files), old(fs.dirs), dir, target, failure.value, fs.files, fs.dirs)
  {
    failure := fs.MakeDirs(dir);
    if failure.Some? {
      assert DirBlocked(old(fs.files), dir);
      return;
    }
    assert !DirBlocked(old(fs.files), dir);
    assert fs.dirs == old(fs.dirs) + Prefixes(dir);
    assert dir in fs.dirs by {
      if dir != [] { assert dir == dir[..|dir|]; }
    }
    failure := fs.Create(target);
    if failure.Some? {
      assert target in fs.dirs;
      return;
    }
    assert target !in fs.dirs;
    if got.Err? {
      return Some(got.error);
    }
    fs.Write(target, got.value);
    Overwrite(old(fs.files), target, [], got.value);
  }

  /** A second write of a location replaces the first. */
  lemma Overwrite(files: map<Path, Bytes>, p: Path, first: Bytes, second: Bytes)
    ensures files[p := first][p := second] == files[p := second]
  {
  }

  /** Writing one more path extends the checkout by that path's write. */
  lemma CheckoutSnoc(getObject: string -> Result<Bytes>, tree: map<string, string>,
                     emptied: map<Path, Bytes>, dirs0: set<Path>, order: seq<string>, path: string)
    requires AllRead(getObject, tree, order) && path in tree && getObject(tree[path]).Ok?
    ensures AllRead(getObject, tree, order + [path])
    ensures Checkout(getObject, tree, emptied, order + [path])
            == Checkout(getObject, tree, emptied, order)[Target(path) := getObject(tree[path]).value]
    ensures MadeDirs(dirs0, order + [path]) == MadeDirs(dirs0, order) + Prefixes(DirOf(path))
  {
    assert (order + [path])[..|order|] == order;
  }

  lemma OrderSnoc(tree: map<string, string>, order: seq<string>, pending: set<string>, path: string)
    requires path in pending && pending <= tree.Keys
    requires forall k :: k in order <==> k in tree && k !in pending
    ensures forall k :: k in order + [path] <==> k in tree && k !in pending - {path}
  {
  }

  /** The locations holding files once the paths `order` are written: those
      emptying left and the location of each path. */
  lemma {:induction false} CheckoutKeys(getObject: string -> Result<Bytes>, tree: map<string, string>,
                                        emptied: map<Path, Bytes>, order: seq<string>)
    requires AllRead(getObject, tree, order)
    ensures forall q :: q in Checkout(getObject, tree, emptied, order) <==>
              q in emptied || exists i :: 0 <= i < |order| && Target(order[i]) == q
    decreases |order|
  {
    if order != [] {
      var init := order[..|order| - 1];
      assert forall j :: 0 <= j < |init| ==> init[j] == order[j];
      CheckoutKeys(getObject, tree, emptied, init);
    }
  }

  /** A location that no path of `order` names keeps what emptying left. */
  lemma {:induction false} CheckoutUntouched(getObject: string -> Result<Bytes>, tree: map<string, string>,
                                             emptied: map<Path, Bytes>, order: seq<string>, p: Path)
    requires AllRead(getObject, tree, order)
    requires forall i :: 0 <= i < |order| ==> Target(order[i]) != p
    ensures p in Checkout(getObject, tree, emptied, order) <==> p in emptied
    ensures p in emptied ==> Checkout(getObject, tree, emptied, order)[p] == emptied[p]
    decreases |order|
  {
    if order != [] {
      var init := order[..|order| - 1];
      assert forall i :: 0 <= i < |init| ==> init[i] == order[i];
      CheckoutUntouched(getObject, tree, emptied, init, p);
    }
  }

  /** A location named by a path of `order` holds the content of the last
      path that names it: the last write wins. */
  lemma {:induction false} CheckoutLast(getObject: string -> Result<Bytes>, tree: map<string, string>,
                                        emptied: map<Path, Bytes>, order: seq<string>, i: nat)
    requires AllRead(getObject, tree, order) && i < |order|
    requires forall j :: i < j < |order| ==> Target(order[j]) != Target(order[i])
    ensures Target(order[i]) in Checkout(getObject, tree, emptied, order)
    ensures Checkout(getObject, tree, emptied, order)[Target(order[i])] == getObject(tree[order[i]]).value
    decreases |order|
  {
    if i < |order| - 1 {
      var init := order[..|order| - 1];
      assert forall j :: 0 <= j < |init| ==> init[j] == order[j];
      CheckoutLast(getObject, tree, emptied, init, i);
    }
  }

  /** The directories made are those there before and every directory on
      the way to the directory of a path of `order`. */
  lemma {:induction false} MadeDirsOf(dirs0: set<Path>, order: seq<string>)
    ensures forall q :: q in MadeDirs(dirs0, order) <==>
              q in dirs0 || exists i :: 0 <= i < |order| && q in Prefixes(DirOf(order[i]))
    decreases |order|
  {
    if order != [] {
      var init := order[..|order| - 1];
      assert forall j :: 0 <= j < |init| ==> init[j] == order[j];
      MadeDirsOf(dirs0, init);
    }
  }

  /** A path of the tree whose object cannot be read stops the loop of
      base.py:81-84 with a failure: it is never among the paths written. */
  lemma LoopedFails(getObject: string -> Result<Bytes>, tree: map<string, string>,
                    emptied: map<Path, Bytes>, dirs0: set<Path>, order: seq<string>, stop: string,
                    failure: Option<Error>, files: map<Path, Bytes>, dirs: set<Path>, k: string)
    requires Looped(getObject, tree, emptied, dirs0, order, stop, failure, files, dirs)
    requires k in tree && getObject(tree[k]).Err?
    ensures failure.Some?
  {
  }

  /** No location can stop the loop of base.py:81-84 over `tree`, in any
      order: no path names a directory there before or one on the way to a
      path's directory, and no location on the way to a path's directory is
      a file emptying left. */
  ghost predicate Unblocked(tree: map<string, string>, emptied: map<Path, Bytes>, dirs0: set<Path>) {
    && (forall k :: k in tree ==> Target(k) !in dirs0 && !DirBlocked(emptied, DirOf(k)))
    && (forall k, k' :: k in tree && k' in tree ==> Target(k) !in Prefixes(DirOf(k')))
  }

  /** Conversely, the loop writes every path when every path's object reads
      and no location blocks it. */
  lemma LoopedSucceeds(getObject: string -> Result<Bytes>, tree: map<string, string>,
                       emptied: map<Path, Bytes>, dirs0: set<Path>, order: seq<string>, stop: string,
                       failure: Option<Error>, files: map<Path, Bytes>, dirs: set<Path>)
    requires Looped(getObject, tree, emptied, dirs0, order, stop, failure, files, dirs)
    requires forall k :: k in tree ==> getObject(tree[k]).Ok?
    requires Unblocked(tree, emptied, dirs0)
    ensures failure.None?
  {
    if failure.Some? {
      var before := Checkout(getObject, tree, emptied, order);
      var dir := DirOf(stop);
      if DirBlocked(before, dir) {
        var i :| 0 < i <= |dir| && dir[..i] in before;
        CheckoutKeys(getObject, tree, emptied, order);
      } else {
        MadeDirsOf(dirs0, order);
      }
    }
  }

  /** `read_tree` does not complete on a tree one of whose paths names an
      object `write_tree` stored for a regular file `p`: that object's tag is
      the spelling of `p`, not `blob` (base.py:21, 84). */
  lemma SnapshotFileBlocksRead(objects: map<string, Bytes>, tree: map<string, string>,
                               emptied: map<Path, Bytes>, dirs0: set<Path>, order: seq<string>, stop: string,
                               failure: Option<Error>, files: map<Path, Bytes>, dirs: set<Path>,
                               k: string, p: Path, data: Bytes)
    requires Looped(Reader(objects), tree, emptied, dirs0, order, stop, failure, files, dirs)
    requires IsAscii(Render(p)) && '\0' !in Render(p)
    requires k in tree && tree[k] in objects && objects[tree[k]] == Frame(Render(p), data)
    ensures failure.Some?
  {
    Snapshot.BlobTagMismatch(objects, tree[k], p, data);
    LoopedFails(Reader(objects), tree, emptied, dirs0, order, stop, failure, files, dirs, k);
  }
}
