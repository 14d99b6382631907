/** `write_tree` (`jgit/base.py`): the working directory below a location
    stored as nested tree objects, files as objects tagged with their own
    path. */
module Snapshot {
  import opened Failures
  import opened Text
  import opened Data
  import opened Entries
  import opened TreeCodec
  import opened WorkDir

  /** An OID is ASCII text without spaces or line breaks, so it fits a
      tree line. */
  lemma OidPlain(o: Oid)
    ensures IsAscii(o) && ' ' !in o && NoLineBreak(o)
  {
    forall i | 0 <= i < |o| ensures o[i] as int < 128 && o[i] != ' ' && !IsLineBreak(o[i]) {
      assert o[i] in "0123456789abcdef";
    }
  }

  /** The two tags of tree lines fit a tree line. */
  lemma KindsPlain()
    ensures IsAscii("tree") && ' ' !in "tree" && NoLineBreak("tree")
    ensures IsAscii("blob") && ' ' !in "blob" && NoLineBreak("blob")
  {
  }

  /** The directories at or below `d`. */
  ghost function Reach(dirs: set<Path>, d: Path): set<Path> {
    set q | q in dirs && |d| <= |q| && q[..|d|] == d
  }

  /** A subdirectory reaches fewer directories than its parent: the
      recursion of `write_tree` ends. */
  lemma ReachShrinks(dirs: set<Path>, d: Path, c: Path)
    requires d in dirs && c != [] && Parent(c) == d
    ensures |Reach(dirs, c)| < |Reach(dirs, d)|
  {
    var small, big := Reach(dirs, c), Reach(dirs, d);
    forall q | q in small ensures q in big {
      assert q[..|d|] == q[..|c|][..|d|];
    }
    assert d in big - small;
    assert big == small + (big - small) && small * (big - small) == {};
  }

  /** What `write_tree(d)` needs of the entries it reaches below `d`: none
      that is not ignored is a symbolic link or another kind of entry (its
      tree line would use a stale or unbound OID and type), and their
      spellings are ASCII. */
  ghost predicate Snapshottable(files: map<Path, Bytes>, dirs: set<Path>, others: set<Path>, d: Path) {
    forall p :: (p in files || p in dirs || p in others) && |d| < |p| && p[..|d|] == d && !IsIgnored(Render(p)) ==>
      p !in others && IsAscii(Render(p)) && IsAscii(p[|p| - 1])
  }

  lemma SnapshottableChild(files: map<Path, Bytes>, dirs: set<Path>, others: set<Path>, d: Path, c: Path)
    requires Snapshottable(files, dirs, others, d) && c != [] && Parent(c) == d
    ensures Snapshottable(files, dirs, others, c)
  {
    forall p | (p in files || p in dirs || p in others) && |c| < |p| && p[..|c|] == c
      ensures |d| < |p| && p[..|d|] == d
    {
      assert p[..|d|] == p[..|c|][..|d|];
    }
  }

  /** The entries `os.scandir(d)` lists that `write_tree` keeps: regular
      files and directories whose spelling is not ignored (base.py:15). */
  ghost function Kids(files: map<Path, Bytes>, dirs: set<Path>, d: Path): set<Path> {
    set p | p in files.Keys + dirs && p != [] && Parent(p) == d && !IsIgnored(Render(p))
  }

  /** The OID `write_tree(d)` returns. */
  ghost function TreeOid(digest: Bytes -> Oid, files: map<Path, Bytes>, dirs: set<Path>, others: set<Path>, d: Path): Oid
    requires d in dirs && Snapshottable(files, dirs, others, d)
  {
    KindsPlain();
    digest(Frame("tree", Encode(TreeText(digest, files, dirs, others, d))))
  }

  /** The payload of the tree object `write_tree(d)` stores: the lines of
      its entries, sorted (base.py:29-33). */
  ghost function TreeText(digest: Bytes -> Oid, files: map<Path, Bytes>, dirs: set<Path>, others: set<Path>, d: Path)
    : (text: string)
    requires d in dirs && Snapshottable(files, dirs, others, d)
    ensures IsAscii(text)
    decreases |Reach(dirs, d)|, 1
  {
    var es := Listed(EntrySet(digest, files, dirs, others, d));
    assert forall i :: 0 <= i < |es| ==> AsciiEntry(es[i]) by {
      KindsPlain();
      forall i | 0 <= i < |es| ensures AsciiEntry(es[i]) {
        OidPlain(es[i].oid);
      }
    }
    PayloadAscii(es);
    TreePayload(es)
  }

  /** The entries of the tree object of `d`, one per kept entry. */
  ghost function EntrySet(digest: Bytes -> Oid, files: map<Path, Bytes>, dirs: set<Path>, others: set<Path>, d: Path)
    : (r: set<Entry>)
    requires d in dirs && Snapshottable(files, dirs, others, d)
    ensures forall e :: e in r ==> IsAscii(e.name) && IsHexDigest(e.oid) && (e.kind == "blob" || e.kind == "tree")
    decreases |Reach(dirs, d)|, 0
  {
    set c | c in Kids(files, dirs, d) :: (ReachShrinks(dirs, d, c); KidReady(files, dirs, others, d, c);
                                         EntryOf(digest, files, dirs, others, c))
  }

  /** What the tree line of `c` needs: `c` is a regular file or a
      directory, spelt in ASCII, and a directory can itself be written. */
  ghost predicate Ready(files: map<Path, Bytes>, dirs: set<Path>, others: set<Path>, c: Path) {
    && c != [] && (c in files || c in dirs) && IsAscii(Render(c)) && IsAscii(c[|c| - 1])
    && (c !in files ==> Snapshottable(files, dirs, others, c))
  }

  lemma KidReady(files: map<Path, Bytes>, dirs: set<Path>, others: set<Path>, d: Path, c: Path)
    requires Snapshottable(files, dirs, others, d) && c in Kids(files, dirs, d)
    ensures Ready(files, dirs, others, c)
  {
    assert c[..|d|] == d;
    SnapshottableChild(files, dirs, others, d, c);
  }

  /** The tree line of a kept entry `c`: a regular file is stored under
      the tag of its own spelling `Render(c)` and listed as `blob`
      (base.py:18-21), a directory is written recursively and listed as
      `tree` (base.py:23-25). */
  ghost function EntryOf(digest: Bytes -> Oid, files: map<Path, Bytes>, dirs: set<Path>, others: set<Path>, c: Path)
    : (e: Entry)
    requires Ready(files, dirs, others, c)
    ensures e.name == c[|c| - 1] && IsHexDigest(e.oid)
    decreases |Reach(dirs, c)|, 3
  {
    var oid := NodeOid(digest, files, dirs, others, c);
    Entry(c[|c| - 1], oid, if c in files then "blob" else "tree")
  }

  /** The OID of the object written for `c`: `hash_object` of the file's
      bytes under the tag `Render(c)`, or the OID of the subtree. */
  ghost function NodeOid(digest: Bytes -> Oid, files: map<Path, Bytes>, dirs: set<Path>, others: set<Path>, c: Path): Oid
    requires Ready(files, dirs, others, c)
    decreases |Reach(dirs, c)|, 2
  {
    if c in files then digest(Frame(Render(c), files[c]))
    else digest(Frame("tree", Encode(TreeText(digest, files, dirs, others, c))))
  }

  /** The elements of a set, in some order. */
  ghost function Listed(s: set<Entry>): (r: seq<Entry>)
    ensures Distinct(r) && forall x :: x in r <==> x in s
    decreases |s|
  {
    if s == {} then []
    else
      var x :| x in s;
      [x] + Listed(s - {x})
  }

  predicate Distinct<T(==)>(s: seq<T>) {
    forall i, j :: 0 <= i < j < |s| ==> s[i] != s[j]
  }

  /** A sequence without repetitions holds each of its elements once. */
  lemma {:induction false} DistinctCounts<T>(s: seq<T>)
    requires Distinct(s)
    ensures forall x :: multiset(s)[x] == if x in s then 1 else 0
    decreases |s|
  {
    if s != [] {
      DistinctCounts(s[1..]);
      assert s == [s[0]] + s[1..];
      assert s[0] !in s[1..];
    }
  }

  /** Two sequences without repetitions and with the same elements are
      permutations of each other. */
  lemma SameElements<T>(a: seq<T>, b: seq<T>)
    requires Distinct(a) && Distinct(b) && forall x :: x in a <==> x in b
    ensures multiset(a) == multiset(b)
  {
    DistinctCounts(a);
    DistinctCounts(b);
  }

  /** Two entries of one directory differ in their names. */
  lemma SiblingNames(p: Path, q: Path)
    requires p != [] && q != [] && Parent(p) == Parent(q) && p != q
    ensures p[|p| - 1] != q[|q| - 1]
  {
    assert p == Parent(p) + [p[|p| - 1]] && q == Parent(q) + [q[|q| - 1]];
  }

  /** What `write_tree` may do to the store: keep every object, and store
      new ones under the digest of their own bytes. */
  ghost predicate Grown(before: map<string, Bytes>, after: map<string, Bytes>, digest: Bytes -> Oid) {
    && before.Keys <= after.Keys
    && forall k :: k in after ==> (k in before && after[k] == before[k]) || digest(after[k]) == k
  }

  lemma GrownPut(objects: map<string, Bytes>, digest: Bytes -> Oid, kind: string, data: Bytes)
    requires IsAscii(kind)
    ensures Grown(objects, Put(objects, digest, kind, data), digest)
  {
  }

  lemma GrownTrans(a: map<string, Bytes>, b: map<string, Bytes>, c: map<string, Bytes>, digest: Bytes -> Oid)
    requires Grown(a, b, digest) && Grown(b, c, digest)
    ensures Grown(a, c, digest)
  {
  }

  /** Every object the snapshot of `d` names is a key of `objects`: the tree
      object of `d` and, below it, every kept file's object and every kept
      subdirectory's snapshot. */
  ghost predicate Stored(objects: map<string, Bytes>, digest: Bytes -> Oid, files: map<Path, Bytes>,
                         dirs: set<Path>, others: set<Path>, d: Path)
    requires d in dirs && Snapshottable(files, dirs, others, d)
    decreases |Reach(dirs, d)|, 0
  {
    && TreeOid(digest, files, dirs, others, d) in objects
    && forall c :: c in Kids(files, dirs, d) ==>
         (ReachShrinks(dirs, d, c); KidReady(files, dirs, others, d, c); KidStored(objects, digest, files, dirs, others, c))
  }

  /** The object written for the kept entry `c` is a key of `objects`, and
      so is everything below it. */
  ghost predicate KidStored(objects: map<string, Bytes>, digest: Bytes -> Oid, files: map<Path, Bytes>,
                            dirs: set<Path>, others: set<Path>, c: Path)
    requires Ready(files, dirs, others, c)
    decreases |Reach(dirs, c)|, 1
  {
    if c in files then digest(Frame(Render(c), files[c])) in objects
    else Stored(objects, digest, files, dirs, others, c)
  }

  /** Keys once stored stay stored as the store grows. */
  lemma {:induction false} KidStoredGrown(a: map<string, Bytes>, b: map<string, Bytes>, digest: Bytes -> Oid,
                                          files: map<Path, Bytes>, dirs: set<Path>, others: set<Path>, c: Path)
    requires Ready(files, dirs, others, c) && a.Keys <= b.Keys
    requires KidStored(a, digest, files, dirs, others, c)
    ensures KidStored(b, digest, files, dirs, others, c)
    decreases |Reach(dirs, c)|, 1
  {
    if c !in files {
      StoredGrown(a, b, digest, files, dirs, others, c);
    }
  }

  lemma {:induction false} StoredGrown(a: map<string, Bytes>, b: map<string, Bytes>, digest: Bytes -> Oid,
                                       files: map<Path, Bytes>, dirs: set<Path>, others: set<Path>, d: Path)
    requires d in dirs && Snapshottable(files, dirs, others, d) && a.Keys <= b.Keys
    requires Stored(a, digest, files, dirs, others, d)
    ensures Stored(b, digest, files, dirs, others, d)
    decreases |Reach(dirs, d)|, 0
  {
    forall c | c in Kids(files, dirs, d)
      ensures Ready(files, dirs, others, c) && KidStored(b, digest, files, dirs, others, c)
    {
      ReachShrinks(dirs, d, c);
      KidReady(files, dirs, others, d, c);
      KidStoredGrown(a, b, digest, files, dirs, others, c);
    }
  }

  /** The kept entries `order` have all their objects in `objects`. */
  ghost predicate AllStored(objects: map<string, Bytes>, digest: Bytes -> Oid, files: map<Path, Bytes>,
                            dirs: set<Path>, others: set<Path>, order: seq<Path>)
  {
    forall i :: 0 <= i < |order| ==>
      Ready(files, dirs, others, order[i]) && KidStored(objects, digest, files, dirs, others, order[i])
  }

  /** Writing one more kept entry keeps the earlier ones stored. */
  lemma AllStoredStep(a: map<string, Bytes>, b: map<string, Bytes>, digest: Bytes -> Oid,
                      files: map<Path, Bytes>, dirs: set<Path>, others: set<Path>, order: seq<Path>, path: Path)
    requires AllStored(a, digest, files, dirs, others, order) && a.Keys <= b.Keys
    requires Ready(files, dirs, others, path) && KidStored(b, digest, files, dirs, others, path)
    ensures AllStored(b, digest, files, dirs, others, order + [path])
  {
    forall i | 0 <= i < |order|
      ensures KidStored(b, digest, files, dirs, others, order[i])
    {
      KidStoredGrown(a, b, digest, files, dirs, others, order[i]);
    }
  }

  /** Once every kept entry has been written and the tree object of `d`
      stored, the whole snapshot of `d` is in the store. */
  lemma StoredDone(before: map<string, Bytes>, objects: map<string, Bytes>, digest: Bytes -> Oid, files: map<Path, Bytes>,
                   dirs: set<Path>, others: set<Path>, d: Path, order: seq<Path>, entries: seq<Entry>)
    requires d in dirs && Snapshottable(files, dirs, others, d)
    requires Collected(digest, files, dirs, others, d, {}, order, entries)
    requires AllStored(before, digest, files, dirs, others, order) && before.Keys <= objects.Keys
    requires TreeOid(digest, files, dirs, others, d) in objects
    ensures Stored(objects, digest, files, dirs, others, d)
  {
    forall c | c in Kids(files, dirs, d)
      ensures Ready(files, dirs, others, c) && KidStored(objects, digest, files, dirs, others, c)
    {
      assert c in order;
      var i :| 0 <= i < |order| && order[i] == c;
      KidStoredGrown(before, objects, digest, files, dirs, others, c);
    }
  }

  /** `write_tree(directory)` (base.py:7-34) for the directory `dir`, listed
      in whatever order `os.scandir` gives. The OID and the tree object are
      those of the specification above, which does not depend on that order. */
  method WriteTree(store: Store, fs: FileSystem, dir: Path) returns (oid: Oid)
    requires fs.Valid() && dir in fs.dirs
    requires Snapshottable(fs.files, fs.dirs, fs.others, dir)
    modifies store
    ensures oid == TreeOid(store.digest, fs.files, fs.dirs, fs.others, dir)
    ensures oid in store.objects
    ensures store.objects[oid] == Frame("tree", Encode(TreeText(store.digest, fs.files, fs.dirs, fs.others, dir)))
    ensures Stored(store.objects, store.digest, fs.files, fs.dirs, fs.others, dir)
    ensures Grown(old(store.objects), store.objects, store.digest)
    decreases |Reach(fs.dirs, dir)|, 1
  {
    var listing := set p | p in fs.files.Keys + fs.dirs + fs.others && p != [] && Parent(p) == dir;
    var entries: seq<Entry> := [];
    ghost var order: seq<Path> := [];
    while listing != {}
      invariant forall p :: p in listing ==> p in fs.files.Keys + fs.dirs + fs.others && p != [] && Parent(p) == dir
      invariant Collected(store.digest, fs.files, fs.dirs, fs.others, dir, listing, order, entries)
      invariant AllStored(store.objects, store.digest, fs.files, fs.dirs, fs.others, order)
      invariant Grown(old(store.objects), store.objects, store.digest)
    {
      var path :| path in listing;
      var full := Render(path);
      if IsIgnored(full) {
        CollectSkip(store.digest, fs.files, fs.dirs, fs.others, dir, listing, order, entries, path);
        listing := listing - {path};
        continue;
      }
      KidReady(fs.files, fs.dirs, fs.others, dir, path);
      ghost var before := store.objects;
      var e := WriteEntry(store, fs, dir, path);
      AllStoredStep(before, store.objects, store.digest, fs.files, fs.dirs, fs.others, order, path);
      CollectStep(store.digest, fs.files, fs.dirs, fs.others, dir, listing, order, entries, path, e);
      listing := listing - {path};
      entries := entries + [e];
      order := order + [path];
    }
    CollectDone(store.digest, fs.files, fs.dirs, fs.others, dir, order, entries);
    var text := TreePayload(entries);
    ghost var before := store.objects;
    KindsPlain();
    oid := store.HashObject(Encode(text), "tree");
    GrownPut(before, store.digest, "tree", Encode(text));
    GrownTrans(old(store.objects), before, store.objects, store.digest);
    StoredDone(before, store.objects, store.digest, fs.files, fs.dirs, fs.others, dir, order, entries);
  }

  /** One kept entry `path` of the directory `dir` (base.py:18-26): a
      regular file is stored with `hash_object` under the tag of its
      spelling, a directory is written recursively. */
  method WriteEntry(store: Store, fs: FileSystem, dir: Path, path: Path) returns (e: Entry)
    requires fs.Valid() && dir in fs.dirs
    requires Snapshottable(fs.files, fs.dirs, fs.others, dir)
    requires path in Kids(fs.files, fs.dirs, dir) && Ready(fs.files, fs.dirs, fs.others, path)
    modifies store
    ensures e == EntryOf(store.digest, fs.files, fs.dirs, fs.others, path)
    ensures e.oid in store.objects
    ensures KidStored(store.objects, store.digest, fs.files, fs.dirs, fs.others, path)
    ensures path in fs.files ==> store.objects[e.oid] == Frame(Render(path), fs.files[path])
    ensures Grown(old(store.objects), store.objects, store.digest)
    decreases |Reach(fs.dirs, dir)|, 0
  {
    if path in fs.files {
      var blob := store.HashObject(fs.files[path], Render(path));
      e := Entry(path[|path| - 1], blob, "blob");
      GrownPut(old(store.objects), store.digest, Render(path), fs.files[path]);
    } else {
      ReachShrinks(fs.dirs, dir, path);
      var tree := WriteTree(store, fs, path);
      e := Entry(path[|path| - 1], tree, "tree");
    }
  }

  /** The loop state of base.py:11-26 once the entries `order` have been
      kept, in that order, and `listing` is still to be looked at. */
  ghost predicate Collected(digest: Bytes -> Oid, files: map<Path, Bytes>, dirs: set<Path>, others: set<Path>,
                            d: Path, listing: set<Path>, order: seq<Path>, entries: seq<Entry>)
  {
    && (forall p :: p in Kids(files, dirs, d) ==> (p in order <==> p !in listing))
    && |order| == |entries| && Distinct(order)
    && (forall i :: 0 <= i < |order| ==>
          && order[i] in Kids(files, dirs, d) && Ready(files, dirs, others, order[i])
          && entries[i] == EntryOf(digest, files, dirs, others, order[i]))
  }

  lemma CollectSkip(digest: Bytes -> Oid, files: map<Path, Bytes>, dirs: set<Path>, others: set<Path>,
                    d: Path, listing: set<Path>, order: seq<Path>, entries: seq<Entry>, path: Path)
    requires Collected(digest, files, dirs, others, d, listing, order, entries)
    requires path in listing && IsIgnored(Render(path))
    ensures Collected(digest, files, dirs, others, d, listing - {path}, order, entries)
  {
  }

  lemma CollectStep(digest: Bytes -> Oid, files: map<Path, Bytes>, dirs: set<Path>, others: set<Path>,
                    d: Path, listing: set<Path>, order: seq<Path>, entries: seq<Entry>, path: Path, e: Entry)
    requires Collected(digest, files, dirs, others, d, listing, order, entries)
    requires path in listing && path in Kids(files, dirs, d) && Ready(files, dirs, others, path)
    requires e == EntryOf(digest, files, dirs, others, path)
    ensures Collected(digest, files, dirs, others, d, listing - {path}, order + [path], entries + [e])
  {
    assert path !in order;
  }

  /** Once everything has been looked at, the payload built from the
      collected entries is the one of the specification. */
  lemma CollectDone(digest: Bytes -> Oid, files: map<Path, Bytes>, dirs: set<Path>, others: set<Path>,
                    d: Path, order: seq<Path>, entries: seq<Entry>)
    requires d in dirs && Snapshottable(files, dirs, others, d)
    requires Collected(digest, files, dirs, others, d, {}, order, entries)
    ensures TreePayload(entries) == TreeText(digest, files, dirs, others, d)
    ensures IsAscii(TreePayload(entries))
  {
    var spec := EntrySet(digest, files, dirs, others, d);
    EntriesListed(digest, files, dirs, others, d, order, entries);
    PayloadPermutation(entries, Listed(spec));
  }

  /** The entries collected in the order `order` are those of the
      specification, each once. */
  lemma EntriesListed(digest: Bytes -> Oid, files: map<Path, Bytes>, dirs: set<Path>, others: set<Path>, d: Path,
                      order: seq<Path>, entries: seq<Entry>)
    requires d in dirs && Snapshottable(files, dirs, others, d)
    requires |order| == |entries| && Distinct(order)
    requires forall p :: p in Kids(files, dirs, d) <==> p in order
    requires forall i :: 0 <= i < |order| ==>
               Ready(files, dirs, others, order[i]) && entries[i] == EntryOf(digest, files, dirs, others, order[i])
    ensures multiset(entries) == multiset(Listed(EntrySet(digest, files, dirs, others, d)))
  {
    var spec := EntrySet(digest, files, dirs, others, d);
    forall i | 0 <= i < |order| ensures order[i] != [] && Parent(order[i]) == d {
      assert order[i] in order;
    }
    EntriesDistinct(digest, files, dirs, others, d, order, entries);
    forall c | c in Kids(files, dirs, d) ensures Ready(files, dirs, others, c) {
      KidReady(files, dirs, others, d, c);
    }
    forall x ensures x in entries <==> x in spec {
      if x in entries {
        var i :| 0 <= i < |entries| && entries[i] == x;
        assert order[i] in Kids(files, dirs, d);
      }
      if x in spec {
        var c :| c in Kids(files, dirs, d) && Ready(files, dirs, others, c) && x == EntryOf(digest, files, dirs, others, c);
        assert c in order;
        var i :| 0 <= i < |order| && order[i] == c;
        assert entries[i] == x;
      }
    }
    SameElements(entries, Listed(spec));
  }

  /** Entries of one directory differ, since their names do. */
  lemma EntriesDistinct(digest: Bytes -> Oid, files: map<Path, Bytes>, dirs: set<Path>, others: set<Path>, d: Path,
                        order: seq<Path>, entries: seq<Entry>)
    requires |order| == |entries| && Distinct(order)
    requires forall i :: 0 <= i < |order| ==> order[i] != [] && Parent(order[i]) == d
    requires forall i :: 0 <= i < |order| ==>
               Ready(files, dirs, others, order[i]) && entries[i] == EntryOf(digest, files, dirs, others, order[i])
    ensures Distinct(entries)
  {
    forall i, j | 0 <= i < j < |entries| ensures entries[i] != entries[j] {
      SiblingNames(order[i], order[j]);
    }
  }

  /** Every entry of the tree of `d` is named after a kept entry of `d`. */
  lemma EntryNamed(digest: Bytes -> Oid, files: map<Path, Bytes>, dirs: set<Path>, others: set<Path>, d: Path, e: Entry)
    requires d in dirs && Snapshottable(files, dirs, others, d)
    requires e in EntrySet(digest, files, dirs, others, d)
    ensures exists c :: c in Kids(files, dirs, d) && e.name == c[|c| - 1]
  {
  }

  /** Every kept entry of `d` has its line in the tree of `d`: a regular
      file as a `blob` under the OID of its bytes framed with its own
      spelling as tag, a directory as a `tree` under the OID of its own
      tree. */
  lemma KidListed(digest: Bytes -> Oid, files: map<Path, Bytes>, dirs: set<Path>, others: set<Path>, d: Path, c: Path)
    requires d in dirs && Snapshottable(files, dirs, others, d)
    requires c in Kids(files, dirs, d)
    ensures IsAscii(Render(c))
    ensures c in files ==>
              Entry(c[|c| - 1], digest(Frame(Render(c), files[c])), "blob") in EntrySet(digest, files, dirs, others, d)
    ensures c !in files ==>
              && c in dirs && Snapshottable(files, dirs, others, c)
              && Entry(c[|c| - 1], TreeOid(digest, files, dirs, others, c), "tree") in EntrySet(digest, files, dirs, others, d)
  {
    KidReady(files, dirs, others, d, c);
    assert EntryOf(digest, files, dirs, others, c) in EntrySet(digest, files, dirs, others, d);
    if c !in files {
      assert NodeOid(digest, files, dirs, others, c) == TreeOid(digest, files, dirs, others, c);
    }
  }

  /** An entry whose spelling is ignored has no line in the tree
      (base.py:15-16). */
  lemma IgnoredOmitted(digest: Bytes -> Oid, files: map<Path, Bytes>, dirs: set<Path>, others: set<Path>, d: Path, c: Path)
    requires d in dirs && Snapshottable(files, dirs, others, d)
    requires c != [] && Parent(c) == d && IsIgnored(Render(c))
    ensures forall e :: e in EntrySet(digest, files, dirs, others, d) ==> e.name != c[|c| - 1]
  {
    forall e | e in EntrySet(digest, files, dirs, others, d) ensures e.name != c[|c| - 1] {
      EntryNamed(digest, files, dirs, others, d, e);
      var k :| k in Kids(files, dirs, d) && e.name == k[|k| - 1];
      SiblingNames(k, c);
    }
  }

  /** Reading back the tree object `write_tree` stores yields its entries,
      sorted, when no name holds a line break (base.py:46-48). */
  lemma SnapshotReadBack(objects: map<string, Bytes>, digest: Bytes -> Oid, files: map<Path, Bytes>,
                         dirs: set<Path>, others: set<Path>, d: Path)
    requires d in dirs && Snapshottable(files, dirs, others, d)
    requires forall p :: p in Kids(files, dirs, d) ==> NoLineBreak(p[|p| - 1])
    requires TreeOid(digest, files, dirs, others, d) in objects
    requires objects[TreeOid(digest, files, dirs, others, d)] == Frame("tree", Encode(TreeText(digest, files, dirs, others, d)))
    ensures IterTreeEntries(objects, TreeOid(digest, files, dirs, others, d))
            == TreeStream(Sort(Listed(EntrySet(digest, files, dirs, others, d))), None)
  {
    var es := Listed(EntrySet(digest, files, dirs, others, d));
    var oid := TreeOid(digest, files, dirs, others, d);
    assert TreeText(digest, files, dirs, others, d) == TreePayload(es);
    assert oid != "" by { assert |oid| == 40; }
    ListedReadable(digest, files, dirs, others, d, es);
    IterStoredTree(objects, oid, es);
  }

  /** The entries of a snapshot tree whose names hold no line break are
      readable ASCII entries. */
  lemma ListedReadable(digest: Bytes -> Oid, files: map<Path, Bytes>, dirs: set<Path>, others: set<Path>, d: Path,
                        es: seq<Entry>)
    requires d in dirs && Snapshottable(files, dirs, others, d)
    requires forall p :: p in Kids(files, dirs, d) ==> NoLineBreak(p[|p| - 1])
    requires es == Listed(EntrySet(digest, files, dirs, others, d))
    ensures forall i :: 0 <= i < |es| ==> Readable(es[i]) && AsciiEntry(es[i])
  {
    forall i | 0 <= i < |es| ensures Readable(es[i]) && AsciiEntry(es[i]) {
      assert es[i] in EntrySet(digest, files, dirs, others, d);
      OidPlain(es[i].oid);
      EntryNamed(digest, files, dirs, others, d, es[i]);
      KindsPlain();
    }
  }

  /** A file `write_tree` stored reads back, with the default expected type
      `blob` that `read_tree` uses (base.py:84), as a type mismatch: its tag
      is its spelling, which starts with `.` (base.py:21). */
  lemma BlobTagMismatch(objects: map<string, Bytes>, oid: string, p: Path, data: Bytes)
    requires IsAscii(Render(p)) && '\0' !in Render(p)
    requires oid in objects && objects[oid] == Frame(Render(p), data)
    ensures GetObject(objects, oid) == Err(TypeMismatch("blob", Render(p)))
  {
    assert Render(p)[0] == '.';
    GetObjectTypeMismatch(objects, oid, Render(p), data, "blob");
  }
}
