# jgit object store and snapshot core, in Dafny

This project models the core of jgit, a small version-control tool written in Python:

- the content-addressed object store of `jgit/data.py` (`hash_object`, `get_object`, `GIT_DIR`);
- the tree snapshot logic of `jgit/base.py`:
  - `write_tree`, which stores a directory as nested tree objects;
  - `iter_tree_entries`, which parses a tree object back into `(type, oid, name)` lines;
  - `get_tree`, which flattens nested trees into a map from path to blob OID;
  - `read_tree` and `empty_current_directory`, which replace the working directory with a snapshot;
  - `is_ignored`, which keeps the `.jgit` metadata area out of all of this.

The object store is a class `Data.Store`. It holds a map from OID to bytes, and its SHA-1 is an uninterpreted function from bytes to a 40-digit lower-case hex string. That function is never assumed injective. The working directory is a class `WorkDir.FileSystem`, an in-memory tree with three parts:

- regular files, a map from path to bytes;
- directories, a set of paths;
- "other" entries such as symbolic links.

The modules follow the program:

| module | file | models |
|---|---|---|
| `Failures` | failures.dfy | `Option`, `Result`, and one `Error` per place the code raises |
| `Text` | text.dfy | bytes, ASCII `encode`/`decode`, `str.split`, `str.join` |
| `Data` | data.dfy | framing, `hash_object`, `get_object` |
| `Entries` | entries.dfy | the `(name, oid, type_)` tuples and the order `sorted()` gives them |
| `TreeCodec` | tree_codec.dfy | the tree payload, `splitlines`, the `split(' ', 2)` of a line, `iter_tree_entries` |
| `Flatten` | flatten.dfy | `get_tree`: its specification as a recursive function, and its loop as a method |
| `WorkDir` | workdir.dfy | the file system operations the code calls, and `is_ignored` |
| `Snapshot` | snapshot.dfy | `write_tree`: the tree it must produce, and its loop as a method |
| `Restore` | restore.dfy | `empty_current_directory` and `read_tree` |

Each loop of the source that updates variables or the file system is a method with loop invariants. The exception is the generator loop of `iter_tree_entries` (base.py:46-48), which is modelled by the recursive function `TreeCodec.ParseLines`. Each method is proved against a specification function:

- `GetTree` against `Flatten`;
- `WriteTree` against `TreeOid` and `TreeText`, which do not depend on the order in which `os.scandir` lists entries;
- `EmptyCurrentDirectory` against `Kept`;
- `ReadTree` against `Checkout` and `MadeDirs`.

Lemmas then state what the source promises about those functions: round trips, permutation independence, prefixes, and which keys come from which lines.

### Where the code departs from its own comments

The model follows the code in each case below.

- **File tags.** The comment at base.py:9 says files are represented as blobs, and the one at base.py:75-76 says `read_tree` writes a tree's contents back to the file system. But `write_tree` stores each regular file with its own path (`./a/b`) as the type tag, not `blob` (base.py:21). `read_tree` then reads every object with the default expected type `blob` (base.py:84).
  - `Snapshot.BlobTagMismatch` proves that reading such an object that way is a type mismatch.
  - `Restore.SnapshotFileBlocksRead` proves that `read_tree` therefore cannot complete on a tree that names one: it ends with a failure. That failure need not be the type mismatch. An earlier step can fail first, for example a name with a line break (base.py:47) or a path whose location is a directory (base.py:83).
- **Directories are never removed.** The comment at base.py:87-88 says `empty_current_directory` deletes all files and directories. Its directory branch, however, asks `os.path.isfile` of a directory, which never holds, so the `rmdir` is never reached (base.py:105). Only regular files are removed, and of the other entries exactly those `os.path.isfile` follows to a regular file (`fileLinks`).
- **Symbolic links in a snapshot.** The comment at base.py:18 says symbolic links are not files here. An entry that is neither a file nor a directory still reaches the append at base.py:26, with a stale or unbound `oid` and `type_`. `write_tree` therefore requires that no such entry is reached (`Snapshottable`).

## Model

| member | source | states |
|---|---|---|
| Data.Store.HashObject | jgit/data.py:16-23 | the OID returned is the digest of `type ‖ 0x00 ‖ data`. The store afterwards holds those framed bytes under that OID, and every other object is unchanged |
| Data.Frame | jgit/data.py:17 | the object bytes are the encoded type, one NUL byte at the type's length, then the data: one byte longer than type and data together |
| Data.FrameLayout | jgit/data.py:17 | the bytes after that NUL are exactly the data, and a type without NUL puts no NUL before it, so that NUL is the first one |
| Data.Put | jgit/data.py:21-22 | the store after one write: the keys gain the new OID, that OID maps to the framed bytes, and every other key keeps its bytes |
| Data.PutIdempotent | jgit/data.py:16-23 | writing the same type and data twice leaves the store exactly as one write did |
| Data.PutContentAddressed | jgit/data.py:17-22 | a store where every object sits under the digest of its own bytes keeps that property after a write |
| Data.Partition | jgit/data.py:31 | `partition(b'\x00')`: with a NUL, the bytes before the first NUL (holding none) and the bytes after it, which rebuild the input; without one, the whole input and nothing |
| Data.PartitionFrame | jgit/data.py:17-31 | for a tag without NUL, splitting a framed object gives back the encoded tag and the whole payload, even when the payload holds NUL bytes |
| Data.GetObject | jgit/data.py:27-37 | a missing OID fails with not-found. A success means the object exists. When a type is expected, the object is then exactly that type framed with the payload returned, or, when it holds no NUL at all, the bare type with an empty payload. Other failures of a present object are never a not-found |
| Data.GetObjectRoundTrip | jgit/data.py:27-37 | reading what `hash_object(data, kind)` stored returns `data`, with `kind` as the expected type and with no expected type |
| Data.GetObjectTypeMismatch | jgit/data.py:35-36 | an expected type other than the stored tag fails with a type mismatch naming both |
| Text.Encode | jgit/data.py:17 | `str.encode()` on ASCII text: one byte per character, with the same code |
| Text.Decode | jgit/data.py:32 | `bytes.decode()` succeeds exactly on ASCII bytes, and the text it gives encodes back to those bytes |
| Text.DecodeEncode | jgit/data.py:32 | decoding encoded ASCII text gives the text back |
| Text.Split | jgit/base.py:116 | `str.split(sep)` gives at least one piece, and no piece holds the separator |
| Text.SplitJoin | jgit/base.py:116 | splitting a join whose pieces hold no separator gives back the pieces |
| Text.SplitConcat | jgit/base.py:116 | splitting two texts joined at one separator gives the pieces of the first followed by the pieces of the second |
| WorkDir.IsIgnored | jgit/base.py:115-116 | a path without `/` is ignored exactly when it is `.jgit` itself |
| WorkDir.IgnoredSlash | jgit/base.py:115-116 | a path joined at a `/` is ignored exactly when either side is; with the single-name case this decides `is_ignored` for every path |
| WorkDir.IgnoredNames | jgit/base.py:115-116 | a location is ignored exactly when one of its names is `.jgit`, in both spellings the code builds; a name that merely contains `.jgit` does not count |
| WorkDir.FileSystem.Remove | jgit/base.py:100 | `os.remove` takes exactly that file away and changes nothing else |
| WorkDir.FileSystem.RemoveOther | jgit/base.py:100 | `os.remove` on a symbolic link takes exactly that entry away and changes nothing else |
| WorkDir.FileSystem.MakeDirs | jgit/base.py:82 | `os.makedirs(d, exist_ok=True)` succeeds exactly when no location on the way to `d` is a non-directory. It then adds every directory on the way and nothing else. On failure it changes nothing and raises the error `MakeDirsStops` gives for the first such location |
| WorkDir.FirstBlock | jgit/base.py:82 | the error `os.makedirs` raises: none exactly when no level of `d` is a file or other entry, and otherwise `FileExistsError` when the first such level is `d` itself and `NotADirectoryError` for the level below it when it is higher up |
| WorkDir.MadeDirsTidy | jgit/base.py:82 | making every directory on the way to `d` keeps the directory tree well formed when nothing else stands there |
| WorkDir.FileSystem.Create | jgit/base.py:83 | `open(p, 'wb')` fails exactly on a directory; otherwise the file at `p` is empty afterwards and nothing else changes |
| WorkDir.FileSystem.Write | jgit/base.py:84 | `f.write(data)` leaves exactly `data` in the file and changes nothing else |
| Entries.StrLessTransitive | jgit/base.py:32 | Python's string `<` is transitive |
| Entries.StrLessTotal | jgit/base.py:32 | any two different strings are ordered one way or the other |
| Entries.LessTransitive | jgit/base.py:32 | the tuple order of entries is transitive |
| Entries.LessTotal | jgit/base.py:32 | the tuple order of entries is total |
| Entries.LessAsymmetric | jgit/base.py:32 | the tuple order of entries is asymmetric |
| Entries.Insert | jgit/base.py:32 | inserting into a sorted sequence gives a sorted sequence holding one more copy of the element |
| Entries.Sort | jgit/base.py:32 | `sorted(entries)` is sorted and a permutation of its input |
| Entries.SortedUnique | jgit/base.py:32 | two sorted sequences holding the same entries are equal |
| Entries.SortPermutation | jgit/base.py:32 | permuting the input does not change the sorted result |
| Entries.SortSorted | jgit/base.py:32 | sorting a sorted sequence changes nothing |
| TreeCodec.TreePayload | jgit/base.py:29-33 | the payload `''.join(...)` builds is empty exactly when there are no entries, and otherwise ends with the line break of its last line |
| TreeCodec.PayloadPermutation | jgit/base.py:29-34 | the same entries in any order give the identical tree payload, and so the identical tree object and OID |
| TreeCodec.PayloadAscii | jgit/base.py:29-34 | entries of ASCII text give an ASCII payload, which `encode()` maps byte for byte |
| TreeCodec.SplitLines | jgit/base.py:46 | `splitlines()`: no line holds a line break, and only the empty text has no lines |
| TreeCodec.SplitLinesCons | jgit/base.py:46 | text that starts with a line and `\n` splits into that line followed by the lines of the rest |
| TreeCodec.CutAtSpaceSpec | jgit/base.py:47 | a string is cut exactly when it holds a space, at its first space. The part before holds no space, the parts rebuild the string, and one space fewer remains |
| TreeCodec.ParseLine | jgit/base.py:47 | an unpacked line gives a type and an OID without spaces, and `type oid name` rebuilt from the three fields is the line itself |
| TreeCodec.ParseLineSpec | jgit/base.py:47 | `entry.split(' ', 2)` unpacks into three fields exactly when the line holds at least two spaces. It then gives a type and an OID without spaces, and the three fields rebuild the line |
| TreeCodec.ParseLineText | jgit/base.py:47 | a line written for an entry whose type and OID hold no space unpacks into that entry; spaces in the name are kept |
| TreeCodec.ParseLines | jgit/base.py:46-48 | the generator never yields more entries than there are lines |
| TreeCodec.ParseLinesAt | jgit/base.py:46-48 | the i-th entry yielded is the unpacking of the i-th line |
| TreeCodec.ParseLinesEnd | jgit/base.py:46-48 | the generator either yields one entry per line, or stops at the first line that does not unpack and raises on it |
| TreeCodec.MalformedLineFails | jgit/base.py:47 | a line with fewer than two spaces makes the generator raise, having yielded only entries from earlier lines |
| TreeCodec.ParseLinesOfLines | jgit/base.py:29-48 | the lines written for readable entries parse back into exactly those entries, with no failure |
| TreeCodec.ParseRoundTrip | jgit/base.py:29-48 | parsing the payload of entries whose type and OID hold no space or line break, and whose names hold no line break, gives exactly those entries in sorted order; names keep their spaces |
| TreeCodec.IterTreeEntries | jgit/base.py:39-48 | the empty OID yields nothing and does not fail. The object is read with the expected type `tree`, and a failed read is raised before anything is yielded. A generator that yields any entry has read the object and decoded its payload; the entries are then those `ParseLines` gives for the payload's lines (see `IterEmptyOid`, `IterNotATree`, `IterStoredTree`) |
| TreeCodec.IterStoredTree | jgit/base.py:39-48 | `iter_tree_entries` on a stored tree object yields its entries in sorted order and does not fail |
| TreeCodec.IterStoredText | jgit/base.py:44-46 | a stored tree object is read with the expected type `tree`, decoded and split into lines |
| TreeCodec.IterEmptyOid | jgit/base.py:41-42 | the empty OID yields nothing and does not fail |
| TreeCodec.IterNotATree | jgit/base.py:44 | an object whose tag is not `tree` makes the generator raise a type mismatch before it yields anything |
| Flatten.GetTree | jgit/base.py:54-73 | the result, or the failure raised, is the one `Flatten` specifies |
| Flatten.FillTree | jgit/base.py:58-71 | the loop over the generator's entries fills `result` as `FlattenFrom` specifies: blob paths set, subtree maps merged in, bad names and types raising where they are met |
| Flatten.FlattenKeys | jgit/base.py:64-69 | the keys returned are the path of every `blob` line and every path below every `tree` line, and nothing else. Each maps to a blob line's OID or to its subtree's value; a `tree` line adds no key of its own |
| Flatten.FlattenFromKeys | jgit/base.py:58-71 | the same, for the loop continuing from any partial result |
| Flatten.FlattenPrefix | jgit/base.py:64-69 | every key returned starts with the base path given |
| Flatten.FlattenInside | jgit/base.py:60-64 | below a base of path segments, every key returned extends those segments by names that are neither `.` nor `..` |
| Flatten.FlattenOkWellFormed | jgit/base.py:60-71 | a `get_tree` that returns has met no name with `/`, no `.` or `..`, no type other than `blob`/`tree`, and no parse failure |
| Flatten.FlattenEmptyOid | jgit/base.py:41-42 | `get_tree` of the empty OID returns the empty map |
| Snapshot.WriteTree | jgit/base.py:7-34 | the OID returned is that of the tree the specification gives for the directory, whatever the listing order. That tree object is in the store afterwards with exactly the specified bytes. Every object the snapshot names, down through every subdirectory, is a key of the store (`Stored`). Every earlier object is kept or replaced by one stored under its own digest |
| Snapshot.WriteEntry | jgit/base.py:18-26 | a file is stored under its own bytes framed with its spelling as tag and listed as `blob`; a directory is written recursively and listed as `tree`. Everything the entry names is a key of the store afterwards |
| Snapshot.StoredGrown | jgit/base.py:11-26 | what the snapshot of a directory names stays in the store as later objects are written |
| Snapshot.AllStoredStep | jgit/base.py:11-26 | after one more kept entry is written, the entries written before it are still stored |
| Snapshot.StoredDone | jgit/base.py:11-34 | once every kept entry of a directory is stored, and so is its tree object, the directory's whole snapshot is in the store |
| Snapshot.KidListed | jgit/base.py:15-26 | every kept regular file has a `blob` line with the OID of its bytes framed with its spelling as tag. Every kept directory has a `tree` line with the OID of its own tree |
| Snapshot.IgnoredOmitted | jgit/base.py:15-16 | an entry whose spelling is ignored has no line in the tree |
| Snapshot.EntriesListed | jgit/base.py:10-26 | the entries the loop collects, in any order, are those of the specification, each once |
| Snapshot.CollectDone | jgit/base.py:29-33 | the payload built from the collected entries is the specified tree text |
| Snapshot.SnapshotReadBack | jgit/base.py:39-48 | `iter_tree_entries` on the tree `write_tree` stored yields that tree's entries in sorted order, when no name holds a line break |
| Snapshot.BlobTagMismatch | jgit/base.py:84 | a file stored by `write_tree` reads back with the default expected type `blob` as a type mismatch, since its tag is its spelling |
| Snapshot.ReachShrinks | jgit/base.py:25 | a subdirectory reaches fewer directories than its parent, so the recursion ends |
| Restore.EmptyCurrentDirectory | jgit/base.py:89-111 | exactly the regular files with a `.jgit` name on their way are left, with their contents. Of the other entries, exactly those in `fileLinks` (the ones `os.path.isfile` follows to a regular file) outside `.jgit` are removed. Directories are untouched |
| Restore.OthersLook | jgit/base.py:96-100 | looking at one listed entry that is neither a file nor a directory removes it exactly when it is in `fileLinks` and outside `.jgit` |
| Restore.SurvivorsLook | jgit/base.py:96-100 | looking at one listed file removes it exactly when it has no `.jgit` name on its way |
| Restore.ReadTree | jgit/base.py:77-84 | the working directory is emptied first. If `get_tree` fails, that failure is returned and the working directory stays as emptying left it. Otherwise `Looped` describes the outcome: every path written in dictionary order with its object's content and its directories made, or the paths before a stopping path written and that path failing for one of the three reasons `Stopped` names, with exactly the effect that reason has |
| Restore.WriteFiles | jgit/base.py:81-84 | the loop over the paths of the flattened tree ends as `Looped` states |
| Restore.WriteFile | jgit/base.py:82-84 | one turn of the loop: it succeeds exactly when the directories can be made, the target is not a directory, and the object reads. It then adds exactly the missing directories and writes the content. A failure is exactly one of three, in this order: `os.makedirs` stops at a file on the way, changing nothing; `open` meets a directory, after the directories are made; or the read fails after `open` has emptied the file, and its error is returned |
| Restore.TargetInDir | jgit/base.py:82-83 | a path `get_tree` returns names its directory or one good name below it |
| Restore.CheckoutSnoc | jgit/base.py:81-84 | writing one more path extends the checkout by that path's content and its directories |
| Restore.CheckoutUntouched | jgit/base.py:79-84 | a location no written path names keeps what emptying left there |
| Restore.CheckoutLast | jgit/base.py:81-84 | a location holds the content of the last written path that names it |
| Restore.LoopedFails | jgit/base.py:81-84 | a path of the tree whose object cannot be read makes `read_tree` end with a failure |
| Restore.LoopedSucceeds | jgit/base.py:81-84 | conversely, when every path's object reads and no location blocks (`Unblocked`: no path names a directory, and no location on the way to a path's directory is a file), `read_tree` writes every path without failure, in any dictionary order |
| Restore.CheckoutKeys | jgit/base.py:81-84 | the files after the loop are those emptying left plus the location of each written path |
| Restore.SnapshotFileBlocksRead | jgit/base.py:21-84 | a tree naming an object that `write_tree` stored for a regular file makes `read_tree` end with a failure |
| Restore.MadeDirsOf | jgit/base.py:82 | the directories afterwards are those there before plus every directory on the way to a written path's directory |

## Left out

- `jgit/cli.py` is not part of this model: it is argument parsing and printing over the core.
- `data.init` is not modelled: the store is a `Data.Store` whose directory already exists.
- SHA-1 itself is not modelled. The digest is a parameter of the store, a function from bytes to 40 lower-case hex digits, and is never assumed injective.
- File I/O on the object store is not modelled: `open`/`read`/`write` of `objects/<oid>` is a read or update of the store's map.
- `Text.Decode`: text is ASCII only. `encode()` is exact on ASCII text, and `decode()` of a byte above 127 is reported as undecodable, whereas Python would decode valid UTF-8. `splitlines` is modelled for every ASCII line boundary.
- `Snapshot.WriteTree`: it requires that every entry it reaches which is not ignored is a regular file or a directory and is spelt in ASCII. For any other entry the source appends stale or unbound values, which has no meaning to model.
- `Snapshot.WriteTree`: it states the exact bytes only of the top tree object. Objects written earlier are still keys of the store, but a later object with the same digest may have replaced their bytes. The digest is not assumed injective, so the model cannot rule that out.
- `Snapshot.WriteEntry`: for a directory, the tree object written is stated by the recursive `Snapshot.WriteTree`, not repeated in this method's contract.
- `Flatten.GetTree`: it takes a nesting bound `depth` and fails with `TooDeep` at zero. This stands for Python's recursion limit, whose actual value is not modelled.
- `Flatten.GetTree`: it receives `iter_tree_entries` over the store as a function value (`TreeCodec.Trees`) rather than reading the store itself.
- `Restore.ReadTree`: it reads objects from the store as it stood before the loop, and the store is not among what it changes. In the source the store is the directory `.jgit/objects` inside the working directory, and `get_tree` does not filter `.jgit` names. A tree path through `.jgit/objects` therefore overwrites an object file, which changes what later reads return. The model does not capture this.
- `Restore.EmptyCurrentDirectory`: it is told which entries `os.path.isfile` follows to a regular file (`fileLinks`), since the targets of symbolic links are not part of the model of the working directory.
- `Restore.ReadTree`: it requires a working directory without symbolic links or other special entries, because following them through `os.makedirs` and `open` is operating-system behaviour. It returns the dictionary order of the paths, and the path at which a failure stopped, as ghost outputs.
- The enumeration orders of `os.scandir`, `os.walk` and dictionary iteration are not modelled: each loop picks any remaining element, and the contracts hold for every choice.
- `Restore.EmptyCurrentDirectory`: the exceptions swallowed at base.py:109-111 are not modelled, since the `rmdir` they guard is never reached (base.py:105).
- Concurrency, permissions and I/O errors of the real file system are not modelled.
