/** `get_tree` (`jgit/base.py`): nested tree objects flattened into one
    dictionary from path to blob OID. */
module Flatten {
  import opened Failures
  import opened Text
  import opened Entries
  import opened TreeCodec

  /** The checks of base.py:60-61 and the two tags base.py:65-71 accepts. */
  predicate WellFormed(e: Entry) {
    && '/' !in e.name && e.name != ".." && e.name != "."
    && (e.kind == "blob" || e.kind == "tree")
  }

  /** What `get_tree(oid, base)` returns or raises. The generator is consumed
      lazily, so a bad entry, or a failing subtree, raises before later lines
      are parsed, and a parse failure raises only once the entries before it
      have been processed. `depth` bounds the nesting of subtrees followed; at
      zero the call fails as Python does once its recursion limit is hit. */
  function Flatten(trees: string -> TreeStream, oid: string, base: string, depth: nat)
    : (r: Result<map<string, string>>)
    decreases depth, 0
  {
    if depth == 0 then Err(TooDeep)
    else
      var s := trees(oid);
      FlattenFrom(trees, map[], s.entries, s.failure, base, depth - 1)
  }

  /** The loop of base.py:58-71 from `result == acc` on, over the entries
      `es` still to come and the failure the generator raises after them. */
  function FlattenFrom(trees: string -> TreeStream, acc: map<string, string>, es: seq<Entry>,
                       failure: Option<Error>, base: string, depth: nat)
    : (r: Result<map<string, string>>)
    decreases depth, |es| + 1
  {
    if es == [] then
      if failure.Some? then Err(failure.value) else Ok(acc)
    else
      var e := es[0];
      if '/' in e.name then Err(SlashInName(e.name))
      else if e.name == ".." || e.name == "." then Err(DotName(e.name))
      else if e.kind == "blob" then
        FlattenFrom(trees, acc[base + e.name := e.oid], es[1..], failure, base, depth)
      else if e.kind == "tree" then
        match Flatten(trees, e.oid, base + e.name + "/", depth)
        case Err(err) => Err(err)
        case Ok(sub) => FlattenFrom(trees, acc + sub, es[1..], failure, base, depth)
      else Err(UnknownType(e.kind))
  }

  /** `get_tree` (base.py:54-73). */
  method GetTree(trees: string -> TreeStream, oid: string, depth: nat, base: string := "")
    returns (r: Result<map<string, string>>)
    ensures r == Flatten(trees, oid, base, depth)
    decreases depth, 1
  {
    if depth == 0 {
      return Err(TooDeep);
    }
    var s := trees(oid);
    r := FillTree(trees, s, base, depth - 1);
    FlattenStart(trees, oid, base, depth, s);
  }

  lemma FlattenStart(trees: string -> TreeStream, oid: string, base: string, depth: nat, s: TreeStream)
    requires depth > 0 && s == trees(oid)
    ensures Flatten(trees, oid, base, depth) == FlattenFrom(trees, map[], s.entries, s.failure, base, depth - 1)
  {
  }

  /** The loop of base.py:58-71 over the entries the generator yields,
      filling `result` entry by entry. */
  method FillTree(trees: string -> TreeStream, s: TreeStream, base: string, depth: nat)
    returns (r: Result<map<string, string>>)
    ensures r == FlattenFrom(trees, map[], s.entries, s.failure, base, depth)
    decreases depth, 2
  {
    var result: map<string, string> := map[];
    var i := 0;
    while i < |s.entries|
      invariant i <= |s.entries|
      invariant FlattenFrom(trees, result, s.entries[i..], s.failure, base, depth)
                == FlattenFrom(trees, map[], s.entries, s.failure, base, depth)
    {
      var e := s.entries[i];
      assert s.entries[i..][1..] == s.entries[i + 1..];
      if '/' in e.name {
        return Err(SlashInName(e.name));
      }
      if e.name == ".." || e.name == "." {
        return Err(DotName(e.name));
      }
      var path := base + e.name;
      if e.kind == "blob" {
        result := result[path := e.oid];
      } else if e.kind == "tree" {
        var sub := GetTree(trees, e.oid, depth, path + "/");
        if sub.Err? {
          return Err(sub.error);
        }
        result := result + sub.value;
      } else {
        return Err(UnknownType(e.kind));
      }
      i := i + 1;
    }
    if s.failure.Some? {
      return Err(s.failure.value);
    }
    return Ok(result);
  }

  /** Every key `get_tree` returns starts with the base path it was given. */
  lemma {:induction false} FlattenPrefix(trees: string -> TreeStream, oid: string, base: string, depth: nat)
    requires Flatten(trees, oid, base, depth).Ok?
    ensures forall k :: k in Flatten(trees, oid, base, depth).value ==> base <= k
    decreases depth, 0
  {
    var s := trees(oid);
    FlattenFromPrefix(trees, map[], s.entries, s.failure, base, depth - 1);
  }

  lemma {:induction false} FlattenFromPrefix(trees: string -> TreeStream, acc: map<string, string>,
                                             es: seq<Entry>, failure: Option<Error>, base: string, depth: nat)
    requires forall k :: k in acc ==> base <= k
    ensures FlattenFrom(trees, acc, es, failure, base, depth).Ok? ==>
              forall k :: k in FlattenFrom(trees, acc, es, failure, base, depth).value ==> base <= k
    decreases depth, |es| + 1
  {
    if es != [] {
      var e := es[0];
      if '/' !in e.name && e.name != ".." && e.name != "." {
        if e.kind == "blob" {
          FlattenFromPrefix(trees, acc[base + e.name := e.oid], es[1..], failure, base, depth);
        } else if e.kind == "tree" {
          var sb := base + e.name + "/";
          var sub := Flatten(trees, e.oid, sb, depth);
          if sub.Ok? {
            FlattenPrefix(trees, e.oid, sb, depth);
            forall k | k in sub.value ensures base <= k {
              assert sb <= k;
              assert k[..|base|] == sb[..|base|];
            }
            FlattenFromPrefix(trees, acc + sub.value, es[1..], failure, base, depth);
          }
        }
      }
    }
  }

  /** A `get_tree` that returns has checked every line of the tree: no name
      holds `'/'` or is `.`/`..`, every tag is `blob` or `tree`, and every
      line parsed. */
  lemma {:induction false} FlattenOkWellFormed(trees: string -> TreeStream, oid: string, base: string, depth: nat)
    requires Flatten(trees, oid, base, depth).Ok?
    ensures trees(oid).failure.None?
    ensures forall e :: e in trees(oid).entries ==> WellFormed(e)
  {
    var s := trees(oid);
    FlattenFromOkWellFormed(trees, map[], s.entries, s.failure, base, depth - 1);
  }

  lemma {:induction false} FlattenFromOkWellFormed(trees: string -> TreeStream, acc: map<string, string>,
                                                   es: seq<Entry>, failure: Option<Error>, base: string, depth: nat)
    requires FlattenFrom(trees, acc, es, failure, base, depth).Ok?
    ensures failure.None?
    ensures forall e :: e in es ==> WellFormed(e)
    decreases |es|
  {
    if es != [] {
      var e := es[0];
      if e.kind == "blob" {
        FlattenFromOkWellFormed(trees, acc[base + e.name := e.oid], es[1..], failure, base, depth);
      } else {
        var sub := Flatten(trees, e.oid, base + e.name + "/", depth);
        FlattenFromOkWellFormed(trees, acc + sub.value, es[1..], failure, base, depth);
      }
      assert es == [e] + es[1..];
    }
  }

  /** The key `k` with value `v` comes from a `blob` line of `es`. */
  ghost predicate FromBlob(es: seq<Entry>, base: string, k: string, v: string) {
    exists e :: e in es && e.kind == "blob" && k == base + e.name && v == e.oid
  }

  /** The key `k` with value `v` comes from the subtree of a `tree` line of `es`. */
  ghost predicate FromTree(trees: string -> TreeStream, es: seq<Entry>, base: string, depth: nat, k: string, v: string) {
    exists e :: e in es && e.kind == "tree" && Flatten(trees, e.oid, base + e.name + "/", depth).Ok?
                && k in Flatten(trees, e.oid, base + e.name + "/", depth).value
                && v == Flatten(trees, e.oid, base + e.name + "/", depth).value[k]
  }

  /** What `get_tree` returns (base.py:64-69): the path of every `blob` line
      and every path below every `tree` line, and nothing else; each key maps
      to the OID of a `blob` line of that path or to what the subtree maps it
      to. A `tree` line adds no key of its own. */
  lemma {:induction false} FlattenKeys(trees: string -> TreeStream, oid: string, base: string, depth: nat)
    requires Flatten(trees, oid, base, depth).Ok?
    ensures var r := Flatten(trees, oid, base, depth).value;
            var es := trees(oid).entries;
            && (forall e :: e in es && e.kind == "blob" ==> base + e.name in r)
            && (forall e :: e in es && e.kind == "tree" ==>
                  && Flatten(trees, e.oid, base + e.name + "/", depth - 1).Ok?
                  && Flatten(trees, e.oid, base + e.name + "/", depth - 1).value.Keys <= r.Keys)
            && (forall k :: k in r ==> FromBlob(es, base, k, r[k]) || FromTree(trees, es, base, depth - 1, k, r[k]))
  {
    var s := trees(oid);
    FlattenFromKeys(trees, map[], s.entries, s.failure, base, depth - 1);
  }

  lemma {:induction false} FlattenFromKeys(trees: string -> TreeStream, acc: map<string, string>,
                                           es: seq<Entry>, failure: Option<Error>, base: string, depth: nat)
    requires FlattenFrom(trees, acc, es, failure, base, depth).Ok?
    ensures var r := FlattenFrom(trees, acc, es, failure, base, depth).value;
            && acc.Keys <= r.Keys
            && (forall e :: e in es && e.kind == "blob" ==> base + e.name in r)
            && (forall e :: e in es && e.kind == "tree" ==>
                  && Flatten(trees, e.oid, base + e.name + "/", depth).Ok?
                  && Flatten(trees, e.oid, base + e.name + "/", depth).value.Keys <= r.Keys)
            && (forall k :: k in r ==>
                  || (k in acc && r[k] == acc[k])
                  || FromBlob(es, base, k, r[k]) || FromTree(trees, es, base, depth, k, r[k]))
    decreases |es|
  {
    if es != [] {
      var e, rest := es[0], es[1..];
      assert es == [e] + rest;
      var r := FlattenFrom(trees, acc, es, failure, base, depth).value;
      if e.kind == "blob" {
        var next := acc[base + e.name := e.oid];
        FlattenFromKeys(trees, next, rest, failure, base, depth);
        forall k | k in r
          ensures || (k in acc && r[k] == acc[k])
                  || FromBlob(es, base, k, r[k]) || FromTree(trees, es, base, depth, k, r[k])
        {
          if k in next && r[k] == next[k] && k == base + e.name {
            assert FromBlob(es, base, k, r[k]);
          }
        }
      } else {
        var sub := Flatten(trees, e.oid, base + e.name + "/", depth).value;
        var next := acc + sub;
        FlattenFromKeys(trees, next, rest, failure, base, depth);
        forall k | k in r
          ensures || (k in acc && r[k] == acc[k])
                  || FromBlob(es, base, k, r[k]) || FromTree(trees, es, base, depth, k, r[k])
        {
          if k in next && r[k] == next[k] && k in sub {
            assert FromTree(trees, es, base, depth, k, r[k]);
          }
        }
      }
    }
  }

  /** The empty OID is an empty tree (base.py:41-42). */
  lemma FlattenEmptyOid(objects: map<string, Bytes>, base: string, depth: nat)
    requires depth > 0
    ensures Flatten(Trees(objects), "", base, depth) == Ok(map[])
  {
  }

  /** The path `k` sits below the segments `P`: its `'/'`-separated
      segments start with `P` and none after them is `.` or `..`. */
  predicate Inside(P: seq<string>, k: string) {
    var parts := Split(k, '/');
    && |P| < |parts| && parts[..|P|] == P
    && forall i :: |P| <= i < |parts| ==> parts[i] != "." && parts[i] != ".."
  }

  /** Below a base made of the segments `P`, every path `get_tree` returns
      extends `P` by names that are neither `.` nor `..`: the checks at
      base.py:60-61 keep every path inside the directory tree it starts in. */
  lemma {:induction false} FlattenInside(trees: string -> TreeStream, oid: string, P: seq<string>, depth: nat)
    requires |P| >= 1 && forall i :: 0 <= i < |P| ==> '/' !in P[i]
    requires Flatten(trees, oid, Join(P, '/') + "/", depth).Ok?
    ensures forall k :: k in Flatten(trees, oid, Join(P, '/') + "/", depth).value ==> Inside(P, k)
    decreases depth, 0
  {
    var s := trees(oid);
    FlattenFromInside(trees, map[], s.entries, s.failure, P, depth - 1);
  }

  lemma {:induction false} FlattenFromInside(trees: string -> TreeStream, acc: map<string, string>,
                                             es: seq<Entry>, failure: Option<Error>, P: seq<string>, depth: nat)
    requires |P| >= 1 && forall i :: 0 <= i < |P| ==> '/' !in P[i]
    requires forall k :: k in acc ==> Inside(P, k)
    requires FlattenFrom(trees, acc, es, failure, Join(P, '/') + "/", depth).Ok?
    ensures forall k :: k in FlattenFrom(trees, acc, es, failure, Join(P, '/') + "/", depth).value ==> Inside(P, k)
    decreases depth, |es| + 1
  {
    if es != [] {
      var e := es[0];
      var base := Join(P, '/') + "/";
      NameInside(P, e.name);
      if e.kind == "blob" {
        FlattenFromInside(trees, acc[base + e.name := e.oid], es[1..], failure, P, depth);
      } else {
        var sub := Flatten(trees, e.oid, base + e.name + "/", depth);
        FlattenInside(trees, e.oid, P + [e.name], depth);
        forall k | k in sub.value ensures Inside(P, k) {
          InsideParent(P, e.name, k);
        }
        FlattenFromInside(trees, acc + sub.value, es[1..], failure, P, depth);
      }
    }
  }

  /** A name that passes the checks of base.py:60-61, appended to a base. */
  lemma NameInside(P: seq<string>, name: string)
    requires |P| >= 1 && forall i :: 0 <= i < |P| ==> '/' !in P[i]
    requires '/' !in name && name != "." && name != ".."
    ensures Join(P, '/') + "/" + name == Join(P + [name], '/')
    ensures Inside(P, Join(P, '/') + "/" + name)
  {
    JoinSnoc(P, name, '/');
    SplitJoin(P + [name], '/');
    assert (P + [name])[..|P|] == P;
  }

  lemma InsideParent(P: seq<string>, name: string, k: string)
    requires name != "." && name != ".."
    requires Inside(P + [name], k)
    ensures Inside(P, k)
  {
    var parts := Split(k, '/');
    assert parts[..|P|] == parts[..|P| + 1][..|P|];
    assert parts[|P|] == parts[..|P| + 1][|P|];
  }
}
