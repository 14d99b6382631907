/** Tree entries and the order `sorted()` puts them in. `write_tree`
    collects `(name, oid, type_)` tuples, so entries compare by name, then
    OID, then type, each as a string compared code point by code point. */
module Entries {

  datatype Entry = Entry(name: string, oid: string, kind: string)

  /** Python's `<` on `str`. */
  predicate StrLess(a: string, b: string)
    decreases |a|
  {
    if a == [] then b != []
    else if b == [] then false
    else if a[0] != b[0] then a[0] < b[0]
    else StrLess(a[1..], b[1..])
  }

  lemma {:induction false} StrLessIrreflexive(a: string)
    ensures !StrLess(a, a)
    decreases |a|
  {
    if a != [] { StrLessIrreflexive(a[1..]); }
  }

  lemma {:induction false} StrLessTransitive(a: string, b: string, c: string)
    requires StrLess(a, b) && StrLess(b, c)
    ensures StrLess(a, c)
    decreases |a|
  {
    if a != [] && a[0] == b[0] && b[0] == c[0] {
      StrLessTransitive(a[1..], b[1..], c[1..]);
    }
  }

  lemma {:induction false} StrLessTotal(a: string, b: string)
    requires a != b
    ensures StrLess(a, b) || StrLess(b, a)
    decreases |a|
  {
    if a != [] && b != [] && a[0] == b[0] {
      assert a == [a[0]] + a[1..] && b == [b[0]] + b[1..];
      StrLessTotal(a[1..], b[1..]);
    }
  }

  /** Python's `<` on `(name, oid, type_)` tuples. */
  predicate Less(x: Entry, y: Entry) {
    || StrLess(x.name, y.name)
    || (x.name == y.name && StrLess(x.oid, y.oid))
    || (x.name == y.name && x.oid == y.oid && StrLess(x.kind, y.kind))
  }

  predicate LessEq(x: Entry, y: Entry) {
    x == y || Less(x, y)
  }

  lemma LessIrreflexive(x: Entry)
    ensures !Less(x, x)
  {
    StrLessIrreflexive(x.name);
    StrLessIrreflexive(x.oid);
    StrLessIrreflexive(x.kind);
  }

  lemma LessTransitive(x: Entry, y: Entry, z: Entry)
    requires Less(x, y) && Less(y, z)
    ensures Less(x, z)
  {
    if StrLess(x.name, y.name) && StrLess(y.name, z.name) { StrLessTransitive(x.name, y.name, z.name); }
    if x.name == y.name == z.name && StrLess(x.oid, y.oid) && StrLess(y.oid, z.oid) { StrLessTransitive(x.oid, y.oid, z.oid); }
    if x.name == y.name == z.name && x.oid == y.oid == z.oid && StrLess(x.kind, y.kind) && StrLess(y.kind, z.kind) {
      StrLessTransitive(x.kind, y.kind, z.kind);
    }
  }

  lemma LessTotal(x: Entry, y: Entry)
    requires x != y
    ensures Less(x, y) || Less(y, x)
  {
    if x.name != y.name { StrLessTotal(x.name, y.name); }
    else if x.oid != y.oid { StrLessTotal(x.oid, y.oid); }
    else { StrLessTotal(x.kind, y.kind); }
  }

  lemma LessAsymmetric(x: Entry, y: Entry)
    requires Less(x, y)
    ensures !Less(y, x)
  {
    if Less(y, x) {
      LessTransitive(x, y, x);
      LessIrreflexive(x);
    }
  }

  predicate Sorted(s: seq<Entry>) {
    forall i, j :: 0 <= i < j < |s| ==> LessEq(s[i], s[j])
  }

  /** Puts `x` in its place in the sorted sequence `s`. */
  function Insert(x: Entry, s: seq<Entry>): (r: seq<Entry>)
    requires Sorted(s)
    ensures Sorted(r) && multiset(r) == multiset(s) + multiset{x}
  {
    if s == [] then [x]
    else if LessEq(x, s[0]) then
      InsertFront(x, s);
      [x] + s
    else
      LessTotal(x, s[0]);
      var t := Insert(x, s[1..]);
      InsertBehind(x, s, t);
      assert s == [s[0]] + s[1..];
      [s[0]] + t
  }

  lemma InsertFront(x: Entry, s: seq<Entry>)
    requires Sorted(s) && s != [] && LessEq(x, s[0])
    ensures Sorted([x] + s)
  {
    forall j | 0 < j < |s| ensures LessEq(x, s[j]) {
      if x != s[0] && s[0] != s[j] { LessTransitive(x, s[0], s[j]); }
    }
  }

  lemma InsertBehind(x: Entry, s: seq<Entry>, t: seq<Entry>)
    requires Sorted(s) && s != [] && Less(s[0], x)
    requires Sorted(t) && multiset(t) == multiset(s[1..]) + multiset{x}
    ensures Sorted([s[0]] + t)
  {
    forall k | 0 <= k < |t| ensures LessEq(s[0], t[k]) {
      assert t[k] in multiset(t);
      if t[k] in multiset(s[1..]) {
        var j :| 0 <= j < |s[1..]| && s[1..][j] == t[k];
        assert s[j + 1] == t[k];
      }
    }
  }

  /** `sorted(entries)`: the sorted permutation of `entries`. */
  function Sort(s: seq<Entry>): (r: seq<Entry>)
    ensures Sorted(r) && multiset(r) == multiset(s)
  {
    if s == [] then []
    else
      assert s == [s[0]] + s[1..];
      Insert(s[0], Sort(s[1..]))
  }

  /** The head of a sorted sequence is below every element. */
  lemma HeadIsLeast(a: seq<Entry>, x: Entry)
    requires Sorted(a) && x in a
    ensures LessEq(a[0], x)
  {
    var i :| 0 <= i < |a| && a[i] == x;
    assert i == 0 || LessEq(a[0], a[i]);
  }

  lemma TailMultiset(a: seq<Entry>)
    requires a != []
    ensures multiset(a[1..]) == multiset(a) - multiset{a[0]}
  {
    assert a == [a[0]] + a[1..];
  }

  /** Two sorted sequences with the same elements are equal: the order
      leaves no choice. */
  lemma {:induction false} SortedUnique(a: seq<Entry>, b: seq<Entry>)
    requires Sorted(a) && Sorted(b) && multiset(a) == multiset(b)
    ensures a == b
    decreases |a|
  {
    assert |b| == |multiset(b)| == |multiset(a)| == |a|;
    if a != [] {
      assert a[0] in multiset(b) && b[0] in multiset(a);
      HeadIsLeast(b, a[0]);
      HeadIsLeast(a, b[0]);
      if a[0] != b[0] { LessAsymmetric(a[0], b[0]); }
      TailMultiset(a);
      TailMultiset(b);
      SortedUnique(a[1..], b[1..]);
      assert a == [a[0]] + a[1..] && b == [b[0]] + b[1..];
    }
  }

  /** Sorting forgets the input order. */
  lemma SortPermutation(a: seq<Entry>, b: seq<Entry>)
    requires multiset(a) == multiset(b)
    ensures Sort(a) == Sort(b)
  {
    SortedUnique(Sort(a), Sort(b));
  }

  /** Sorting a sorted sequence changes nothing. */
  lemma SortSorted(s: seq<Entry>)
    requires Sorted(s)
    ensures Sort(s) == s
  {
    SortedUnique(Sort(s), s);
  }
}
