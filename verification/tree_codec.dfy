/** The text form of a tree object (`jgit/base.py`): one line
    `"<type> <oid> <name>\n"` per entry, in sorted order, and the generator
    `iter_tree_entries` that reads those lines back. */
module TreeCodec {
  import opened Failures
  import opened Text
  import opened Data
  import opened Entries

  /** The characters `str.splitlines` ends a line at, among ASCII ones. */
  predicate IsLineBreak(c: char) {
    c as int in {10, 11, 12, 13, 28, 29, 30}
  }

  predicate NoLineBreak(s: string) {
    forall i :: 0 <= i < |s| ==> !IsLineBreak(s[i])
  }

  /** One tree line without its line break, as written at base.py:30. */
  function LineText(e: Entry): string {
    e.kind + " " + e.oid + " " + e.name
  }

  function Lines(es: seq<Entry>): string {
    if es == [] then "" else LineText(es[0]) + "\n" + Lines(es[1..])
  }

  /** The tree payload `write_tree` builds from its entries (base.py:29-33):
      empty exactly when there are none, and otherwise ending with the
      line break of its last line. */
  function TreePayload(entries: seq<Entry>): (text: string)
    ensures text == "" <==> entries == []
    ensures text != "" ==> text[|text| - 1] == '\n'
  {
    var s := Sort(entries);
    assert s == [] <==> entries == [] by {
      assert |s| == |multiset(s)| == |multiset(entries)| == |entries|;
    }
    LinesEnd(s);
    Lines(s)
  }

  lemma {:induction false} LinesEnd(es: seq<Entry>)
    ensures Lines(es) == "" <==> es == []
    ensures Lines(es) != "" ==> Lines(es)[|Lines(es)| - 1] == '\n'
    decreases |es|
  {
    if es != [] {
      LinesEnd(es[1..]);
    }
  }

  /** Entries whose lines read back unchanged: type and OID hold no space and
      no field holds a line break. */
  predicate Readable(e: Entry) {
    && ' ' !in e.kind && ' ' !in e.oid
    && NoLineBreak(e.kind) && NoLineBreak(e.oid) && NoLineBreak(e.name)
  }

  predicate AsciiEntry(e: Entry) {
    IsAscii(e.kind) && IsAscii(e.oid) && IsAscii(e.name)
  }

  /** The same entries in any order give the same payload. */
  lemma PayloadPermutation(a: seq<Entry>, b: seq<Entry>)
    requires multiset(a) == multiset(b)
    ensures TreePayload(a) == TreePayload(b)
  {
    SortPermutation(a, b);
  }

  lemma {:induction false} LinesAscii(es: seq<Entry>)
    requires forall i :: 0 <= i < |es| ==> AsciiEntry(es[i])
    ensures IsAscii(Lines(es))
    decreases |es|
  {
    if es != [] {
      LinesAscii(es[1..]);
      var e := es[0];
      assert AsciiEntry(e);
      EncodeAppend(e.kind, " ");
      EncodeAppend(e.kind + " ", e.oid);
      EncodeAppend(e.kind + " " + e.oid, " ");
      EncodeAppend(e.kind + " " + e.oid + " ", e.name);
      EncodeAppend(LineText(e), "\n");
      EncodeAppend(LineText(e) + "\n", Lines(es[1..]));
    }
  }

  lemma PayloadAscii(es: seq<Entry>)
    requires forall i :: 0 <= i < |es| ==> AsciiEntry(es[i])
    ensures IsAscii(TreePayload(es))
  {
    var s := Sort(es);
    forall i | 0 <= i < |s| ensures AsciiEntry(s[i]) {
      assert s[i] in multiset(es);
    }
    LinesAscii(s);
  }

  /** Index of the first line break in `s`, or `|s|`. */
  function FirstBreak(s: string): (i: nat)
    ensures i <= |s| && (i < |s| ==> IsLineBreak(s[i]))
    ensures forall j :: 0 <= j < i ==> !IsLineBreak(s[j])
  {
    if s == [] then 0
    else if IsLineBreak(s[0]) then 0
    else 1 + FirstBreak(s[1..])
  }

  /** `str.splitlines()` on ASCII text: `"\r\n"` is one break, a final break
      starts no further line, the empty text has no lines. */
  function SplitLines(s: string): (lines: seq<string>)
    ensures forall i :: 0 <= i < |lines| ==> NoLineBreak(lines[i])
    ensures s == [] <==> lines == []
    decreases |s|
  {
    if s == [] then []
    else
      var i := FirstBreak(s);
      if i == |s| then [s]
      else if s[i] == '\r' && i + 1 < |s| && s[i + 1] == '\n' then [s[..i]] + SplitLines(s[i + 2..])
      else [s[..i]] + SplitLines(s[i + 1..])
  }

  lemma SplitLinesCons(line: string, rest: string)
    requires NoLineBreak(line)
    ensures SplitLines(line + "\n" + rest) == [line] + SplitLines(rest)
  {
    var s := line + "\n" + rest;
    assert FirstBreak(s) == |line| by {
      assert IsLineBreak(s[|line|]);
      assert forall j :: 0 <= j < |line| ==> s[j] == line[j];
    }
    assert s[..|line|] == line;
    assert s[|line| + 1..] == rest;
  }

  predicate HasTwoSpaces(line: string) {
    Count(line, ' ') >= 2
  }

  /** `s.split(' ', 1)` for a string that holds a space: the text before
      its first space and the text after it. */
  function CutAtSpace(s: string): Option<(string, string)> {
    if s == [] then None
    else if s[0] == ' ' then Some(([], s[1..]))
    else
      match CutAtSpace(s[1..])
      case None => None
      case Some(cut) => Some(([s[0]] + cut.0, cut.1))
  }

  /** A string is cut exactly when it holds a space, at its first space,
      and the cut removes one space from the count. */
  lemma {:induction false} CutAtSpaceSpec(s: string)
    ensures CutAtSpace(s).Some? <==> ' ' in s
    ensures CutAtSpace(s).None? ==> Count(s, ' ') == 0
    ensures CutAtSpace(s).Some? ==>
              var cut := CutAtSpace(s).value;
              && ' ' !in cut.0 && s == cut.0 + " " + cut.1
              && Count(s, ' ') == 1 + Count(cut.1, ' ')
  {
    if s != [] && s[0] != ' ' {
      CutAtSpaceSpec(s[1..]);
      assert s == [s[0]] + s[1..];
    }
  }

  /** Text with no space, a space and anything: the cut falls at that space. */
  lemma {:induction false} CutAtSpaceOf(a: string, b: string)
    requires ' ' !in a
    ensures CutAtSpace(a + " " + b) == Some((a, b))
  {
    if a == [] {
      assert a + " " + b == [' '] + b;
    } else {
      CutAtSpaceOf(a[1..], b);
      assert (a + " " + b)[1..] == a[1..] + " " + b;
      assert [a[0]] + a[1..] == a;
    }
  }

  /** `type_, oid, name = entry.split(' ', 2)` (base.py:47): the text before
      the first space, the text between the first two spaces and the rest,
      spaces included; a line with fewer than two spaces does not unpack. */
  function ParseLine(line: string): (r: Option<Entry>)
    ensures r.Some? ==> ' ' !in r.value.kind && ' ' !in r.value.oid && line == LineText(r.value)
  {
    CutAtSpaceSpec(line);
    match CutAtSpace(line)
    case None => None
    case Some(first) =>
      CutAtSpaceSpec(first.1);
      match CutAtSpace(first.1)
      case None => None
      case Some(second) =>
        assert line == first.0 + " " + second.0 + " " + second.1;
        Some(Entry(second.1, second.0, first.0))
  }

  /** A line unpacks exactly when it holds two spaces, into a type and an
      OID without spaces that rebuild the line. */
  lemma {:induction false} ParseLineSpec(line: string)
    ensures ParseLine(line).Some? <==> HasTwoSpaces(line)
    ensures ParseLine(line).Some? ==>
              var e := ParseLine(line).value;
              ' ' !in e.kind && ' ' !in e.oid && line == LineText(e)
  {
    CutAtSpaceSpec(line);
    if CutAtSpace(line).Some? {
      var first := CutAtSpace(line).value;
      CutAtSpaceSpec(first.1);
      if CutAtSpace(first.1).Some? {
        var second := CutAtSpace(first.1).value;
        var e := Entry(second.1, second.0, first.0);
        assert ParseLine(line) == Some(e);
        assert line == first.0 + " " + (second.0 + " " + second.1);
        assert LineText(e) == first.0 + " " + (second.0 + " " + second.1);
      } else {
        assert ParseLine(line).None?;
      }
    }
  }

  /** A tree line with space-free type and OID unpacks into its entry. */
  lemma {:induction false} ParseLineText(e: Entry)
    requires ' ' !in e.kind && ' ' !in e.oid
    ensures ParseLine(LineText(e)) == Some(e)
  {
    assert LineText(e) == e.kind + " " + (e.oid + " " + e.name);
    CutAtSpaceOf(e.kind, e.oid + " " + e.name);
    CutAtSpaceOf(e.oid, e.name);
  }

  /** What the generator produces before it stops: the entries it yielded
      and, when it stopped by raising, the failure. */
  datatype TreeStream = TreeStream(entries: seq<Entry>, failure: Option<Error>)

  /** The loop at base.py:46-48: lines are parsed one at a time, so the
      entries before a malformed line are yielded before it raises. */
  function ParseLines(lines: seq<string>): (s: TreeStream)
    ensures |s.entries| <= |lines|
  {
    if lines == [] then TreeStream([], None)
    else
      match ParseLine(lines[0])
      case None => TreeStream([], Some(MalformedLine(lines[0])))
      case Some(e) =>
        var rest := ParseLines(lines[1..]);
        TreeStream([e] + rest.entries, rest.failure)
  }

  /** The i-th entry the generator yields is the parse of the i-th line. */
  lemma {:induction false} ParseLinesAt(lines: seq<string>, i: nat)
    requires i < |ParseLines(lines).entries|
    ensures ParseLine(lines[i]) == Some(ParseLines(lines).entries[i])
  {
    if i > 0 {
      ParseLinesAt(lines[1..], i - 1);
      assert lines[i] == lines[1..][i - 1];
    }
  }

  /** The generator either consumes every line, or stops at the first
      line that does not parse and reports it. */
  lemma {:induction false} ParseLinesEnd(lines: seq<string>)
    ensures var s := ParseLines(lines);
      && (s.failure.None? ==> |s.entries| == |lines|)
      && (s.failure.Some? ==> && |s.entries| < |lines|
                              && ParseLine(lines[|s.entries|]).None?
                              && s.failure == Some(MalformedLine(lines[|s.entries|])))
  {
    if lines != [] && ParseLine(lines[0]).Some? {
      ParseLinesEnd(lines[1..]);
      var rest := ParseLines(lines[1..]);
      assert ParseLines(lines).entries == [ParseLine(lines[0]).value] + rest.entries;
      if rest.failure.Some? {
        assert lines[|rest.entries| + 1] == lines[1..][|rest.entries|];
      }
    }
  }

  /** A line with fewer than two spaces makes the generator raise, right
      after the entries of the lines before it. */
  lemma {:induction false} MalformedLineFails(lines: seq<string>, k: nat)
    requires k < |lines| && !HasTwoSpaces(lines[k])
    ensures ParseLines(lines).failure.Some?
    ensures |ParseLines(lines).entries| <= k
  {
    ParseLineSpec(lines[k]);
    ParseLinesEnd(lines);
    if k < |ParseLines(lines).entries| {
      ParseLinesAt(lines, k);
    }
  }

  /** `iter_tree_entries(oid)` (base.py:39-48). */
  function IterTreeEntries(objects: map<string, Bytes>, oid: string): (s: TreeStream)
    ensures oid == "" ==> s == TreeStream([], None)
    ensures oid != "" && GetObject(objects, oid, Some("tree")).Err? ==>
              s == TreeStream([], Some(GetObject(objects, oid, Some("tree")).error))
    ensures s.entries != [] ==>
              oid != "" && GetObject(objects, oid, Some("tree")).Ok?
              && Decode(GetObject(objects, oid, Some("tree")).value).Some?
  {
    if oid == "" then TreeStream([], None)
    else
      match GetObject(objects, oid, Some("tree"))
      case Err(e) => TreeStream([], Some(e))
      case Ok(payload) =>
        match Decode(payload)
        case None => TreeStream([], Some(Undecodable))
        case Some(text) => ParseLines(SplitLines(text))
  }

  /** `iter_tree_entries` over a fixed store, as the function `get_tree` calls. */
  function Trees(objects: map<string, Bytes>): (trees: string -> TreeStream)
    ensures forall oid :: trees(oid) == IterTreeEntries(objects, oid)
  {
    oid => IterTreeEntries(objects, oid)
  }

  lemma {:induction false} ParseLinesOfLines(es: seq<Entry>)
    requires forall i :: 0 <= i < |es| ==> Readable(es[i])
    ensures ParseLines(SplitLines(Lines(es))) == TreeStream(es, None)
    decreases |es|
  {
    if es != [] {
      var e := es[0];
      assert NoLineBreak(LineText(e)) by {
        var t := LineText(e);
        forall i | 0 <= i < |t| ensures !IsLineBreak(t[i]) {
          if i < |e.kind| { assert t[i] == e.kind[i]; }
          else if i == |e.kind| { }
          else if i < |e.kind| + 1 + |e.oid| { assert t[i] == e.oid[i - |e.kind| - 1]; }
          else if i == |e.kind| + 1 + |e.oid| { }
          else { assert t[i] == e.name[i - |e.kind| - |e.oid| - 2]; }
        }
      }
      SplitLinesCons(LineText(e), Lines(es[1..]));
      ParseLineText(e);
      ParseLinesOfLines(es[1..]);
      assert es == [e] + es[1..];
    }
  }

  /** Parsing an encoded tree gives back its entries, sorted, with spaces
      inside names kept. */
  lemma ParseRoundTrip(es: seq<Entry>)
    requires forall i :: 0 <= i < |es| ==> Readable(es[i])
    ensures ParseLines(SplitLines(TreePayload(es))) == TreeStream(Sort(es), None)
  {
    var s := Sort(es);
    forall i | 0 <= i < |s| ensures Readable(s[i]) {
      assert s[i] in multiset(es);
    }
    ParseLinesOfLines(s);
  }

  /** Reading a tree object stored by `write_tree` yields its entries in
      sorted order and nothing else. */
  lemma {:induction false} IterStoredTree(objects: map<string, Bytes>, oid: string, es: seq<Entry>)
    requires forall i :: 0 <= i < |es| ==> Readable(es[i]) && AsciiEntry(es[i])
    requires oid != "" && oid in objects
    requires IsAscii(TreePayload(es)) && objects[oid] == Frame("tree", Encode(TreePayload(es)))
    ensures IterTreeEntries(objects, oid) == TreeStream(Sort(es), None)
  {
    IterStoredText(objects, oid, TreePayload(es));
    ParseRoundTrip(es);
  }

  /** A stored tree object's payload is decoded and split into lines. */
  lemma {:induction false} IterStoredText(objects: map<string, Bytes>, oid: string, text: string)
    requires oid != "" && oid in objects
    requires IsAscii(text) && objects[oid] == Frame("tree", Encode(text))
    ensures IterTreeEntries(objects, oid) == ParseLines(SplitLines(text))
  {
    GetObjectRoundTrip(objects, oid, "tree", Encode(text));
    DecodeEncode(text);
  }

  /** The empty OID yields nothing and does not read the store (base.py:41-42). */
  lemma IterEmptyOid(objects: map<string, Bytes>)
    ensures IterTreeEntries(objects, "") == TreeStream([], None)
  {
  }

  /** An object stored with any tag but `tree` makes the generator raise
      before it yields anything (base.py:44). */
  lemma IterNotATree(objects: map<string, Bytes>, oid: string, kind: string, data: Bytes)
    requires IsAscii(kind) && '\0' !in kind && kind != "tree"
    requires oid != "" && oid in objects && objects[oid] == Frame(kind, data)
    ensures IterTreeEntries(objects, oid) == TreeStream([], Some(TypeMismatch("tree", kind)))
  {
    GetObjectTypeMismatch(objects, oid, kind, data, "tree");
  }
}
