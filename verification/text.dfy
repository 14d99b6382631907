/** Bytes, ASCII text and the few `str` operations the code relies on. */
module Text {
  import opened Failures

  newtype Byte = x: int | 0 <= x < 256
  type Bytes = seq<Byte>

  const NUL: Byte := 0

  /** Index of the first occurrence of `x` in `s`, or `|s|` when there is none. */
  function IndexOf<T(==)>(s: seq<T>, x: T): (i: nat)
    ensures i <= |s|
    ensures i < |s| ==> s[i] == x
    ensures forall j :: 0 <= j < i ==> s[j] != x
    ensures i == |s| <==> x !in s
  {
    if s == [] then 0
    else if s[0] == x then 0
    else 1 + IndexOf(s[1..], x)
  }

  /** The number of occurrences of `x` in `s`. */
  function Count<T(==)>(s: seq<T>, x: T): nat {
    if s == [] then 0 else (if s[0] == x then 1 else 0) + Count(s[1..], x)
  }

  predicate IsAscii(s: string) {
    forall i :: 0 <= i < |s| ==> s[i] as int < 128
  }

  predicate AsciiBytes(b: Bytes) {
    forall i :: 0 <= i < |b| ==> b[i] < 128
  }

  /** `str.encode()` on ASCII text: UTF-8 maps every ASCII character to its code. */
  function Encode(s: string): (b: Bytes)
    requires IsAscii(s)
    ensures |b| == |s| && AsciiBytes(b)
    ensures forall i :: 0 <= i < |s| ==> b[i] as int == s[i] as int
  {
    seq(|s|, i requires 0 <= i < |s| => s[i] as int as Byte)
  }

  /** `bytes.decode()`; the model decodes ASCII only and reports any other byte as undecodable. */
  function Decode(b: Bytes): (s: Option<string>)
    ensures s.Some? <==> AsciiBytes(b)
    ensures s.Some? ==> IsAscii(s.value) && Encode(s.value) == b
  {
    if AsciiBytes(b) then Some(seq(|b|, i requires 0 <= i < |b| => b[i] as int as char)) else None
  }

  lemma DecodeEncode(s: string)
    requires IsAscii(s)
    ensures Decode(Encode(s)) == Some(s)
  {
    var b := Encode(s);
    assert Decode(b).value == s;
  }

  lemma EncodeAppend(s: string, t: string)
    requires IsAscii(s) && IsAscii(t)
    ensures IsAscii(s + t) && Encode(s + t) == Encode(s) + Encode(t)
  {
    assert IsAscii(s + t) by {
      forall i | 0 <= i < |s + t| ensures (s + t)[i] as int < 128 {
        if i >= |s| { assert (s + t)[i] == t[i - |s|]; }
      }
    }
  }

  lemma NulNotInEncode(s: string)
    requires IsAscii(s) && '\0' !in s
    ensures NUL !in Encode(s)
  {
  }

  /** `str.split(sep)`: the pieces between occurrences of `sep`. */
  function Split(s: string, sep: char): (parts: seq<string>)
    ensures |parts| >= 1
    ensures forall i :: 0 <= i < |parts| ==> sep !in parts[i]
    decreases |s|
  {
    var i := IndexOf(s, sep);
    if i == |s| then [s]
    else [s[..i]] + Split(s[i + 1..], sep)
  }

  /** Splitting at an occurrence of the separator splits each side apart. */
  lemma {:induction false} SplitConcat(a: string, b: string, sep: char)
    ensures Split(a + [sep] + b, sep) == Split(a, sep) + Split(b, sep)
    decreases |a|, 1
  {
    if sep !in a {
      SplitAfter(a, b, sep);
      SplitStep(a, sep);
    } else {
      SplitConcatCut(a, b, sep);
    }
  }

  /** `SplitConcat` when `a` has a separator: both sides lose the same first
      piece, and the rest is shorter. */
  lemma {:induction false} SplitConcatCut(a: string, b: string, sep: char)
    requires sep in a
    ensures Split(a + [sep] + b, sep) == Split(a, sep) + Split(b, sep)
    decreases |a|, 0
  {
    var i := IndexOf(a, sep);
    var p, r := a[..i], a[i + 1..];
    SplitFirst(a, b, sep, p, r);
    SplitConcat(r, b, sep);
    ConsAppend(p, Split(r, sep), Split(b, sep));
  }

  /** Associativity, kept apart so that using it does not unfold `Split`. */
  lemma ConsAppend<T>(p: T, x: seq<T>, y: seq<T>)
    ensures [p] + (x + y) == ([p] + x) + y
  {
  }

  /** Cutting `a` at its first separator gives the first piece of both `a`
      and `a + [sep] + b`. */
  lemma SplitFirst(a: string, b: string, sep: char, p: string, r: string)
    requires sep in a && p == a[..IndexOf(a, sep)] && r == a[IndexOf(a, sep) + 1..]
    ensures Split(a + [sep] + b, sep) == [p] + Split(r + [sep] + b, sep)
    ensures Split(a, sep) == [p] + Split(r, sep)
  {
    assert a == p + [sep] + r;
    assert a + [sep] + b == p + [sep] + (r + [sep] + b);
    SplitAfter(p, r + [sep] + b, sep);
    SplitAfter(p, r, sep);
  }

  /** Text without the separator, then the separator, is the first piece. */
  lemma SplitAfter(p: string, q: string, sep: char)
    requires sep !in p
    ensures Split(p + [sep] + q, sep) == [p] + Split(q, sep)
  {
    var s := p + [sep] + q;
    assert s == p + ([sep] + q);
    IndexOfConcat(p, [sep] + q, sep);
    SplitStep(s, sep);
    assert s[..|p|] == p && s[|p| + 1..] == q;
  }

  /** One step of `Split`: the piece up to the first separator, then the
      pieces of the rest. */
  lemma SplitStep(s: string, sep: char)
    ensures IndexOf(s, sep) == |s| ==> Split(s, sep) == [s]
    ensures IndexOf(s, sep) < |s| ==>
              Split(s, sep) == [s[..IndexOf(s, sep)]] + Split(s[IndexOf(s, sep) + 1..], sep)
  {
  }

  /** The first `x` of `a + t` is the first of `a`, or else the first of `t`
      shifted past `a`. */
  lemma {:induction false} IndexOfConcat<T>(a: seq<T>, t: seq<T>, x: T)
    ensures IndexOf(a + t, x) == if x in a then IndexOf(a, x) else |a| + IndexOf(t, x)
    decreases |a|
  {
    if a != [] && a[0] != x {
      IndexOfConcat(a[1..], t, x);
      assert (a + t)[1..] == a[1..] + t;
    } else if a == [] {
      assert a + t == t;
    }
  }

  /** `sep.join(parts)` */
  function Join(parts: seq<string>, sep: char): string
  {
    if parts == [] then ""
    else if |parts| == 1 then parts[0]
    else parts[0] + [sep] + Join(parts[1..], sep)
  }

  /** Splitting a join gives back the pieces, provided no piece holds the separator. */
  lemma {:induction false} SplitJoin(parts: seq<string>, sep: char)
    requires |parts| >= 1
    requires forall i :: 0 <= i < |parts| ==> sep !in parts[i]
    ensures Split(Join(parts, sep), sep) == parts
    decreases |parts|
  {
    if |parts| == 1 {
      assert IndexOf(parts[0], sep) == |parts[0]|;
    } else {
      var s := Join(parts, sep);
      var rest := Join(parts[1..], sep);
      assert s == parts[0] + [sep] + rest;
      assert IndexOf(s, sep) == |parts[0]| by {
        assert forall j :: 0 <= j < |parts[0]| ==> s[j] == parts[0][j];
      }
      assert s[|parts[0]| + 1..] == rest;
      assert s[..|parts[0]|] == parts[0];
      SplitJoin(parts[1..], sep);
    }
  }


  /** Joining one more piece appends a separator and the piece. */
  lemma {:induction false} JoinSnoc(parts: seq<string>, x: string, sep: char)
    requires |parts| >= 1
    ensures Join(parts + [x], sep) == Join(parts, sep) + [sep] + x
    decreases |parts|
  {
    if |parts| > 1 {
      assert (parts + [x])[1..] == parts[1..] + [x];
      JoinSnoc(parts[1..], x, sep);
    }
  }
}
