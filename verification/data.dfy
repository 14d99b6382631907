/** The content-addressed object store of `jgit/data.py`: an object is
    stored as its type tag, a NUL byte and its payload, under the SHA-1 hex
    digest of those bytes. The digest is a parameter of the store and is
    never assumed to be injective. */
module Data {
  import opened Failures
  import opened Text

  /** Name of the repository directory; the store lives in its `objects` subdirectory. */
  const GitDir: string := ".jgit"

  /** The type `hash_object` writes and `get_object` expects when the caller gives none. */
  const DefaultType: string := "blob"

  predicate IsHexDigest(s: string) {
    |s| == 40 && forall i :: 0 <= i < |s| ==> s[i] in "0123456789abcdef"
  }

  /** What `hexdigest()` returns: 40 lower-case hexadecimal digits. */
  type Oid = s: string | IsHexDigest(s) witness "0000000000000000000000000000000000000000"

  /** The stored object: type tag, NUL separator, payload. */
  function Frame(kind: string, data: Bytes): (obj: Bytes)
    requires IsAscii(kind)
    ensures |obj| == |kind| + 1 + |data| && obj[|kind|] == NUL
  {
    Encode(kind) + [NUL] + data
  }

  /** The bytes after the separator are the data, and a tag without NUL puts
      no NUL before it, so the separator is the frame's first NUL. */
  lemma FrameLayout(kind: string, data: Bytes)
    requires IsAscii(kind)
    ensures Frame(kind, data)[|kind| + 1..] == data
    ensures '\0' !in kind ==> NUL !in Frame(kind, data)[..|kind|]
  {
    var tag := Encode(kind);
    assert Frame(kind, data)[..|kind|] == tag;
    if '\0' !in kind { NulNotInEncode(kind); }
  }

  /** `obj.partition(b'\x00')` without its middle part: the bytes before the
      first NUL and the bytes after it, or everything and nothing. */
  function Partition(obj: Bytes): (parts: (Bytes, Bytes))
    ensures NUL in obj ==> NUL !in parts.0 && obj == parts.0 + [NUL] + parts.1
    ensures NUL !in obj ==> parts == (obj, [])
  {
    var i := IndexOf(obj, NUL);
    if i == |obj| then (obj, [])
    else
      assert obj == obj[..i] + [NUL] + obj[i + 1..];
      (obj[..i], obj[i + 1..])
  }

  /** The split finds the tag again, whatever NUL bytes the payload holds,
      as long as the tag itself has none. */
  lemma PartitionFrame(kind: string, data: Bytes)
    requires IsAscii(kind) && '\0' !in kind
    ensures Partition(Frame(kind, data)) == (Encode(kind), data)
  {
    NulNotInEncode(kind);
    var obj := Frame(kind, data);
    var tag := Encode(kind);
    assert IndexOf(obj, NUL) == |tag| by {
      assert obj[|tag|] == NUL;
      assert forall j :: 0 <= j < |tag| ==> obj[j] == tag[j];
    }
    assert obj[..|tag|] == tag;
    assert obj[|tag| + 1..] == data;
  }

  /** `get_object(oid, expected)` as a function of the store contents. An
      object without any NUL byte reads as a tag with an empty payload. */
  function GetObject(objects: map<string, Bytes>, oid: string, expected: Option<string> := Some(DefaultType)): (r: Result<Bytes>)
    ensures oid !in objects ==> r == Err(NotFound(oid))
    ensures r.Ok? ==> oid in objects
    ensures r.Ok? && expected.Some? ==>
              && IsAscii(expected.value)
              && (|| objects[oid] == Frame(expected.value, r.value)
                  || (NUL !in objects[oid] && objects[oid] == Encode(expected.value) && r.value == []))
    ensures r.Err? && oid in objects ==> r != Err(NotFound(oid))
  {
    if oid !in objects then Err(NotFound(oid))
    else
      var (tag, content) := Partition(objects[oid]);
      match Decode(tag)
      case None => Err(Undecodable)
      case Some(kind) =>
        if expected.Some? && kind != expected.value then Err(TypeMismatch(expected.value, kind))
        else
          assert NUL in objects[oid] ==> objects[oid] == Frame(kind, content);
          Ok(content)
  }

  /** Reading back what `hash_object` stored returns the payload, both with
      the tag as the expected type and with no expected type. */
  lemma {:induction false} GetObjectRoundTrip(objects: map<string, Bytes>, oid: string, kind: string, data: Bytes)
    requires IsAscii(kind) && '\0' !in kind
    requires oid in objects && objects[oid] == Frame(kind, data)
    ensures GetObject(objects, oid, Some(kind)) == Ok(data)
    ensures GetObject(objects, oid, None) == Ok(data)
  {
    PartitionFrame(kind, data);
    DecodeEncode(kind);
  }

  /** An expected type other than the stored tag fails the type check. */
  lemma {:induction false} GetObjectTypeMismatch(objects: map<string, Bytes>, oid: string, kind: string, data: Bytes, expected: string)
    requires IsAscii(kind) && '\0' !in kind && expected != kind
    requires oid in objects && objects[oid] == Frame(kind, data)
    ensures GetObject(objects, oid, Some(expected)) == Err(TypeMismatch(expected, kind))
  {
    PartitionFrame(kind, data);
    DecodeEncode(kind);
  }

  /** The store after `hash_object(data, kind)` with digest function `digest`. */
  function Put(objects: map<string, Bytes>, digest: Bytes -> Oid, kind: string, data: Bytes): (r: map<string, Bytes>)
    requires IsAscii(kind)
    ensures r.Keys == objects.Keys + {digest(Frame(kind, data))}
    ensures r[digest(Frame(kind, data))] == Frame(kind, data)
    ensures forall k :: k in objects && k != digest(Frame(kind, data)) ==> r[k] == objects[k]
  {
    objects[digest(Frame(kind, data)) := Frame(kind, data)]
  }

  /** Writing the same object twice leaves the store as one write did. */
  lemma PutIdempotent(objects: map<string, Bytes>, digest: Bytes -> Oid, kind: string, data: Bytes)
    requires IsAscii(kind)
    ensures Put(Put(objects, digest, kind, data), digest, kind, data) == Put(objects, digest, kind, data)
  {
  }

  /** Every object is stored under the digest of its own bytes. */
  ghost predicate ContentAddressed(objects: map<string, Bytes>, digest: Bytes -> Oid) {
    forall k :: k in objects ==> digest(objects[k]) == k
  }

  lemma PutContentAddressed(objects: map<string, Bytes>, digest: Bytes -> Oid, kind: string, data: Bytes)
    requires IsAscii(kind) && ContentAddressed(objects, digest)
    ensures ContentAddressed(Put(objects, digest, kind, data), digest)
  {
  }

  /** The `.jgit/objects` directory: a map from file name to file bytes. */
  class Store {
    var objects: map<string, Bytes>
    const digest: Bytes -> Oid

    /** A store whose directory already exists (`data.init` is not part of this model). */
    constructor (digest: Bytes -> Oid, objects: map<string, Bytes>)
      ensures this.digest == digest && this.objects == objects
    {
      this.digest := digest;
      this.objects := objects;
    }

    /** `hash_object(data, type_)`: frame, digest, write `objects/<oid>`. */
    method HashObject(data: Bytes, kind: string := DefaultType) returns (oid: Oid)
      requires IsAscii(kind)
      modifies this
      ensures oid == digest(Frame(kind, data))
      ensures objects == Put(old(objects), digest, kind, data)
    {
      var obj := Encode(kind) + [NUL] + data;
      oid := digest(obj);
      objects := objects[oid := obj];
    }
  }
}
