/** Records as the chunk code sees them: an instance of some message class
    with an optional `version` field, and a serializer given as an
    encode/decode pair. The wire format itself (Thrift binary, CBOR) stays
    abstract; the laws below are what the chunk code relies on. */
module Records {
  import opened Common

  type ClassName = string

  /** A record: its class, its `version` field when the class has one, and
      the rest of its fields, opaque to the container. */
  datatype Message = Message(cls: ClassName, version: Option<int>, fields: seq<Byte>)

  /** One step of the reader: a record and the bytes it took, the end of the
      input (EOFError), or bytes the decoder refuses. */
  datatype Step = Got(msg: Message, used: nat) | AtEnd | Corrupt

  datatype Codec = Codec(encode: Message -> seq<Byte>, decode: (ClassName, seq<Byte>) -> Step)

  /** Each decoded record consumes at least one byte of the input. */
  ghost predicate Progress(c: Codec)
  {
    forall cls, b :: c.decode(cls, b).Got? ==> 0 < c.decode(cls, b).used <= |b|
  }

  /** Reading an encoding back with the record's own class gives the record
      and consumes exactly its encoding, whatever follows it. */
  ghost predicate RoundTrip(c: Codec)
  {
    forall m: Message, rest: seq<Byte> :: c.decode(m.cls, c.encode(m) + rest) == Got(m, |c.encode(m)|)
  }

  /** Empty input is the end of the stream. */
  ghost predicate EmptyIsEnd(c: Codec)
  {
    forall cls :: c.decode(cls, []) == AtEnd
  }

  ghost predicate CodecLaws(c: Codec)
  {
    Progress(c) && RoundTrip(c) && EmptyIsEnd(c)
  }

  /** The bytes of a sequence of records written one after the other. */
  function EncodeAll(c: Codec, ms: seq<Message>): seq<Byte>
  {
    if ms == [] then [] else c.encode(ms[0]) + EncodeAll(c, ms[1..])
  }

  lemma {:induction false} EncodeAllAppend(c: Codec, a: seq<Message>, b: seq<Message>)
    ensures EncodeAll(c, a + b) == EncodeAll(c, a) + EncodeAll(c, b)
  {
    if a == [] {
      assert a + b == b;
    } else {
      assert (a + b)[1..] == a[1..] + b;
      EncodeAllAppend(c, a[1..], b);
    }
  }

  /** Why a read loop ended: the input ran out, the decoder refused the
      bytes, or a record carried a version other than the expected one. */
  datatype Stop = CleanEnd | Malformed | Mismatch(found: int)

  datatype Decoding = Decoding(msgs: seq<Message>, stop: Stop)

  /** Does a record pass the reader's version check? A record without a
      version field always passes. */
  predicate VersionOk(m: Message, expected: Option<int>)
  {
    m.version.None? || m.version == expected
  }

  /** Reads records of class `cls` until the input ends, the decoder fails,
      or (when `check` holds) a record fails the version check. */
  function DecodeAll(c: Codec, cls: ClassName, expected: Option<int>, check: bool, b: seq<Byte>): (d: Decoding)
    requires Progress(c)
    ensures check ==> forall i :: 0 <= i < |d.msgs| ==> VersionOk(d.msgs[i], expected)
    decreases |b|
  {
    match c.decode(cls, b)
    case AtEnd => Decoding([], CleanEnd)
    case Corrupt => Decoding([], Malformed)
    case Got(m, used) =>
      if check && !VersionOk(m, expected) then Decoding([], Mismatch(m.version.value))
      else
        var rest := DecodeAll(c, cls, expected, check, b[used..]);
        Decoding([m] + rest.msgs, rest.stop)
  }

  /** Records written one after the other are read back in order, and the
      loop ends cleanly, when each has the reader's class and passes the
      version check. */
  lemma {:induction false} DecodeEncodeAll(c: Codec, cls: ClassName, expected: Option<int>, check: bool, ms: seq<Message>)
    requires CodecLaws(c)
    requires forall i :: 0 <= i < |ms| ==> ms[i].cls == cls
    requires check ==> forall i :: 0 <= i < |ms| ==> VersionOk(ms[i], expected)
    ensures DecodeAll(c, cls, expected, check, EncodeAll(c, ms)) == Decoding(ms, CleanEnd)
  {
    if ms == [] {
      assert c.decode(cls, []) == AtEnd;
    } else {
      var e := c.encode(ms[0]);
      var tail := EncodeAll(c, ms[1..]);
      assert c.decode(cls, e + tail) == Got(ms[0], |e|);
      assert (e + tail)[|e|..] == tail;
      DecodeEncodeAll(c, cls, expected, check, ms[1..]);
      assert [ms[0]] + ms[1..] == ms;
    }
  }

  /** The version check stops the loop at the first record that fails it:
      the records before it are delivered and nothing after it. */
  lemma {:induction false} DecodeStopsAtMismatch(c: Codec, cls: ClassName, expected: Option<int>, ms: seq<Message>, k: nat)
    requires CodecLaws(c)
    requires forall i :: 0 <= i < |ms| ==> ms[i].cls == cls
    requires k < |ms| && !VersionOk(ms[k], expected)
    requires forall i :: 0 <= i < k ==> VersionOk(ms[i], expected)
    ensures DecodeAll(c, cls, expected, true, EncodeAll(c, ms)) == Decoding(ms[..k], Mismatch(ms[k].version.value))
  {
    var e := c.encode(ms[0]);
    var tail := EncodeAll(c, ms[1..]);
    assert c.decode(cls, e + tail) == Got(ms[0], |e|);
    if k > 0 {
      assert (e + tail)[|e|..] == tail;
      DecodeStopsAtMismatch(c, cls, expected, ms[1..], k - 1);
      assert [ms[0]] + ms[1..][..k - 1] == ms[..k];
    }
  }
}
