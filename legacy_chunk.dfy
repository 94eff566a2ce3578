/** The older, Thrift-only `Chunk` of the first package layout: an
    in-memory writer when built from nothing, a reader over a byte string or
    a file handle otherwise. It has no modes, no version check and no
    counting while iterating. */
module LegacyChunk {
  import opened Common
  import opened Streams
  import opened Records

  /** The only class this container reads back. */
  const StreamItemClass: ClassName := "StreamItem"

  datatype LegacyError =
    | AssertionFailed(reason: string)
    | SeekFailed      // IOError from `seek(0)` on a handle that cannot seek
    | DecodeFailed    // a protocol error other than EOFError while reading
    | ClosedFile      // ValueError from `seek(0)` on a closed handle

  /** A `StringIO` buffer: its value and the position the next write goes
      to. A write replaces the bytes under it and extends the buffer past
      its end. */
  datatype StringBuffer = StringBuffer(buf: seq<Byte>, pos: nat)

  predicate BufferValid(t: StringBuffer)
  {
    t.pos <= |t.buf|
  }

  function WriteAt(t: StringBuffer, d: seq<Byte>): (r: StringBuffer)
    requires BufferValid(t)
    ensures BufferValid(r) && r.pos == t.pos + |d|
    ensures |r.buf| == if t.pos + |d| < |t.buf| then |t.buf| else t.pos + |d|
    ensures r.buf[..t.pos] == t.buf[..t.pos] && r.buf[t.pos..r.pos] == d
  {
    var tail := if t.pos + |d| < |t.buf| then t.buf[t.pos + |d|..] else [];
    StringBuffer(t.buf[..t.pos] + d + tail, t.pos + |d|)
  }

  /** Writing at the end of the buffer appends. */
  lemma WriteAtEnd(t: StringBuffer, d: seq<Byte>)
    requires t.pos == |t.buf|
    ensures WriteAt(t, d) == StringBuffer(t.buf + d, |t.buf + d|)
  {
    assert t.buf[..t.pos] == t.buf;
  }

  /** `__str__` as written: `seek(0)` on the output buffer, then its value.
      The seek moves the position the next `add` writes to. */
  function StrAsWritten(t: StringBuffer): (r: (seq<Byte>, StringBuffer))
    ensures r.0 == t.buf && r.1.buf == t.buf && r.1.pos == 0
  {
    (t.buf, StringBuffer(t.buf, 0))
  }

  /** Each record's encoding is non-empty, since reading it back consumes at
      least one byte. */
  lemma EncodingNonEmpty(c: Codec, m: Message)
    requires CodecLaws(c)
    ensures 0 < |c.encode(m)|
  {
    assert c.decode(m.cls, c.encode(m) + []) == Got(m, |c.encode(m)|);
  }

  /** With `__str__` as written, a chunk that adds `a`, is converted to a
      string, and then adds `b` of the same encoded length holds only `b`:
      the second write lands on top of the first while `len` reports 2. */
  lemma StrThenAddLosesRecord(c: Codec, a: Message, b: Message)
    requires CodecLaws(c)
    requires a.cls == StreamItemClass && b.cls == StreamItemClass
    requires |c.encode(a)| == |c.encode(b)|
    ensures var written := StringBuffer(c.encode(a), |c.encode(a)|);
            var after := WriteAt(StrAsWritten(written).1, c.encode(b));
            after.buf == EncodeAll(c, [b]) &&
            DecodeAll(c, StreamItemClass, None, false, after.buf).msgs == [b] &&
            after.buf != EncodeAll(c, [a, b])
  {
    var ea := c.encode(a);
    var eb := c.encode(b);
    var written := StringBuffer(ea, |ea|);
    var after := WriteAt(StrAsWritten(written).1, eb);
    assert after.buf == eb;
    assert EncodeAll(c, [b]) == eb + EncodeAll(c, []);
    assert eb + [] == eb;
    DecodeEncodeAll(c, StreamItemClass, None, false, [b]);
    assert [a, b][1..] == [b];
    assert EncodeAll(c, [a, b]) == ea + eb;
    EncodingNonEmpty(c, a);
  }

  /** How the read loop ends: EOFError stops it quietly, any other protocol
      error propagates. */
  function EndError(s: Stop): (r: Option<LegacyError>)
    ensures r.None? <==> s == CleanEnd
  {
    if s == CleanEnd then None else Some(DecodeFailed)
  }

  class Chunk {
    const codec: Codec
    /** `_chunk_fh`: the handle `__iter__` reads, or null. */
    const chunkFh: Stream?
    var count: nat
    /** `_o_transport`, which exists exactly when `_o_protocol` does. */
    var oTransport: Option<StringBuffer>
    /** The records written through this handle, in order. */
    ghost var added: seq<Message>

    ghost predicate Valid()
      reads this, chunkFh
    {
      Progress(codec) &&
      (chunkFh != null ==> chunkFh.Valid()) &&
      (oTransport.Some? <==> chunkFh == null) &&
      count == |added| &&
      (oTransport.None? ==> added == []) &&
      (oTransport.Some? ==> oTransport.value.pos == |oTransport.value.buf| &&
                            oTransport.value.buf == EncodeAll(codec, added))
    }

    /** `__init__(data, file_obj)`: with neither, an empty in-memory output
        and no input; with only `data`, an input buffer over it at position
        0; with a `file_obj`, that handle as input and `data` ignored. */
    constructor (codec: Codec, data: Option<seq<Byte>>, fileObj: Stream?)
      requires Progress(codec)
      requires fileObj != null ==> fileObj.Valid()
      ensures Valid() && this.codec == codec && count == 0 && added == []
      ensures data.None? && fileObj == null ==> oTransport == Some(StringBuffer([], 0)) && chunkFh == null
      ensures fileObj != null ==> oTransport.None? && chunkFh == fileObj
      ensures data.Some? && fileObj == null ==>
                oTransport.None? && chunkFh != null && fresh(chunkFh) &&
                chunkFh.content == data.value && chunkFh.pos == 0 && chunkFh.seekable && !chunkFh.closed
    {
      this.codec := codec;
      count := 0;
      added := [];
      if data.None? && fileObj == null {
        oTransport := Some(StringBuffer([], 0));
        chunkFh := null;
      } else if fileObj == null {
        oTransport := None;
        chunkFh := new Stream(data.value, 0, true, NoModeAttr, None);
      } else {
        oTransport := None;
        chunkFh := fileObj;
      }
    }

    /** `add`: fails the `_o_protocol` assertion on a chunk built over
        data; otherwise the record's encoding is written at the buffer's
        position and the count goes up by one. */
    method Add(m: Message) returns (r: Outcome<LegacyError>)
      requires Valid()
      modifies this
      ensures Valid()
      ensures old(oTransport).None? ==> r.Fail? && r.error.AssertionFailed? &&
                                        oTransport == old(oTransport) && count == old(count) && added == old(added)
      ensures old(oTransport).Some? ==>
                r == Pass && oTransport == Some(WriteAt(old(oTransport).value, codec.encode(m))) &&
                oTransport.value.buf == old(oTransport).value.buf + codec.encode(m) &&
                count == old(count) + 1 && added == old(added) + [m]
    {
      if oTransport.None? {
        return Fail(AssertionFailed("cannot add to a Chunk instantiated with data"));
      }
      var t := oTransport.value;
      WriteAtEnd(t, codec.encode(m));
      EncodeAllAppend(codec, added, [m]);
      assert EncodeAll(codec, [m]) == codec.encode(m) + EncodeAll(codec, []);
      oTransport := Some(WriteAt(t, codec.encode(m)));
      added := added + [m];
      count := count + 1;
      r := Pass;
    }

    /** `__str__` without the position reset (see the findings): the empty
        string for a chunk with no output, else every record added, in
        order, each read back by the reader of this container. */
    function Str(): (s: seq<Byte>)
      reads this, chunkFh
      requires Valid()
      ensures oTransport.None? ==> s == []
      ensures oTransport.Some? ==> s == EncodeAll(codec, added)
    {
      if oTransport.None? then [] else oTransport.value.buf
    }

    /** `__len__`: the records added through this handle; a chunk built
        over data reports 0 however many records the data holds. */
    function Len(): (n: nat)
      reads this, chunkFh
      requires Valid()
      ensures n == |added|
      ensures oTransport.None? ==> n == 0
    {
      count
    }

    /** `__iter__` consumed to the end: fails its assertion on a chunk with
        no input handle, seeks the handle to 0 (a ValueError where it is
        closed, an IOError where it cannot seek), then reads records until EOFError. Nothing else changes, so
        iterating again yields the same records. */
    method Iter() returns (items: seq<Message>, error: Option<LegacyError>)
      requires Valid()
      modifies chunkFh
      ensures Valid() && count == old(count) && oTransport == old(oTransport) && added == old(added)
      ensures chunkFh == null ==> items == [] && error.Some? && error.value.AssertionFailed?
      ensures chunkFh != null ==> chunkFh.content == old(chunkFh.content) && chunkFh.closed == old(chunkFh.closed)
      ensures chunkFh != null && chunkFh.closed ==> items == [] && error == Some(ClosedFile)
      ensures chunkFh != null && !chunkFh.closed && !chunkFh.seekable ==> items == [] && error == Some(SeekFailed)
      ensures chunkFh != null && !chunkFh.closed && chunkFh.seekable ==>
                var d := DecodeAll(codec, StreamItemClass, None, false, chunkFh.content);
                items == d.msgs && error == EndError(d.stop)
    {
      if chunkFh == null {
        return [], Some(AssertionFailed("cannot iterate over stream_items in an empty Chunk"));
      }
      if chunkFh.closed {
        return [], Some(ClosedFile);
      }
      var ok := chunkFh.Seek0();
      if !ok {
        return [], Some(SeekFailed);
      }
      var input := chunkFh.Read(None);
      assert input == chunkFh.content;
      items, error := ReadItems(codec, input);
    }
  }

  /** The `while 1` loop of `__iter__`: records until the decoder reports
      the end of the input, or a protocol error. */
  method ReadItems(codec: Codec, input: seq<Byte>) returns (items: seq<Message>, error: Option<LegacyError>)
    requires Progress(codec)
    ensures var d := DecodeAll(codec, StreamItemClass, None, false, input);
            items == d.msgs && error == EndError(d.stop)
  {
    ghost var whole := DecodeAll(codec, StreamItemClass, None, false, input);
    var off := 0;
    items := [];
    while true
      invariant off <= |input|
      invariant whole == Decoding(items + DecodeAll(codec, StreamItemClass, None, false, input[off..]).msgs,
                                  DecodeAll(codec, StreamItemClass, None, false, input[off..]).stop)
      decreases |input| - off
    {
      var rest := input[off..];
      var step := codec.decode(StreamItemClass, rest);
      if !step.Got? {
        assert items + [] == items;
        error := if step.AtEnd? then None else Some(DecodeFailed);
        return;
      }
      var next := DecodeAll(codec, StreamItemClass, None, false, rest[step.used..]);
      assert (items + [step.msg]) + next.msgs == items + ([step.msg] + next.msgs);
      assert rest[step.used..] == input[off + step.used..];
      items := items + [step.msg];
      off := off + step.used;
    }
  }

  /** A chunk built from nothing that adds `ms` one by one reports
      `len(ms)`, and a second chunk built over its string yields exactly
      those records, ending quietly, while its own `len` stays 0. */
  method AddThenRead(c: Codec, ms: seq<Message>) returns (written: nat, items: seq<Message>, error: Option<LegacyError>, readLen: nat)
    requires CodecLaws(c)
    requires forall i :: 0 <= i < |ms| ==> ms[i].cls == StreamItemClass
    ensures written == |ms| && items == ms && error == None && readLen == 0
  {
    var out := new Chunk(c, None, null);
    var i := 0;
    while i < |ms|
      invariant 0 <= i <= |ms|
      invariant out.Valid() && out.codec == c && out.chunkFh == null && out.oTransport.Some?
      invariant out.added == ms[..i]
    {
      var r := out.Add(ms[i]);
      assert ms[..i + 1] == ms[..i] + [ms[i]];
      i := i + 1;
    }
    assert ms[..i] == ms;
    written := out.Len();
    var data := out.Str();
    var reader := new Chunk(c, Some(data), null);
    DecodeEncodeAll(c, StreamItemClass, None, false, ms);
    items, error := reader.Iter();
    readLen := reader.Len();
  }
}
