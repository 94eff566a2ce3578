/** Whole sessions with a chunk on a plain file: write records and read
    them back, and append to a chunk file that already holds records. The
    digest a writer caches on close is the MD5 of the finished file. */
module ChunkScenarios {
  import opened Common
  import opened Streams
  import opened Checksum
  import opened Records
  import opened Envelope
  import opened ChunkEngine

  /** A path with none of the extensions that select a compressor or a
      decrypting pipe. */
  predicate PlainPath(p: string)
  {
    !EndsWith(p, ".xz") && !EndsWith(p, ".gz") && !EndsWith(p, ".xz.gpg")
  }

  /** A Thrift chunk configuration without wrappers that digests inline
      with an MD5 that yields hex digests. */
  ghost predicate PlainConfig(config: Config)
  {
    CodecLaws(config.codec) && config.backend == Thrift &&
    config.writeWrapper.None? && config.readWrapper.None? && config.inlineMd5 && Md5Law(config.md5)
  }

  /** Records the reader accepts: of the chunk's class and version. */
  predicate Acceptable(config: Config, msgs: seq<Message>)
  {
    forall i :: 0 <= i < |msgs| ==> msgs[i].cls == config.message && VersionOk(msgs[i], config.expectedVersion)
  }

  /** Adds every record to a chunk open for writing; each add succeeds. */
  method AddAll(c: Chunk, msgs: seq<Message>)
    requires c.Valid() && c.oFh != null && c.config.backend == Thrift && c.config.writeWrapper.None?
    requires Acceptable(c.config, msgs)
    modifies c.Repr
    ensures c.Valid() && c.Repr == old(c.Repr) && c.oFh == old(c.oFh) && c.iFh == old(c.iFh)
    ensures c.added == old(c.added) + msgs && c.count == old(c.count) + |msgs|
    ensures c.md5Cached == old(c.md5Cached)
  {
    var i := 0;
    while i < |msgs|
      invariant 0 <= i <= |msgs|
      invariant c.Valid() && c.Repr == old(c.Repr) && c.oFh == old(c.oFh) && c.iFh == old(c.iFh)
      invariant c.added == old(c.added) + msgs[..i] && c.count == old(c.count) + i
      invariant c.md5Cached == old(c.md5Cached)
    {
      var r := c.Add(msgs[i]);
      assert r.Pass?;
      assert msgs[..i + 1] == msgs[..i] + [msgs[i]];
      i := i + 1;
    }
    assert msgs[..i] == msgs;
  }

  /** A writer on a plain path: created with 'wb' when the file is new,
      or with 'ab' over what the file holds. After the records are added
      and the chunk is closed, the file holds its old bytes and then the
      records' encodings; the cached digest covers only what was added. */
  method WriteChunk(fs: FileSystem, p: string, mode: string, msgs: seq<Message>, config: Config, env: Environment)
    returns (digest: Option<string>, length: nat)
    requires PlainPath(p) && (if p in fs.files then mode == "ab" else mode == "wb")
    requires PlainConfig(config) && Acceptable(config, msgs)
    modifies fs
    ensures fs.files == old(fs.files)[p := (if p in old(fs.files) then old(fs.files)[p] else []) + EncodeAll(config.codec, msgs)]
    ensures digest == Some(config.md5(EncodeAll(config.codec, msgs)))
    ensures length == |msgs|
  {
    ghost var prefix := if p in fs.files then fs.files[p] else [];
    ghost var before := fs.files;
    var c := OpenWriter(fs, p, mode, config, env);
    digest, length := AddAndClose(c, fs, msgs);
    assert Stored(Sink(p, prefix, Plain), EncodeAll(config.codec, msgs)) == prefix + EncodeAll(config.codec, msgs);
    UpdateTwice(before, p, prefix, prefix + EncodeAll(config.codec, msgs));
  }

  /** Adding every record to a freshly opened writer and closing it: the
      file behind the output handle receives their encodings, and the
      cached digest is their MD5. */
  method AddAndClose(c: Chunk, fs: FileSystem, msgs: seq<Message>) returns (digest: Option<string>, length: nat)
    requires c.Valid() && c.fs == fs && PlainConfig(c.config) && Acceptable(c.config, msgs)
    requires c.oFh != null && c.added == [] && c.count == 0 && c.oTransport.None? && c.md5Cached.None?
    requires c.outStart == [] && c.outSink.Some?
    modifies c.Repr, fs
    ensures fs.files == old(fs.files)[c.outSink.value.path := Stored(c.outSink.value, EncodeAll(c.config.codec, msgs))]
    ensures digest == Some(c.config.md5(EncodeAll(c.config.codec, msgs)))
    ensures length == |msgs|
  {
    AddAll(c, msgs);
    assert c.added == msgs;
    length := c.Len();
    assert c.oTransport.Some? ==> c.oTransport.value.live;
    var closed := c.Close();
    assert closed.Pass?;
    assert c.outStart + EncodeAll(c.config.codec, c.added) == EncodeAll(c.config.codec, msgs);
    assert IsHexDigest(c.md5Cached.value);
    digest := c.HexDigest();
  }

  /** Opening a writer on a plain path: the file exists afterwards, and the
      chunk's bytes will go after what it held, uncompressed. */
  method OpenWriter(fs: FileSystem, p: string, mode: string, config: Config, env: Environment) returns (c: Chunk)
    requires PlainPath(p) && (if p in fs.files then mode == "ab" else mode == "wb")
    requires PlainConfig(config)
    modifies fs
    ensures c.Valid() && fresh(c.Repr) && c.fs == fs && c.config == config
    ensures c.oFh != null && c.added == [] && c.count == 0 && c.oTransport.None? && c.md5Cached.None?
    ensures c.outStart == [] && c.outSink == Some(Sink(p, if p in old(fs.files) then old(fs.files)[p] else [], Plain))
    ensures fs.files == old(fs.files)[p := if p in old(fs.files) then old(fs.files)[p] else []]
  {
    ghost var m := if p in fs.files then AB else WB;
    assert ParseMode(mode) == Some(m);
    assert PathStage(Some(p), p in fs.files, false, false, m, env.xzModule) == Ok(RawFile(p, m));
    var w := Chunk.Open(fs, Some(p), None, null, mode, config, env);
    c := w.value;
  }

  /** A reader on a plain file: every record in it, in order, and the
      exception that ended the loop, if any. */
  method ReadChunk(fs: FileSystem, p: string, config: Config, env: Environment)
    returns (records: seq<Message>, error: Option<ChunkError>)
    requires p in fs.files && PlainPath(p) && PlainConfig(config)
    modifies fs
    ensures fs.files == old(fs.files)
    ensures var d := DecodeAll(config.codec, config.message, config.expectedVersion, true, fs.files[p]);
            records == d.msgs && error == StopError(d.stop)
  {
    assert PathStage(Some(p), true, false, false, RB, env.xzModule) == Ok(RawFile(p, RB));
    var rd := Chunk.Open(fs, Some(p), None, null, "rb", config, env);
    var d := rd.value;
    assert d.iFh.fh.content == fs.files[p] && d.iFh.fh.pos == 0;
    records, error := d.Iterate();
    WrapAllNone(DecodeAll(config.codec, config.message, config.expectedVersion, true, fs.files[p]).msgs);
  }

  /** Writing records to a new plain file and closing it stores their
      encodings there; the cached digest is the MD5 of that file; reading
      the file back yields the same records, ending cleanly. */
  method WriteThenRead(fs: FileSystem, p: string, msgs: seq<Message>, config: Config, env: Environment)
    returns (digest: Option<string>, records: seq<Message>, error: Option<ChunkError>)
    requires p !in fs.files && PlainPath(p)
    requires PlainConfig(config) && Acceptable(config, msgs)
    modifies fs
    ensures fs.files == old(fs.files)[p := EncodeAll(config.codec, msgs)]
    ensures digest == Some(config.md5(fs.files[p]))
    ensures records == msgs && error.None?
  {
    var length;
    digest, length := WriteChunk(fs, p, "wb", msgs, config, env);
    assert [] + EncodeAll(config.codec, msgs) == EncodeAll(config.codec, msgs);
    records, error := ReadChunk(fs, p, config, env);
    DecodeEncodeAll(config.codec, config.message, config.expectedVersion, true, msgs);
  }

  /** An 'ab' chunk on a plain file that holds records writes after them:
      its length counts only the records it added, and reading the file
      back yields the old records and then the new ones. */
  method AppendThenRead(fs: FileSystem, p: string, msgs: seq<Message>, more: seq<Message>, config: Config, env: Environment)
    returns (appended: nat, records: seq<Message>, error: Option<ChunkError>)
    requires p in fs.files && fs.files[p] == EncodeAll(config.codec, msgs) && PlainPath(p)
    requires PlainConfig(config) && Acceptable(config, msgs) && Acceptable(config, more)
    modifies fs
    ensures fs.files == old(fs.files)[p := EncodeAll(config.codec, msgs + more)]
    ensures appended == |more|
    ensures records == msgs + more && error.None?
  {
    var digest;
    digest, appended := WriteChunk(fs, p, "ab", more, config, env);
    EncodeAllAppend(config.codec, msgs, more);
    records, error := ReadChunk(fs, p, config, env);
    assert Acceptable(config, msgs + more);
    DecodeEncodeAll(config.codec, config.message, config.expectedVersion, true, msgs + more);
  }

  lemma {:induction false} WrapAllNone(ms: seq<Message>)
    ensures WrapAll(None, ms) == ms
  {
    if ms != [] {
      WrapAllNone(ms[1..]);
    }
  }
}
