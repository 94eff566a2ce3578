/** `ChunkRoller`: spools records into a temporary chunk file and, once the
    chunk holds `chunk_max` records or the roller is closed, renames it to
    a permanent name made of its record count, its MD5 and its extension. */
module Roller {
  import opened Common
  import opened Streams
  import opened Checksum
  import opened Records
  import opened Envelope
  import opened ChunkEngine

  /** `os.path.join(a, b)` on POSIX: an absolute `b` replaces `a`; a
      separator is put between them unless `a` is empty or ends in one. */
  function PathJoin(a: string, b: string): (r: string)
    ensures EndsWith(r, b)
    ensures |b| > 0 && b[0] == '/' ==> r == b
  {
    if |b| > 0 && b[0] == '/' then b
    else if a == [] || a[|a| - 1] == '/' then a + b
    else a + "/" + b
  }

  /** The name of the temporary chunk, `tmp-<n>.sc.xz`. */
  function TempName(n: nat): string
  {
    "tmp-" + NatToString(n) + ".sc.xz"
  }

  /** The permanent name of a finished chunk, `<count>-<md5>.<ext>.xz`. */
  function FinalName(count: nat, digest: string, ext: string): string
  {
    NatToString(count) + "-" + digest + "." + ext + ".xz"
  }

  predicate SubstringAt(s: string, t: string, i: int)
  {
    0 <= i && i + |t| <= |s| && s[i..i + |t|] == t
  }

  predicate HasSubstring(s: string, t: string)
  {
    exists i :: 0 <= i <= |s| && SubstringAt(s, t, i)
  }

  lemma NoSubstringWithoutChar(s: string, t: string, c: char)
    requires |t| > 0 && c == t[0] && c !in s
    ensures !HasSubstring(s, t)
  {
    forall i | 0 <= i && i + |t| <= |s|
      ensures !SubstringAt(s, t, i)
    {
      assert s[i..i + |t|][0] == s[i];
    }
  }

  /** A permanent name never contains 'tmp', so a finished chunk is never
      mistaken for a temporary one: decimal digits, hex digits and the
      two extensions have no 't'. */
  lemma FinalNameHasNoTmp(count: nat, digest: string, ext: string)
    requires IsHexDigest(digest) && ext in {"sc", "cbor"}
    ensures !HasSubstring(FinalName(count, digest, ext), "tmp")
  {
    var name := FinalName(count, digest, ext);
    var d := NatToString(count);
    forall i | 0 <= i < |name|
      ensures name[i] != 't'
    {
      if i < |d| {
        assert name[i] == d[i] && IsDigit(d[i]);
      } else if i == |d| {
      } else if i < |d| + 1 + |digest| {
        assert name[i] == digest[i - |d| - 1];
      }
    }
    NoSubstringWithoutChar(name, "tmp", 't');
  }

  /** The temporary name does contain 'tmp', so the two never meet. */
  lemma TempNameHasTmp(n: nat)
    ensures HasSubstring(TempName(n), "tmp")
  {
    assert SubstringAt(TempName(n), "tmp", 0);
  }

  /** Under the same directory a permanent path is never the temporary
      path, so rolling a chunk never overwrites the next one's file. */
  lemma FinalPathIsNotTemp(dir: string, b: string, count: nat, digest: string, ext: string)
    requires IsHexDigest(digest) && ext in {"sc", "cbor"}
    requires |b| > 0 && b[0] != '/' && HasSubstring(b, "tmp")
    ensures PathJoin(dir, FinalName(count, digest, ext)) != PathJoin(dir, b)
  {
    var a := FinalName(count, digest, ext);
    assert a[0] == NatToString(count)[0] && IsDigit(a[0]);
    var pre := if dir == [] || dir[|dir| - 1] == '/' then dir else dir + "/";
    assert PathJoin(dir, a) == pre + a && PathJoin(dir, b) == pre + b;
    FinalNameHasNoTmp(count, digest, ext);
    assert a != b;
    assert (pre + a)[|pre|..] == a && (pre + b)[|pre|..] == b;
  }

  /** The temporary path is an .xz path and not a .gz one, so the chunk
      over it is written through the xz compressor. */
  lemma TempPathIsXz(dir: string, n: nat)
    ensures EndsWith(PathJoin(dir, TempName(n)), ".xz") && !EndsWith(PathJoin(dir, TempName(n)), ".gz")
  {
    var p := PathJoin(dir, TempName(n));
    var t := TempName(n);
    assert t[|t| - 3..] == ".xz";
    assert p[|p| - 3..] == t[|t| - 3..];
  }

  /** Two names joined under the same directory give the same path only
      when they are the same name. */
  lemma PathJoinInjective(dir: string, a: string, b: string)
    requires |a| > 0 && a[0] != '/' && |b| > 0 && b[0] != '/'
    requires PathJoin(dir, a) == PathJoin(dir, b)
    ensures a == b
  {
    var pre := if dir == [] || dir[|dir| - 1] == '/' then dir else dir + "/";
    assert PathJoin(dir, a) == pre + a && PathJoin(dir, b) == pre + b;
    assert (pre + a)[|pre|..] == a && (pre + b)[|pre|..] == b;
  }

  /** Digits followed by a '-' split at that '-' in one way only. */
  lemma SplitAtDash(n1: string, t1: string, n2: string, t2: string)
    requires AllDigits(n1) && AllDigits(n2) && |t1| > 0 && t1[0] == '-' && |t2| > 0 && t2[0] == '-'
    requires n1 + t1 == n2 + t2
    ensures n1 == n2 && t1 == t2
  {
    var s := n1 + t1;
    assert s == n2 + t2;
    forall k | 0 <= k < |n1|
      ensures s[k] != '-'
    {
      assert s[k] == n1[k];
    }
    forall k | 0 <= k < |n2|
      ensures s[k] != '-'
    {
      assert s[k] == n2[k];
    }
    assert s[|n1|] == '-' && s[|n2|] == '-';
    assert n1 == s[..|n1|] && n2 == s[..|n2|];
    assert t1 == s[|n1|..] && t2 == s[|n2|..];
  }

  /** A permanent name gives back its record count and its digest: the
      count is the digits before the first '-', as `fname.split('-')[0]`
      reads it, and the digest is the 32 characters after it. */
  lemma FinalNameInjective(c1: nat, d1: string, c2: nat, d2: string, ext: string)
    requires IsHexDigest(d1) && IsHexDigest(d2)
    requires FinalName(c1, d1, ext) == FinalName(c2, d2, ext)
    ensures c1 == c2 && d1 == d2
  {
    NameTail(c1, d1, ext);
    NameTail(c2, d2, ext);
    SplitAtDash(NatToString(c1), "-" + d1 + "." + ext + ".xz", NatToString(c2), "-" + d2 + "." + ext + ".xz");
    DigitsValueOfNat(c1);
    DigitsValueOfNat(c2);
  }

  /** A permanent name is its count's digits, then a '-' and the digest. */
  lemma NameTail(c: nat, d: string, ext: string)
    requires |d| == 32
    ensures FinalName(c, d, ext) == NatToString(c) + ("-" + d + "." + ext + ".xz")
    ensures ("-" + d + "." + ext + ".xz")[1..33] == d
  {
    var t := "-" + d + "." + ext + ".xz";
    assert t == "-" + (d + ("." + ext + ".xz"));
    assert (d + ("." + ext + ".xz"))[..32] == d;
  }

  /** `Chunk(path, mode='wb')` on a new .xz path: a writer whose bytes go
      to the file through the xz compressor, or the exception raised when
      the xz module is missing. */
  method OpenXzWriter(fs: FileSystem, p: string, config: Config, env: Environment) returns (r: Result<Chunk, ChunkError>)
    requires EndsWith(p, ".xz") && !EndsWith(p, ".gz") && p !in fs.files && Progress(config.codec)
    modifies fs
    ensures r.Ok? <==> env.xzModule
    ensures r.Err? ==> r.error.ChunkException? && fs.files == old(fs.files)
    ensures r.Ok? ==> fresh(r.value) && fresh(r.value.Repr - {r.value}) && fs.files == old(fs.files)[p := []]
    ensures r.Ok? ==> var c := r.value;
              c.Valid() && c.fs == fs && c.config == config && c.mode == WB && c.oFh != null &&
              c.added == [] && c.count == 0 && c.md5Cached.None? &&
              c.outStart == [] && c.outSink == Some(Sink(p, [], Compressed(env.compressors.xzCompress)))
  {
    assert PathStage(Some(p), false, false, false, WB, env.xzModule) ==
           if env.xzModule then Ok(XzFile(p, WB)) else Err(ChunkException("file extension is .xz but backports.lzma is not installed"));
    r := Chunk.Open(fs, Some(p), None, null, "wb", config, env);
  }

  /** `close` and `md5_hexdigest` of such a writer: the file receives the
      compressed encoding of every record added, and the digest is the MD5
      of the uncompressed encoding. */
  method CloseXzWriter(c: Chunk, p: string, xz: seq<Byte> -> seq<Byte>) returns (digest: string)
    requires c.Valid() && c.oFh != null && c.mode == WB && c.outStart == [] && c.outSink == Some(Sink(p, [], Compressed(xz)))
    requires c.config.inlineMd5 && Md5Law(c.config.md5)
    modifies c.Repr, c.fs
    ensures c.Valid() && c.Repr == old(c.Repr) && c.oFh == null
    ensures c.added == old(c.added) && c.count == old(c.count)
    ensures c.fs.files == old(c.fs.files)[p := xz(EncodeAll(c.config.codec, c.added))]
    ensures digest == c.config.md5(EncodeAll(c.config.codec, c.added)) && IsHexDigest(digest)
  {
    assert c.oTransport.Some? ==> c.oTransport.value.live;
    var closed := c.Close();
    ghost var e := EncodeAll(c.config.codec, c.added);
    assert [] + e == e && [] + xz(e) == xz(e);
    assert Stored(Sink(p, [], Compressed(xz)), [] + e) == xz(e);
    assert IsHexDigest(c.md5Cached.value);
    var d := c.HexDigest();
    digest := d.value;
  }

  class ChunkRoller {
    const fs: FileSystem
    const chunkDir: string
    const chunkMax: int
    const tPath: string
    /** The temporary file's name within `chunk_dir`. */
    ghost const tempName: string
    const message: ClassName
    /** The chunk configurations for `Chunk(t_path, mode='wb')` and
        `CborChunk(t_path, mode='wb')`. */
    const thrift: Config
    const cbor: Config
    const env: Environment
    var oChunk: Chunk?

    /** The records of every chunk rolled so far, in order. */
    ghost var batches: seq<seq<Message>>
    /** The records in the open chunk. */
    ghost var current: seq<Message>
    ghost var Repr: set<object>

    /** The roller writes Thrift chunks exactly when its message class is
        the one Thrift chunks hold by default. */
    function ChunkConfig(): Config
    {
      if message == thrift.message then thrift else cbor
    }

    function Extension(): string
    {
      if message == thrift.message then "sc" else "cbor"
    }

    /** Where a rolled chunk of these records ends up. */
    function FinalPath(batch: seq<Message>): string
    {
      PathJoin(chunkDir, FinalName(|batch|, ChunkConfig().md5(EncodeAll(ChunkConfig().codec, batch)), Extension()))
    }

    /** The bytes a rolled chunk of these records leaves in its file: the
        xz compression of their encoding. */
    function Packed(batch: seq<Message>): seq<Byte>
    {
      env.compressors.xzCompress(EncodeAll(ChunkConfig().codec, batch))
    }

    /** The permanent files the rolled batches leave under `chunk_dir`, in
        the order they were renamed: each batch's path holds its packed
        records, a later batch replacing an earlier one of the same path. */
    ghost function Rolled(bs: seq<seq<Message>>): map<string, seq<Byte>>
      decreases |bs|
    {
      if bs == [] then map[] else Rolled(bs[..|bs| - 1])[FinalPath(bs[|bs| - 1]) := Packed(bs[|bs| - 1])]
    }

    /** The permanent files are never at the temporary path. */
    lemma {:induction false} RolledHasNoTemp(bs: seq<seq<Message>>)
      requires Settled()
      ensures tPath !in Rolled(bs)
      decreases |bs|
    {
      if bs != [] {
        RolledHasNoTemp(bs[..|bs| - 1]);
        assert FinalPath(bs[|bs| - 1]) != tPath;
      }
    }

    /** Rolling one batch more adds its file to those already rolled. */
    lemma RolledStep(bs: seq<seq<Message>>, b: seq<Message>)
      ensures Rolled(bs + [b]) == Rolled(bs)[FinalPath(b) := Packed(b)]
    {
      assert (bs + [b])[..|bs|] == bs;
    }

    /** A permanent path gives back the record count and the MD5 of its
        batch, so batches of different sizes, or of different digests,
        are renamed to different files. */
    lemma FinalPathInjective(a: seq<Message>, b: seq<Message>)
      requires Md5Law(ChunkConfig().md5)
      requires FinalPath(a) == FinalPath(b)
      ensures |a| == |b| && ChunkConfig().md5(EncodeAll(ChunkConfig().codec, a)) == ChunkConfig().md5(EncodeAll(ChunkConfig().codec, b))
    {
      var da := ChunkConfig().md5(EncodeAll(ChunkConfig().codec, a));
      var db := ChunkConfig().md5(EncodeAll(ChunkConfig().codec, b));
      var na, nb := FinalName(|a|, da, Extension()), FinalName(|b|, db, Extension());
      assert na[0] == NatToString(|a|)[0] && nb[0] == NatToString(|b|)[0];
      PathJoinInjective(chunkDir, na, nb);
      FinalNameInjective(|a|, da, |b|, db, Extension());
    }

    /** The invariant between calls: an open chunk has room for another
        record. */
    ghost predicate Valid()
      reads this, Repr
    {
      Core() && (oChunk != null && chunkMax > 0 ==> |current| < chunkMax)
    }

    /** What the constructor fixes: the temporary path and the two chunk
        configurations. */
    ghost predicate Settled()
    {
      (forall b :: FinalPath(b) != tPath) &&
      EndsWith(tPath, ".xz") && !EndsWith(tPath, ".gz") &&
      thrift.backend == Thrift && cbor.backend == Cbor &&
      ChunkConfig().inlineMd5 && ChunkConfig().writeWrapper.None? && Md5Law(ChunkConfig().md5) &&
      Progress(thrift.codec) && Progress(cbor.codec)
    }

    ghost predicate Core()
      reads this, Repr
    {
      this in Repr && fs !in Repr && Settled() &&
      (oChunk == null ==> current == []) &&
      (oChunk != null ==>
         oChunk in Repr && oChunk.Repr <= Repr && this !in oChunk.Repr && oChunk.Valid() &&
         oChunk.fs == fs && oChunk.config == ChunkConfig() && oChunk.mode == WB && oChunk.oFh != null &&
         oChunk.outStart == [] && oChunk.outSink == Some(Sink(tPath, [], Compressed(env.compressors.xzCompress))) &&
         oChunk.added == current && oChunk.md5Cached.None? &&
         (chunkMax > 0 ==> |current| <= chunkMax)) &&
      (forall i :: 0 <= i < |batches| ==> 0 < |batches[i]| && (chunkMax > 0 ==> |batches[i]| <= chunkMax))
    }

    /** `ChunkRoller(chunk_dir, chunk_max, message)`, with `n` the random
        number in the temporary name. */
    constructor (fs: FileSystem, chunkDir: string, chunkMax: int, n: nat, message: ClassName, thrift: Config, cbor: Config, env: Environment)
      requires n <= 100000000
      requires thrift.backend == Thrift && cbor.backend == Cbor && Progress(thrift.codec) && Progress(cbor.codec)
      requires var c := if message == thrift.message then thrift else cbor;
               c.inlineMd5 && c.writeWrapper.None? && Md5Law(c.md5)
      ensures Valid() && fresh(Repr)
      ensures this.fs == fs && this.chunkDir == chunkDir && this.chunkMax == chunkMax && this.message == message
      ensures this.thrift == thrift && this.cbor == cbor && this.env == env
      ensures tPath == PathJoin(chunkDir, TempName(n))
      ensures oChunk == null && batches == [] && current == []
    {
      this.fs := fs;
      this.chunkDir := chunkDir;
      this.chunkMax := chunkMax;
      this.tPath := PathJoin(chunkDir, TempName(n));
      this.tempName := TempName(n);
      this.message := message;
      this.thrift := thrift;
      this.cbor := cbor;
      this.env := env;
      oChunk := null;
      batches := [];
      current := [];
      Repr := {this};
      new;
      Settle(n);
    }

    /** The temporary path a new roller picks leaves it settled. */
    lemma Settle(n: nat)
      requires tPath == PathJoin(chunkDir, TempName(n)) && tempName == TempName(n)
      requires thrift.backend == Thrift && cbor.backend == Cbor && Progress(thrift.codec) && Progress(cbor.codec)
      requires ChunkConfig().inlineMd5 && ChunkConfig().writeWrapper.None? && Md5Law(ChunkConfig().md5)
      ensures Settled()
    {
      TempNameHasTmp(n);
      TempPathIsXz(chunkDir, n);
      forall b {
        FinalIsNotTemp(b);
      }
    }

    /** No batch is ever renamed onto the temporary path. */
    lemma FinalIsNotTemp(batch: seq<Message>)
      requires tPath == PathJoin(chunkDir, tempName) && |tempName| > 0 && tempName[0] != '/' && HasSubstring(tempName, "tmp")
      requires Md5Law(ChunkConfig().md5)
      ensures FinalPath(batch) != tPath
    {
      FinalPathIsNotTemp(chunkDir, tempName, |batch|, ChunkConfig().md5(EncodeAll(ChunkConfig().codec, batch)), Extension());
    }

    /** Records the open chunk accepts: any record for CBOR, an instance
        of the chunk's class or of a subclass for Thrift. */
    predicate Accepts(m: Message)
    {
      message != thrift.message || IsInstance(thrift, m)
    }

    /** `add`: opens the temporary chunk when none is open (removing a stale
        temporary file first), adds the record, and rolls the chunk when it
        reaches `chunk_max` records. Opening fails when the xz module is
        missing. */
    method Add(item: Message) returns (r: Outcome<ChunkError>)
      requires Valid()
      modifies Repr, fs
      ensures Valid() && fresh(Repr - old(Repr))
      ensures r.Pass? <==> (old(oChunk) != null || env.xzModule) && Accepts(item)
      ensures old(oChunk) == null && !env.xzModule ==> r.Fail? && r.error.ChunkException? && fs.files == old(fs.files) - {tPath}
      ensures r.Fail? ==> batches == old(batches) && current == old(current)
      ensures r.Fail? && (old(oChunk) != null || env.xzModule) ==>
                oChunk != null && fs.files == if old(oChunk) == null then old(fs.files)[tPath := []] else old(fs.files)
      ensures r.Pass? && |old(current)| + 1 != chunkMax ==>
                batches == old(batches) && current == old(current) + [item] && oChunk != null &&
                fs.files == if old(oChunk) == null then old(fs.files)[tPath := []] else old(fs.files)
      ensures r.Pass? && |old(current)| + 1 == chunkMax ==>
                batches == old(batches) + [old(current) + [item]] && current == [] && oChunk == null &&
                fs.files == (old(fs.files) - {tPath})[FinalPath(old(current) + [item]) :=
                                                      env.compressors.xzCompress(EncodeAll(ChunkConfig().codec, old(current) + [item]))]
    {
      if oChunk == null {
        assert old(current) + [item] == [item];
        r := OpenAndPut(item);
      } else {
        r := PutAndRoll(item);
      }
    }

    /** `add` with no chunk open. */
    method OpenAndPut(item: Message) returns (r: Outcome<ChunkError>)
      requires Valid() && oChunk == null
      modifies Repr, fs
      ensures Valid() && fresh(Repr - old(Repr))
      ensures r.Pass? <==> env.xzModule && Accepts(item)
      ensures !env.xzModule ==> r.Fail? && r.error.ChunkException? && fs.files == old(fs.files) - {tPath}
      ensures r.Fail? ==> batches == old(batches) && current == []
      ensures r.Fail? && env.xzModule ==> oChunk != null && fs.files == old(fs.files)[tPath := []]
      ensures r.Pass? && 1 != chunkMax ==>
                batches == old(batches) && current == [item] && oChunk != null && fs.files == old(fs.files)[tPath := []]
      ensures r.Pass? && 1 == chunkMax ==>
                batches == old(batches) + [[item]] && current == [] && oChunk == null &&
                fs.files == (old(fs.files) - {tPath})[FinalPath([item]) :=
                                                      env.compressors.xzCompress(EncodeAll(ChunkConfig().codec, [item]))]
    {
      r := OpenTemp();
      if r.Fail? {
        return;
      }
      DropUpdated(old(fs.files), tPath, []);
      assert [] + [item] == [item];
      r := PutAndRoll(item);
    }

    /** The rest of `add`, once a chunk is open: the record goes in, and
        the chunk is rolled if that made it full. */
    method PutAndRoll(item: Message) returns (r: Outcome<ChunkError>)
      requires Valid() && oChunk != null
      modifies Repr, fs
      ensures Valid() && Repr == old(Repr)
      ensures r.Pass? <==> Accepts(item)
      ensures r.Fail? ==> batches == old(batches) && current == old(current) && oChunk != null && fs.files == old(fs.files)
      ensures r.Pass? && |old(current)| + 1 != chunkMax ==>
                batches == old(batches) && current == old(current) + [item] && oChunk != null && fs.files == old(fs.files)
      ensures r.Pass? && |old(current)| + 1 == chunkMax ==>
                batches == old(batches) + [old(current) + [item]] && current == [] && oChunk == null &&
                fs.files == (old(fs.files) - {tPath})[FinalPath(old(current) + [item]) :=
                                                      env.compressors.xzCompress(EncodeAll(ChunkConfig().codec, old(current) + [item]))]
    {
      r := Put(item);
      if r.Pass? && oChunk.Len() == chunkMax {
        Roll();
      }
    }

    /** The opening half of `add`: remove a stale temporary file, then open
        a writer over the temporary path, which creates it. */
    method OpenTemp() returns (r: Outcome<ChunkError>)
      requires Valid() && oChunk == null
      modifies this, fs
      ensures Valid() && fresh(Repr - old(Repr))
      ensures r.Pass? <==> env.xzModule
      ensures r.Pass? ==> oChunk != null && fs.files == old(fs.files)[tPath := []]
      ensures r.Fail? ==> oChunk == null && r.error.ChunkException? && fs.files == old(fs.files) - {tPath}
      ensures batches == old(batches) && current == old(current)
    {
      ghost var start := fs.files;
      if tPath in fs.files {
        fs.Remove(tPath);
      } else {
        DropAbsent(start, tPath);
      }
      UpdateDropped(start, tPath, []);
      var o := OpenXzWriter(fs, tPath, ChunkConfig(), env);
      if o.Err? {
        return Fail(o.error);
      }
      Attach(o.value);
      r := Pass;
    }

    /** The open chunk becomes part of the roller. */
    method Attach(c: Chunk)
      requires Valid() && oChunk == null && this !in c.Repr
      requires c.Valid() && c.fs == fs && c.config == ChunkConfig() && c.mode == WB && c.oFh != null
      requires c.added == [] && c.md5Cached.None? &&
               c.outStart == [] && c.outSink == Some(Sink(tPath, [], Compressed(env.compressors.xzCompress)))
      modifies this
      ensures Valid() && Repr == old(Repr) + c.Repr && oChunk == c
      ensures batches == old(batches) && current == old(current)
    {
      oChunk := c;
      Repr := Repr + c.Repr;
    }

    /** The middle of `add`: the open chunk takes the record. */
    method Put(item: Message) returns (r: Outcome<ChunkError>)
      requires Valid() && oChunk != null
      modifies Repr
      ensures Core() && Repr == old(Repr) && oChunk == old(oChunk)
      ensures |current| != chunkMax ==> Valid()
      ensures r.Pass? <==> Accepts(item)
      ensures batches == old(batches)
      ensures current == if r.Pass? then old(current) + [item] else old(current)
      ensures oChunk.Len() == |current|
    {
      r := oChunk.Add(item);
      if r.Pass? {
        current := current + [item];
      }
    }

    /** `close`: a chunk holding records is rolled; otherwise nothing
        happens. */
    method Close() returns (r: Outcome<ChunkError>)
      requires Valid()
      modifies Repr, fs
      ensures Valid() && Repr == old(Repr) && r.Pass?
      ensures old(oChunk) != null && old(current) != [] ==>
                oChunk == null && batches == old(batches) + [old(current)] && current == [] &&
                fs.files == (old(fs.files) - {tPath})[FinalPath(old(current)) := env.compressors.xzCompress(EncodeAll(ChunkConfig().codec, old(current)))]
      ensures old(oChunk) == null || old(current) == [] ==>
                oChunk == old(oChunk) && batches == old(batches) && current == old(current) && fs.files == old(fs.files)
    {
      if oChunk != null && oChunk.Len() != 0 {
        Roll();
      }
      r := Pass;
    }

    /** The body of `close`: the open chunk is closed, which writes its
        compressed records to the temporary file, and that file is renamed
        to its permanent name under `chunk_dir`. */
    method Roll()
      requires Core() && oChunk != null && current != []
      modifies Repr, fs
      ensures Valid() && Repr == old(Repr)
      ensures oChunk == null && batches == old(batches) + [old(current)] && current == []
      ensures fs.files == (old(fs.files) - {tPath})[FinalPath(old(current)) := env.compressors.xzCompress(EncodeAll(ChunkConfig().codec, old(current)))]
    {
      var c := oChunk;
      ghost var bytes := EncodeAll(ChunkConfig().codec, current);
      ghost var before := fs.files;
      var digest := CloseXzWriter(c, tPath, env.compressors.xzCompress);
      var oPath := PathJoin(chunkDir, FinalName(c.Len(), digest, Extension()));
      assert oPath == FinalPath(current);
      fs.Rename(tPath, oPath);
      RenameOverwritten(before, tPath, oPath, env.compressors.xzCompress(bytes));
      Detach();
    }

    /** The end of `close`: the roller forgets the closed chunk, whose
        records now form a batch. */
    method Detach()
      requires this in Repr && fs !in Repr && Settled() && current != [] && (chunkMax > 0 ==> |current| <= chunkMax)
      requires forall i :: 0 <= i < |batches| ==> 0 < |batches[i]| && (chunkMax > 0 ==> |batches[i]| <= chunkMax)
      modifies this
      ensures Valid() && Repr == old(Repr)
      ensures oChunk == null && batches == old(batches) + [old(current)] && current == []
    {
      oChunk := null;
      batches := batches + [current];
      current := [];
    }
  }

  /** Renaming a file that was just written drops what it held before. */
  lemma RenameOverwritten(files: map<string, seq<Byte>>, src: string, dst: string, v: seq<Byte>)
    ensures (files[src := v] - {src})[dst := files[src := v][src]] == (files - {src})[dst := v]
  {
    DropUpdated(files, src, v);
  }

  /** One more record keeps the flattened batches and the open chunk a
      prefix of the records, whether the chunk stays open or is rolled. */
  lemma FlattenStep(batches: seq<seq<Message>>, current: seq<Message>, items: seq<Message>, i: nat)
    requires i < |items| && Flatten(batches) + current == items[..i]
    ensures Flatten(batches) + (current + [items[i]]) == items[..i + 1]
    ensures Flatten(batches + [current + [items[i]]]) + [] == items[..i + 1]
  {
    assert items[..i + 1] == items[..i] + [items[i]];
    FlattenAppend(batches, [current + [items[i]]]);
    assert Flatten([current + [items[i]]]) == current + [items[i]];
  }

  /** `add` seen from the records alone: an accepted record joins the open
      chunk, and the chunk it completes is rolled. */
  method Push(roller: ChunkRoller, item: Message)
    requires roller.Valid() && roller.Accepts(item) && roller.env.xzModule
    modifies roller.Repr, roller.fs
    ensures roller.Valid() && fresh(roller.Repr - old(roller.Repr))
    ensures |old(roller.current)| + 1 == roller.chunkMax ==>
              roller.batches == old(roller.batches) + [old(roller.current) + [item]] && roller.current == [] &&
              roller.oChunk == null &&
              roller.fs.files == (old(roller.fs.files) - {roller.tPath})[roller.FinalPath(old(roller.current) + [item]) :=
                                                                        roller.Packed(old(roller.current) + [item])]
    ensures |old(roller.current)| + 1 == roller.chunkMax ==>
              roller.tPath !in roller.fs.files && roller.FinalPath(old(roller.current) + [item]) in roller.fs.files
    ensures forall q :: q in old(roller.fs.files) && q != roller.tPath ==> q in roller.fs.files
    ensures |old(roller.current)| + 1 != roller.chunkMax ==>
              roller.batches == old(roller.batches) && roller.current == old(roller.current) + [item] &&
              roller.oChunk != null &&
              roller.fs.files == if old(roller.oChunk) == null then old(roller.fs.files)[roller.tPath := []] else old(roller.fs.files)
  {
    var r := roller.Add(item);
    assert roller.tPath != roller.FinalPath(old(roller.current) + [item]);
  }

  /** What holds after the first `i` of the records went into a roller
      with `chunk_max=10` over an empty directory: full batches of ten and
      an open chunk of the rest, all in order, and the directory holds
      exactly the rolled batches' files and, while a chunk is open, the
      temporary file. */
  ghost predicate Spooled(roller: ChunkRoller, fs: FileSystem, items: seq<Message>, i: nat)
    reads roller, roller.Repr, fs
  {
    roller.Valid() && roller.fs == fs && roller.chunkMax == 10 && roller.env.xzModule &&
    i <= |items| && i == 10 * |roller.batches| + |roller.current| && |roller.current| < 10 &&
    (forall k :: 0 <= k < |roller.batches| ==> |roller.batches[k]| == 10) &&
    Flatten(roller.batches) + roller.current == items[..i] &&
    fs.files == if roller.oChunk != null then roller.Rolled(roller.batches)[roller.tPath := []] else roller.Rolled(roller.batches)
  }

  /** One record more. */
  method Spool(roller: ChunkRoller, fs: FileSystem, items: seq<Message>, i: nat)
    requires Spooled(roller, fs, items, i) && i < |items| && roller.Accepts(items[i])
    modifies roller.Repr, fs
    ensures Spooled(roller, fs, items, i + 1) && fresh(roller.Repr - old(roller.Repr))
  {
    ghost var before := roller.batches;
    ghost var open := roller.current;
    ghost var files := fs.files;
    FlattenStep(before, open, items, i);
    roller.RolledHasNoTemp(before);
    Push(roller, items[i]);
    if |open| + 1 == 10 {
      assert files == roller.Rolled(before)[roller.tPath := []];
      DropUpdated(roller.Rolled(before), roller.tPath, []);
      DropAbsent(roller.Rolled(before), roller.tPath);
      roller.RolledStep(before, open + [items[i]]);
    }
  }

  /** The roller run of the repository's own check: 25 accepted records
      with `chunk_max=10` into an empty directory leave exactly three
      files, no temporary one, holding chunks of 10, 10 and 5 records that
      are all the records in order. The chunk of five has a name of its
      own; the two chunks of ten have their own names whenever their MD5
      digests differ. */
  method RollTwentyFive(fs: FileSystem, chunkDir: string, n: nat, message: ClassName, thrift: Config, cbor: Config, env: Environment, items: seq<Message>)
    returns (roller: ChunkRoller)
    requires n <= 100000000 && |items| == 25 && env.xzModule && fs.files == map[]
    requires thrift.backend == Thrift && cbor.backend == Cbor && Progress(thrift.codec) && Progress(cbor.codec)
    requires var c := if message == thrift.message then thrift else cbor;
             c.inlineMd5 && c.writeWrapper.None? && Md5Law(c.md5)
    requires forall i :: 0 <= i < |items| ==> message != thrift.message || IsInstance(thrift, items[i])
    modifies fs
    ensures roller.oChunk == null && roller.current == []
    ensures |roller.batches| == 3 && |roller.batches[0]| == 10 && |roller.batches[1]| == 10 && |roller.batches[2]| == 5
    ensures roller.batches[0] + roller.batches[1] + roller.batches[2] == items
    ensures fs.files == map[roller.FinalPath(roller.batches[0]) := roller.Packed(roller.batches[0])]
                          [roller.FinalPath(roller.batches[1]) := roller.Packed(roller.batches[1])]
                          [roller.FinalPath(roller.batches[2]) := roller.Packed(roller.batches[2])]
    ensures roller.tPath !in fs.files
    ensures roller.FinalPath(roller.batches[2]) != roller.FinalPath(roller.batches[0]) &&
            roller.FinalPath(roller.batches[2]) != roller.FinalPath(roller.batches[1])
    ensures var c := roller.ChunkConfig();
            c.md5(EncodeAll(c.codec, roller.batches[0])) != c.md5(EncodeAll(c.codec, roller.batches[1])) ==> |fs.files| == 3
  {
    roller := Start(fs, chunkDir, n, message, thrift, cbor, env, items);
    SpoolAll(roller, fs, items);
    Finish(roller, fs, items);
  }

  /** `for si in si_list: roller.add(si)` over all the records. */
  method SpoolAll(roller: ChunkRoller, fs: FileSystem, items: seq<Message>)
    requires Spooled(roller, fs, items, 0)
    requires forall i :: 0 <= i < |items| ==> roller.Accepts(items[i])
    modifies roller.Repr, fs
    ensures Spooled(roller, fs, items, |items|) && fresh(roller.Repr - old(roller.Repr))
  {
    var i := 0;
    while i < |items|
      invariant 0 <= i <= |items|
      invariant fresh(roller.Repr - old(roller.Repr))
      invariant Spooled(roller, fs, items, i)
    {
      Spool(roller, fs, items, i);
      i := i + 1;
    }
  }

  /** `ChunkRoller(chunk_dir, chunk_max=10, message)` over an empty
      directory: nothing spooled yet. */
  method Start(fs: FileSystem, chunkDir: string, n: nat, message: ClassName, thrift: Config, cbor: Config, env: Environment, items: seq<Message>)
    returns (roller: ChunkRoller)
    requires n <= 100000000 && env.xzModule && fs.files == map[]
    requires thrift.backend == Thrift && cbor.backend == Cbor && Progress(thrift.codec) && Progress(cbor.codec)
    requires var c := if message == thrift.message then thrift else cbor;
             c.inlineMd5 && c.writeWrapper.None? && Md5Law(c.md5)
    ensures Spooled(roller, fs, items, 0) && fresh(roller.Repr)
    ensures roller.message == message && roller.thrift == thrift
  {
    roller := new ChunkRoller(fs, chunkDir, 10, n, message, thrift, cbor, env);
    assert Flatten(roller.batches) + roller.current == [] == items[..0];
  }

  /** `close` after the 25 records: the open chunk of five is rolled, and
      the directory holds exactly the three chunks' files. */
  method Finish(roller: ChunkRoller, fs: FileSystem, items: seq<Message>)
    requires |items| == 25 && Spooled(roller, fs, items, 25)
    modifies roller.Repr, fs
    ensures roller.oChunk == null && roller.current == []
    ensures |roller.batches| == 3 && |roller.batches[0]| == 10 && |roller.batches[1]| == 10 && |roller.batches[2]| == 5
    ensures roller.batches[0] + roller.batches[1] + roller.batches[2] == items
    ensures fs.files == map[roller.FinalPath(roller.batches[0]) := roller.Packed(roller.batches[0])]
                          [roller.FinalPath(roller.batches[1]) := roller.Packed(roller.batches[1])]
                          [roller.FinalPath(roller.batches[2]) := roller.Packed(roller.batches[2])]
    ensures roller.tPath !in fs.files
    ensures roller.FinalPath(roller.batches[2]) != roller.FinalPath(roller.batches[0]) &&
            roller.FinalPath(roller.batches[2]) != roller.FinalPath(roller.batches[1])
    ensures var c := roller.ChunkConfig();
            c.md5(EncodeAll(c.codec, roller.batches[0])) != c.md5(EncodeAll(c.codec, roller.batches[1])) ==> |fs.files| == 3
  {
    SpooledTwentyFive(roller, fs, items);
    ghost var two := roller.batches;
    ghost var last := roller.current;
    var _ := roller.Close();
    assert roller.batches == two + [last];
    roller.RolledHasNoTemp(two);
    DropUpdated(roller.Rolled(two), roller.tPath, []);
    DropAbsent(roller.Rolled(two), roller.tPath);
    roller.RolledStep(two, last);
    SeparateFiles(roller, roller.batches[0], roller.batches[1], roller.batches[2]);
  }

  /** Three batches of 10, 10 and 5 records: the five's path is apart
      from the others, and the two tens' paths are apart when their
      digests are. Then the three files are three. */
  lemma SeparateFiles(roller: ChunkRoller, b0: seq<Message>, b1: seq<Message>, b2: seq<Message>)
    requires Md5Law(roller.ChunkConfig().md5) && |b0| == 10 && |b1| == 10 && |b2| == 5
    ensures roller.FinalPath(b2) != roller.FinalPath(b0) && roller.FinalPath(b2) != roller.FinalPath(b1)
    ensures var c := roller.ChunkConfig();
            c.md5(EncodeAll(c.codec, b0)) != c.md5(EncodeAll(c.codec, b1)) ==>
              |map[roller.FinalPath(b0) := roller.Packed(b0)][roller.FinalPath(b1) := roller.Packed(b1)]
                  [roller.FinalPath(b2) := roller.Packed(b2)]| == 3
  {
    if roller.FinalPath(b2) == roller.FinalPath(b0) {
      roller.FinalPathInjective(b2, b0);
    }
    if roller.FinalPath(b2) == roller.FinalPath(b1) {
      roller.FinalPathInjective(b2, b1);
    }
    var c := roller.ChunkConfig();
    if c.md5(EncodeAll(c.codec, b0)) != c.md5(EncodeAll(c.codec, b1)) {
      if roller.FinalPath(b0) == roller.FinalPath(b1) {
        roller.FinalPathInjective(b0, b1);
      }
      var m := map[roller.FinalPath(b0) := roller.Packed(b0)][roller.FinalPath(b1) := roller.Packed(b1)]
                  [roller.FinalPath(b2) := roller.Packed(b2)];
      assert m.Keys == {roller.FinalPath(b0), roller.FinalPath(b1), roller.FinalPath(b2)};
    }
  }

  /** After 25 records, two full chunks have rolled and five records wait
      in the open chunk, whose temporary file sits beside the two. */
  lemma SpooledTwentyFive(roller: ChunkRoller, fs: FileSystem, items: seq<Message>)
    requires |items| == 25 && Spooled(roller, fs, items, 25)
    ensures |roller.batches| == 2 && |roller.batches[0]| == 10 && |roller.batches[1]| == 10 && |roller.current| == 5
    ensures roller.batches[0] + roller.batches[1] + roller.current == items
    ensures roller.oChunk != null
    ensures fs.files == map[roller.FinalPath(roller.batches[0]) := roller.Packed(roller.batches[0])]
                          [roller.FinalPath(roller.batches[1]) := roller.Packed(roller.batches[1])][roller.tPath := []]
  {
    assert |roller.batches| == 2;
    FlattenLast(roller.batches, roller.current, items);
    var b := roller.batches;
    assert b[..1][..0] == [] && b[..1][0] == b[0];
    assert roller.Rolled(b[..1]) == map[roller.FinalPath(b[0]) := roller.Packed(b[0])];
    assert roller.Rolled(b) == roller.Rolled(b[..1])[roller.FinalPath(b[1]) := roller.Packed(b[1])];
  }

  /** Two full batches and the rest make up all the records. */
  lemma FlattenLast(two: seq<seq<Message>>, last: seq<Message>, items: seq<Message>)
    requires |two| == 2 && Flatten(two) + last == items[..|items|]
    ensures two[0] + two[1] + last == items
  {
    assert items[..|items|] == items;
    assert Flatten(two) == two[0] + two[1] by {
      assert two == [two[0]] + [two[1]];
      FlattenAppend([two[0]], [two[1]]);
      assert Flatten([two[0]]) == two[0];
      assert Flatten([two[1]]) == two[1];
    }
  }
}
