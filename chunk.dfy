/** The chunk container: a file of records written one after the other,
    opened for writing ('wb'), appending ('ab') or reading ('rb'), with a
    record count and an MD5 digest of the bytes this handle wrote or read
    (`BaseChunk`, its Thrift subclass `Chunk`, and the CBOR variant the
    chunk roller also uses). */
module ChunkEngine {
  import opened Common
  import opened Streams
  import opened Checksum
  import opened Records
  import opened Envelope

  datatype Mode = WB | AB | RB

  function ModeText(m: Mode): (s: string)
    ensures |s| == 2 && s[1] == 'b'
  {
    match m
    case WB => "wb"
    case AB => "ab"
    case RB => "rb"
  }

  /** The allowed modes: 'wb', 'ab' and 'rb'. */
  function ParseMode(s: string): (m: Option<Mode>)
    ensures m.Some? <==> s in {"wb", "ab", "rb"}
    ensures m.Some? ==> ModeText(m.value) == s
  {
    if s == "wb" then Some(WB) else if s == "ab" then Some(AB) else if s == "rb" then Some(RB) else None
  }

  datatype Errno = EEXIST | ENOENT

  /** The exceptions the container raises. */
  datatype ChunkError =
    | AssertionFailed(what: string)
    | IOError(errno: Errno)
    | ChunkException(what: string)
    | KeyError
    | IndexError
    | AttributeError
    | VersionMismatchError
    | DecodeError
    | ValueError      // any I/O on a file object that is already closed

  /** `isinstance(msg, config.message)`: the record is of the chunk's class
      or of a class derived from it. */
  predicate IsInstance(config: Config, m: Message)
  {
    m.cls == config.message || config.derives(m.cls, config.message)
  }

  /** Which serializer a chunk uses: Thrift binary (`Chunk`) or CBOR. */
  datatype Backend = Thrift | Cbor

  /** Everything a chunk is created with besides where its bytes come from.
      `expectedVersion` is the `version` of a fresh instance of `message`;
      `derives(sub, base)` holds when class `sub` is a subclass of `base`. */
  datatype Config = Config(
    backend: Backend,
    message: ClassName,
    derives: (ClassName, ClassName) -> bool,
    expectedVersion: Option<int>,
    codec: Codec,
    md5: Md5,
    readWrapper: Option<Message -> Message>,
    writeWrapper: Option<Message -> Message>,
    inlineMd5: bool)

  /** What is installed: whether the xz module imports, the compressors, and
      the `gpg -d | xz --decompress` pipeline as one byte function. */
  datatype Environment = Environment(xzModule: bool, compressors: Compressors, gpgXz: seq<Byte> -> seq<Byte>)

  /** The file object a path argument leads to. */
  datatype Handle =
    | NoHandle
    | GivenHandle
    | RawFile(path: string, mode: Mode)
    | XzFile(path: string, mode: Mode)
    | GzFile(path: string, mode: Mode)
    | XzcatPipe(path: string)
    | GpgXzPipe(path: string)

  /** Where the chunk's bytes live: a file object, or an in-memory buffer
      that is empty, holds `data` for reading, or holds `data` and is
      written after it. */
  datatype Buffer = UseHandle | EmptyBuffer | DataBuffer | AppendBuffer

  datatype Plan = Plan(handle: Handle, buffer: Buffer, mode: Mode)

  /** The `path` branch of the constructor. */
  function PathStage(path: Option<string>, present: bool, hasData: bool, hasFileObj: bool, mode: Mode, xzModule: bool): (r: Result<Handle, ChunkError>)
    ensures path.None? ==> r == Ok(if hasFileObj then GivenHandle else NoHandle)
    ensures path.Some? && (hasData || hasFileObj) ==> r.Err? && r.error.AssertionFailed?
    ensures path.Some? && !hasData && !hasFileObj && present && mode == WB ==> r == Err(IOError(EEXIST))
    ensures path.Some? && !hasData && !hasFileObj && !present && mode == RB ==> r == Err(IOError(ENOENT))
    ensures r.Ok? && r.value.GzFile? && present ==> r.value.mode == RB
    ensures r.Ok? && (r.value.XzcatPipe? || r.value.GpgXzPipe?) ==> present && mode == RB
    ensures r.Ok? && r.value !in {NoHandle, GivenHandle} && !r.value.XzcatPipe? && !r.value.GpgXzPipe? ==> r.value.mode == mode
  {
    if path.None? then Ok(if hasFileObj then GivenHandle else NoHandle)
    else if hasData || hasFileObj then Err(AssertionFailed("Must specify only path or data or file_obj"))
    else
      var p := path.value;
      if present then
        if mode == WB then Err(IOError(EEXIST))
        else if EndsWith(p, ".xz") then
          if !xzModule then
            if mode != RB then Err(ChunkException("backports.lzma is not installed and only rb is allowed"))
            else Ok(XzcatPipe(p))
          else Ok(XzFile(p, mode))
        else if EndsWith(p, ".gz") then
          if mode != RB then Err(AssertionFailed("mode for .gz")) else Ok(GzFile(p, RB))
        else if EndsWith(p, ".xz.gpg") then
          if mode != RB then Err(AssertionFailed("mode for .xz")) else Ok(GpgXzPipe(p))
        else Ok(RawFile(p, mode))
      else
        if mode == RB then Err(IOError(ENOENT))
        else if EndsWith(p, ".gz") then Ok(GzFile(p, mode))
        else if EndsWith(p, ".xz") then
          if !xzModule then Err(ChunkException("file extension is .xz but backports.lzma is not installed"))
          else Ok(XzFile(p, mode))
        else Ok(RawFile(p, mode))
  }

  /** The `mode` attribute of a file object: gzip files use 1 for reading and
      2 for writing or appending, xz files have none, plain files and pipes
      carry a mode string. */
  function HandleMode(h: Handle, given: ModeAttr): ModeAttr
  {
    match h
    case NoHandle => NoModeAttr
    case GivenHandle => given
    case RawFile(_, m) => TextMode(ModeText(m))
    case XzFile(_, _) => NoModeAttr
    case GzFile(_, m) => IntMode(if m == RB then 1 else 2)
    case XzcatPipe(_) => TextMode("rb")
    case GpgXzPipe(_) => TextMode("rb")
  }

  /** The first letter of a file object's mode must agree with `mode`'s. */
  function ModeCheck(attr: ModeAttr, mode: Mode): (r: Outcome<ChunkError>)
    ensures attr.NoModeAttr? ==> r.Pass?
    ensures attr.IntMode? ==> (r.Pass? <==> (attr.code == 1 && mode == RB) || (attr.code == 2 && mode == WB))
    ensures attr.TextMode? ==> (r.Pass? <==> |attr.text| > 0 && attr.text[0] == ModeText(mode)[0])
  {
    match attr
    case NoModeAttr => Pass
    case IntMode(code) =>
      if code != 1 && code != 2 then Fail(KeyError)
      else if (if code == 1 then 'r' else 'w') == ModeText(mode)[0] then Pass
      else Fail(AssertionFailed("file_obj.mode != mode"))
    case TextMode(text) =>
      if text == "" then Fail(IndexError)
      else if text[0] == ModeText(mode)[0] then Pass
      else Fail(AssertionFailed("file_obj.mode != mode"))
  }

  /** The buffer branch of the constructor, after the path branch. */
  function BufferStage(h: Handle, hasData: bool, mode: Mode, attr: ModeAttr): (r: Result<Plan, ChunkError>)
    ensures h == NoHandle && !hasData ==> r == Ok(Plan(NoHandle, EmptyBuffer, WB))
    ensures h == NoHandle && hasData ==> (r.Err? <==> mode == WB)
    ensures r.Ok? && r.value.buffer == DataBuffer ==> hasData && r.value.mode == RB
    ensures r.Ok? && r.value.buffer == AppendBuffer ==> hasData && r.value.mode == AB
    ensures h != NoHandle ==> (r.Ok? <==> ModeCheck(attr, mode).Pass?)
    ensures r.Ok? && h != NoHandle ==> r.value == Plan(h, UseHandle, mode)
  {
    if h == NoHandle && !hasData then Ok(Plan(NoHandle, EmptyBuffer, WB))
    else if h == NoHandle then
      match mode
      case RB => Ok(Plan(NoHandle, DataBuffer, RB))
      case AB => Ok(Plan(NoHandle, AppendBuffer, AB))
      case WB => Err(ChunkException("mode=wb but specified data"))
    else
      match ModeCheck(attr, mode)
      case Fail(e) => Err(e)
      case Pass => Ok(Plan(h, UseHandle, mode))
  }

  /** The construction rules of `BaseChunk.__init__`, given whether the path
      present and the `mode` attribute of a given file object. */
  function OpenPlan(path: Option<string>, present: bool, hasData: bool, given: Option<ModeAttr>, mode: string, xzModule: bool): (r: Result<Plan, ChunkError>)
    ensures ParseMode(mode).None? ==> r.Err? && r.error.AssertionFailed?
    ensures path.Some? && present && !hasData && given.None? && mode == "wb" ==> r == Err(IOError(EEXIST))
    ensures path.Some? && !present && !hasData && given.None? && mode == "rb" ==> r == Err(IOError(ENOENT))
    ensures path.None? && hasData && given.None? && mode == "wb" ==> r.Err? && r.error.ChunkException?
    ensures path.None? && !hasData && given.None? && ParseMode(mode).Some? ==> r == Ok(Plan(NoHandle, EmptyBuffer, WB))
    ensures path.None? && given.Some? && ParseMode(mode).Some? ==>
              (r.Ok? <==> ModeCheck(given.value, ParseMode(mode).value).Pass?)
    ensures r.Ok? && r.value.buffer != EmptyBuffer ==> Some(r.value.mode) == ParseMode(mode)
  {
    match ParseMode(mode)
    case None => Err(AssertionFailed("mode not in allowed modes"))
    case Some(m) =>
      match PathStage(path, present, hasData, given.Some?, m, xzModule)
      case Err(e) => Err(e)
      case Ok(h) => BufferStage(h, hasData, m, HandleMode(h, if given.Some? then given.value else NoModeAttr))
  }

  /** A gzip file created for appending reports mode 2 ('w'), so an 'ab'
      chunk on a new .gz path fails its mode assertion (after the file has
      been created). */
  lemma NewGzAppendFails(p: string, xzModule: bool)
    requires EndsWith(p, ".gz")
    ensures OpenPlan(Some(p), false, false, None, "ab", xzModule) == Err(AssertionFailed("file_obj.mode != mode"))
  {
    assert PathStage(Some(p), false, false, false, AB, xzModule) == Ok(GzFile(p, AB));
  }

  /** Whether the path branch opened (and so created) a file for writing. */
  predicate CreatesFile(path: Option<string>, present: bool, hasData: bool, hasFileObj: bool, mode: string, xzModule: bool)
  {
    path.Some? && !present && ParseMode(mode).Some? &&
    PathStage(path, present, hasData, hasFileObj, ParseMode(mode).value, xzModule).Ok?
  }

  /** The bytes a path handle opened for reading presents. */
  function ReadContent(h: Handle, file: seq<Byte>, env: Environment): seq<Byte>
  {
    match h
    case XzFile(_, _) => env.compressors.xzDecompress(file)
    case XzcatPipe(_) => env.compressors.xzDecompress(file)
    case GzFile(_, _) => env.compressors.gzipDecompress(file)
    case GpgXzPipe(_) => env.gpgXz(file)
    case _ => file
  }

  /** How a path handle opened for writing stores what it is given. */
  function WriteEnvelope(h: Handle, env: Environment): Streams.Envelope
  {
    match h
    case XzFile(_, _) => Compressed(env.compressors.xzCompress)
    case GzFile(_, _) => Compressed(env.compressors.gzipCompress)
    case _ => Plain
  }

  /** The file object `__init__` settles on, and the mode it ends up in. */
  datatype Opening = Opening(fh: Stream, mode: Mode)

  /** What the file object holds after `__init__`: `data` to read from the
      start or to write after, an empty in-memory buffer, the given file
      object itself, or a path's bytes as its handle presents them. */
  ghost predicate Opened(fh: Stream?, path: Option<string>, data: Option<seq<Byte>>, fileObj: Stream?,
                         files: map<string, seq<Byte>>, m: Mode, env: Environment)
    reads fh
  {
    fh != null &&
    (path.None? && fileObj == null && data.Some? && m == RB ==> fh.content == data.value && fh.pos == 0 && !fh.closed) &&
    (path.None? && fileObj == null && data.Some? && m == AB ==> fh.content == data.value && fh.sink.None?) &&
    (path.None? && fileObj == null && data.None? ==> fh.content == [] && fh.sink.None?) &&
    (path.None? && fileObj != null ==> fh == fileObj) &&
    (path.Some? && m == RB && path.value in files ==>
       fh.content == ReadContent(PathStage(path, true, false, false, RB, env.xzModule).value, files[path.value], env) &&
       fh.pos == 0 && fh.sink.None? && !fh.closed) &&
    (path.Some? && m != RB ==>
       var stage := PathStage(path, path.value in files, false, false, m, env.xzModule);
       fh.content == [] &&
       (stage.Ok? ==> fh.sink == Some(Sink(path.value, if path.value in files then files[path.value] else [],
                                          WriteEnvelope(stage.value, env)))))
  }

  datatype Transport = Transport(pending: seq<Byte>, live: bool)

  function Wrap(w: Option<Message -> Message>, m: Message): Message
  {
    if w.Some? then w.value(m) else m
  }

  /** Each record read, after the read wrapper. */
  function WrapAll(w: Option<Message -> Message>, ms: seq<Message>): (r: seq<Message>)
    ensures |r| == |ms|
  {
    if ms == [] then [] else [Wrap(w, ms[0])] + WrapAll(w, ms[1..])
  }

  lemma {:induction false} WrapAllAppend(w: Option<Message -> Message>, a: seq<Message>, b: seq<Message>)
    ensures WrapAll(w, a + b) == WrapAll(w, a) + WrapAll(w, b)
  {
    if a == [] {
      assert a + b == b;
    } else {
      assert (a + b)[1..] == a[1..] + b;
      WrapAllAppend(w, a[1..], b);
    }
  }

  lemma {:induction false} WrapAllAt(w: Option<Message -> Message>, ms: seq<Message>, i: nat)
    requires i < |ms|
    ensures WrapAll(w, ms)[i] == Wrap(w, ms[i])
  {
    if i > 0 {
      WrapAllAt(w, ms[1..], i - 1);
    }
  }

  function StopError(s: Stop): Option<ChunkError>
  {
    match s
    case CleanEnd => None
    case Malformed => Some(DecodeError)
    case Mismatch(_) => Some(VersionMismatchError)
  }

  class Chunk {
    const fs: FileSystem
    const config: Config
    const mode: Mode
    var count: nat
    var md5Cached: Option<string>
    var oFh: Md5File?
    var iFh: Md5File?
    /** The Thrift buffered transport: bytes not yet flushed, and whether it
        was built over a live output handle. */
    var oTransport: Option<Transport>
    var oProtocol: bool

    /** The records this handle has added, in order. */
    ghost var added: seq<Message>
    /** What the output handle already held before this chunk wrote to it. */
    ghost const outStart: seq<Byte>
    /** Where the output handle's bytes go when it is closed. */
    ghost const outSink: Option<Sink>
    ghost var Repr: set<object>

    ghost predicate Valid()
      reads this, Repr
    {
      this in Repr && fs !in Repr &&
      (oFh != null ==>
        oFh in Repr && oFh.fh in Repr && oFh.Valid() && oFh.md5 == config.md5 &&
        oFh.fh.content == outStart + oFh.seen && oFh.fh.sink == outSink &&
        oFh.seen + Pending() == EncodeAll(config.codec, added)) &&
      (iFh != null ==> iFh in Repr && iFh.fh in Repr && iFh.Valid() && iFh.md5 == config.md5) &&
      (mode == RB <==> iFh != null) &&
      (mode == RB ==> oFh == null && added == []) &&
      (mode != RB ==> count == |added|) &&
      (config.backend == Cbor ==> oTransport.None? && !oProtocol) &&
      (oTransport.Some? ==> oProtocol) &&
      (oTransport.Some? && oTransport.value.live ==> oFh != null) &&
      (oTransport.Some? && !oTransport.value.live ==> oTransport.value.pending == []) &&
      (oFh != null && oProtocol ==> oTransport.Some? && oTransport.value.live) &&
      Progress(config.codec)
    }

    function Pending(): seq<Byte>
      reads this
    {
      if oTransport.Some? then oTransport.value.pending else []
    }

    /** `len(chunk)`. */
    function Len(): nat
      reads this
    {
      count
    }

    /** The `md5_hexdigest` property: the digest cached by `close`, else the
        live digest of the output handle, else that of the input handle. */
    function HexDigest(): (h: Option<string>)
      reads this, oFh, iFh
      ensures md5Cached.Some? && md5Cached.value != "" ==> h == md5Cached
      ensures (md5Cached.None? || md5Cached.value == "") && config.inlineMd5 && oFh != null ==> h == Some(oFh.md5(oFh.seen))
      ensures (md5Cached.None? || md5Cached.value == "") && config.inlineMd5 && oFh == null && iFh != null ==> h == Some(iFh.md5(iFh.seen))
      ensures h.None? <==> (md5Cached.None? || md5Cached.value == "") && (!config.inlineMd5 || (oFh == null && iFh == null))
    {
      if md5Cached.Some? && md5Cached.value != "" then md5Cached
      else if oFh != null && config.inlineMd5 then Some(oFh.HexDigest())
      else if iFh != null && config.inlineMd5 then Some(iFh.HexDigest())
      else None
    }

    /** The end of `__init__`: `fh` becomes the output handle for 'wb' and
        'ab' and the input handle for 'rb'. */
    constructor Init(fs: FileSystem, config: Config, mode: Mode, fh: Stream)
      requires fh.Valid() && Progress(config.codec)
      ensures Valid() && fresh(Repr - {fh}) && fh in Repr
      ensures this.fs == fs && this.config == config && this.mode == mode
      ensures count == 0 && md5Cached.None? && oTransport.None? && !oProtocol && added == []
      ensures mode != RB ==> oFh != null && oFh.fh == fh && oFh.seen == [] && iFh == null
      ensures mode != RB ==> outStart == fh.content && outSink == fh.sink
      ensures mode == RB ==> iFh != null && iFh.fh == fh && iFh.seen == [] && oFh == null
      ensures fh.content == old(fh.content) && fh.pos == old(fh.pos)
    {
      this.fs := fs;
      this.config := config;
      this.mode := mode;
      count := 0;
      md5Cached := None;
      oTransport := None;
      oProtocol := false;
      added := [];
      outStart := fh.content;
      outSink := fh.sink;
      var w := new Md5File(fh, config.md5);
      if mode == RB {
        iFh := w;
        oFh := null;
      } else {
        oFh := w;
        iFh := null;
      }
      Repr := {this, w, fh};
      new;
      assert EncodeAll(config.codec, []) == [];
    }

    /** The file object behind a path: a reader over the file's bytes as the
        handle presents them (pipes cannot seek), or a writer whose bytes go
        to the file on close, after what the file held, through the
        handle's compressor. Opening for writing creates the file. */
    static method OpenPath(fs: FileSystem, p: string, h: Handle, m: Mode, env: Environment) returns (fh: Stream)
      requires m == RB ==> p in fs.files
      modifies fs
      ensures fresh(fh) && fh.Valid() && fh.mode == HandleMode(h, NoModeAttr) && !fh.closed
      ensures m == RB ==> fh.content == ReadContent(h, old(fs.files)[p], env) && fh.pos == 0 &&
                          fs.files == old(fs.files) && fh.sink.None?
      ensures m != RB ==> fh.content == [] && fs.files == (if p in old(fs.files) then old(fs.files) else old(fs.files)[p := []]) &&
                          fh.sink == Some(Sink(p, if p in old(fs.files) then old(fs.files)[p] else [], WriteEnvelope(h, env)))
    {
      if m == RB {
        fh := new Stream(ReadContent(h, fs.files[p], env), 0, !h.XzcatPipe? && !h.GpgXzPipe?, HandleMode(h, NoModeAttr), None);
      } else {
        var prefix := if p in fs.files then fs.files[p] else [];
        fs.Touch(p);
        fh := new Stream([], 0, true, HandleMode(h, NoModeAttr), Some(Sink(p, prefix, WriteEnvelope(h, env))));
      }
    }

    /** The file object this chunk reads or writes. */
    ghost function Fh(): Stream?
      reads this
    {
      if iFh != null then iFh.fh else if oFh != null then oFh.fh else null
    }

    /** The first half of `BaseChunk.__init__`: the construction rules of
        OpenPlan, and the file object they lead to. */
    static method OpenStream(fs: FileSystem, path: Option<string>, data: Option<seq<Byte>>, fileObj: Stream?, mode: string, env: Environment)
      returns (r: Result<Opening, ChunkError>)
      requires fileObj != null ==> fileObj.Valid()
      modifies fs
      ensures var plan := OpenPlan(path, path.Some? && path.value in old(fs.files), data.Some?,
                                   if fileObj == null then None else Some(fileObj.mode), mode, env.xzModule);
              (r.Err? <==> plan.Err?) && (r.Err? ==> r.error == plan.error) &&
              (r.Ok? ==> r.value.mode == plan.value.mode)
      ensures fs.files == if CreatesFile(path, path.Some? && path.value in old(fs.files), data.Some?, fileObj != null, mode, env.xzModule)
                          then old(fs.files)[path.value := []] else old(fs.files)
      ensures r.Ok? ==> r.value.fh.Valid() && (fresh(r.value.fh) || r.value.fh == fileObj) &&
                        Opened(r.value.fh, path, data, fileObj, old(fs.files), r.value.mode, env)
    {
      var m := ParseMode(mode);
      if m.None? {
        return Err(AssertionFailed("mode not in allowed modes"));
      }
      var present := path.Some? && path.value in fs.files;
      var stage := PathStage(path, present, data.Some?, fileObj != null, m.value, env.xzModule);
      if stage.Err? {
        return Err(stage.error);
      }
      var h := stage.value;
      var fh: Stream;
      if path.Some? {
        fh := OpenPath(fs, path.value, h, m.value, env);
      } else if fileObj != null {
        fh := fileObj;
      } else {
        fh := new Stream([], 0, true, NoModeAttr, None);
      }
      var plan := BufferStage(h, data.Some?, m.value, HandleMode(h, if fileObj != null then fileObj.mode else NoModeAttr));
      if plan.Err? {
        return Err(plan.error);
      }
      if plan.value.buffer == DataBuffer {
        fh := new Stream(data.value, 0, true, NoModeAttr, None);
      } else if plan.value.buffer == AppendBuffer {
        fh := new Stream(data.value, |data.value|, true, NoModeAttr, None);
      }
      r := Ok(Opening(fh, plan.value.mode));
    }

    /** `BaseChunk.__init__`: a chunk over the file object OpenStream
        yields, with nothing counted, added, cached or buffered. */
    static method Open(fs: FileSystem, path: Option<string>, data: Option<seq<Byte>>, fileObj: Stream?, mode: string, config: Config, env: Environment)
      returns (r: Result<Chunk, ChunkError>)
      requires fileObj != null ==> fileObj.Valid()
      requires Progress(config.codec)
      modifies fs
      ensures var plan := OpenPlan(path, path.Some? && path.value in old(fs.files), data.Some?,
                                   if fileObj == null then None else Some(fileObj.mode), mode, env.xzModule);
              (r.Err? <==> plan.Err?) && (r.Err? ==> r.error == plan.error) &&
              (r.Ok? ==> r.value.mode == plan.value.mode)
      ensures fs.files == if CreatesFile(path, path.Some? && path.value in old(fs.files), data.Some?, fileObj != null, mode, env.xzModule)
                          then old(fs.files)[path.value := []] else old(fs.files)
      ensures r.Ok? ==> r.value.Valid() && fresh(r.value) && r.value.fs == fs && r.value.config == config &&
                        r.value.count == 0 && r.value.added == [] && r.value.md5Cached.None? &&
                        r.value.oTransport.None? && !r.value.oProtocol &&
                        (r.value.mode == RB <==> r.value.iFh != null) && (r.value.mode != RB <==> r.value.oFh != null) &&
                        (r.value.oFh != null ==> r.value.oFh.seen == []) && (r.value.iFh != null ==> r.value.iFh.seen == []) &&
                        fresh(r.value.Repr - {r.value, fileObj}) &&
                        Opened(r.value.Fh(), path, data, fileObj, old(fs.files), r.value.mode, env)
    {
      var o := OpenStream(fs, path, data, fileObj, mode, env);
      if o.Err? {
        return Err(o.error);
      }
      var c := new Chunk.Init(fs, config, o.value.mode, o.value.fh);
      r := Ok(c);
    }

    /** `add`: the write wrapper, then the backend's write, then the count. */
    method Add(msg: Message) returns (r: Outcome<ChunkError>)
      requires Valid()
      modifies Repr
      ensures Valid() && Repr == old(Repr)
      ensures var w := Wrap(config.writeWrapper, msg);
              (r.Pass? <==> old(oFh) != null && (config.backend == Cbor || IsInstance(config, w))) &&
              added == (if r.Pass? then old(added) + [w] else old(added))
      ensures count == if r.Pass? then old(count) + 1 else old(count)
      ensures old(oFh) == null ==> r.Fail? && r.error.AssertionFailed?
      ensures oFh == old(oFh) && iFh == old(iFh) && md5Cached == old(md5Cached)
    {
      var w := Wrap(config.writeWrapper, msg);
      if config.backend == Thrift {
        r := WriteThrift(w);
      } else {
        r := WriteCbor(w);
      }
    }

    /** The first part of `Chunk.write_msg_impl`: a buffered transport and
        a binary protocol over the output handle, built once. */
    method OpenProtocol()
      requires Valid() && config.backend == Thrift
      modifies this
      ensures Valid() && Repr == old(Repr) && oProtocol
      ensures oTransport == if old(oProtocol) then old(oTransport) else Some(Transport([], oFh != null))
      ensures oFh == old(oFh) && iFh == old(iFh) && md5Cached == old(md5Cached)
      ensures added == old(added) && count == old(count)
    {
      if !oProtocol {
        oTransport := Some(Transport([], oFh != null));
        oProtocol := true;
      }
    }

    /** `Chunk.write_msg_impl` and the count update of `add`: the protocol
        is built on first use over whatever output handle there is (possibly
        none); then the output handle must be there, the record must be of
        the chunk's class, and its encoding is buffered in the transport. */
    method WriteThrift(w: Message) returns (r: Outcome<ChunkError>)
      requires Valid() && config.backend == Thrift
      modifies this
      ensures Valid() && Repr == old(Repr)
      ensures r.Pass? <==> old(oFh) != null && IsInstance(config, w)
      ensures old(oFh) == null ==> r == Fail(AssertionFailed("cannot Chunk.add after Chunk.close"))
      ensures old(oFh) != null && !IsInstance(config, w) ==> r == Fail(VersionMismatchError)
      ensures added == (if r.Pass? then old(added) + [w] else old(added))
      ensures count == if r.Pass? then old(count) + 1 else old(count)
      ensures oProtocol
      ensures !old(oProtocol) ==> oTransport == Some(Transport(if r.Pass? then config.codec.encode(w) else [], old(oFh) != null))
      ensures old(oProtocol) && r.Fail? ==> oTransport == old(oTransport)
      ensures old(oProtocol) && r.Pass? ==>
                (old(oTransport).Some? && oTransport == Some(Transport(old(oTransport).value.pending + config.codec.encode(w), true)))
      ensures oFh == old(oFh) && iFh == old(iFh) && md5Cached == old(md5Cached)
    {
      OpenProtocol();
      if oFh == null {
        return Fail(AssertionFailed("cannot Chunk.add after Chunk.close"));
      }
      if !IsInstance(config, w) {
        return Fail(VersionMismatchError);
      }
      var e := config.codec.encode(w);
      var pending := oTransport.value.pending;
      EncodeAllAppend(config.codec, added, [w]);
      assert EncodeAll(config.codec, [w]) == e;
      assert oFh.seen + (pending + e) == EncodeAll(config.codec, added + [w]);
      assert !old(oProtocol) ==> pending + e == e;
      oTransport := Some(Transport(pending + e, true));
      added := added + [w];
      count := count + 1;
      r := Pass;
    }

    /** `CborChunk.write_msg_impl` and the count update of `add`: the
        output handle must be there, and the encoding is written through it
        at once. */
    method WriteCbor(w: Message) returns (r: Outcome<ChunkError>)
      requires Valid() && config.backend == Cbor
      modifies Repr
      ensures Valid() && Repr == old(Repr)
      ensures r.Pass? <==> old(oFh) != null
      ensures r.Fail? ==> r.error.AssertionFailed?
      ensures added == (if r.Pass? then old(added) + [w] else old(added))
      ensures count == if r.Pass? then old(count) + 1 else old(count)
      ensures r.Pass? ==> oFh != null && oFh.seen == old(oFh.seen) + config.codec.encode(w)
      ensures oFh == old(oFh) && iFh == old(iFh) && md5Cached == old(md5Cached)
    {
      if oFh == null {
        return Fail(AssertionFailed("cannot add to a CborChunk open for reading or closed"));
      }
      var e := config.codec.encode(w);
      EncodeAllAppend(config.codec, added, [w]);
      oFh.Write(e);
      added := added + [w];
      count := count + 1;
      r := Pass;
    }

    /** `close`: flush the Thrift transport (which fails with AttributeError
        when it was built with no output handle), then close the output
        handle and cache its digest. A second call does nothing. */
    method Close() returns (r: Outcome<ChunkError>)
      requires Valid()
      modifies Repr, fs
      ensures Valid() && Repr == old(Repr)
      ensures (r.Fail? <==> old(oTransport).Some? && !old(oTransport).value.live) && (r.Fail? ==> r.error == AttributeError)
      ensures r.Fail? ==> oFh == old(oFh) && oTransport == old(oTransport) && md5Cached == old(md5Cached) && fs.files == old(fs.files)
      ensures r.Pass? ==> oFh == null && oTransport.None?
      ensures r.Pass? && old(oFh) == null ==> md5Cached == old(md5Cached) && fs.files == old(fs.files)
      ensures r.Pass? && old(oFh) != null ==>
                md5Cached == (if config.inlineMd5 then Some(config.md5(EncodeAll(config.codec, added))) else old(md5Cached)) &&
                fs.files == match outSink
                            case None => old(fs.files)
                            case Some(s) => old(fs.files)[s.path := Stored(s, outStart + EncodeAll(config.codec, added))]
      ensures added == old(added) && count == old(count) && iFh == old(iFh) && oProtocol == old(oProtocol)
    {
      if oTransport.Some? {
        if !oTransport.value.live {
          return Fail(AttributeError);
        }
        oFh.Write(oTransport.value.pending);
        oTransport := None;
      }
      assert oFh != null ==> oFh.seen == EncodeAll(config.codec, added);
      if oFh != null {
        assert oFh.fh.content == outStart + EncodeAll(config.codec, added);
        oFh.Close(fs);
        assert fs.files == match outSink
                           case None => old(fs.files)
                           case Some(s) => old(fs.files)[s.path := Stored(s, outStart + EncodeAll(config.codec, added))];
        if config.inlineMd5 {
          md5Cached := Some(oFh.HexDigest());
        }
        oFh := null;
      }
      r := Pass;
    }

    /** `__iter__` consumed to the end: a Thrift chunk seeks to the start
        when it can, then records are decoded until the input ends, the
        decoder fails, or (Thrift only) a record's version differs from
        `expectedVersion`; each record read counts once. A closed input
        handle raises ValueError from its first `seek` or `read`. */
    method Iterate() returns (records: seq<Message>, error: Option<ChunkError>)
      requires Valid()
      modifies Repr
      ensures Valid() && Repr == old(Repr)
      ensures old(iFh) == null ==> records == [] && error.Some? && error.value.AssertionFailed? && count == old(count)
      ensures old(iFh) != null && old(iFh.fh.closed) ==>
                records == [] && error == Some(ValueError) && count == old(count) &&
                iFh.fh.content == old(iFh.fh.content) && iFh.fh.pos == old(iFh.fh.pos) && iFh.seen == old(iFh.seen)
      ensures old(iFh) != null && !old(iFh.fh.closed) ==>
                iFh.fh.content == old(iFh.fh.content) && iFh.fh.pos == |iFh.fh.content| &&
                var start := if config.backend == Thrift && iFh.fh.seekable then 0 else old(iFh.fh.pos);
                var input := old(iFh.fh.content)[start..];
                var d := DecodeAll(config.codec, config.message, config.expectedVersion, config.backend == Thrift, input);
                records == WrapAll(config.readWrapper, d.msgs) && error == StopError(d.stop) &&
                count == old(count) + |d.msgs| && iFh.seen == old(iFh.seen) + input
      ensures oFh == old(oFh) && iFh == old(iFh) && added == old(added) && md5Cached == old(md5Cached)
      ensures oTransport == old(oTransport) && oProtocol == old(oProtocol)
    {
      if iFh == null {
        return [], Some(AssertionFailed("cannot iterate over a Chunk open for writing"));
      }
      if iFh.fh.closed {
        return [], Some(ValueError);
      }
      if config.backend == Thrift {
        var _ := iFh.Seek0();
      }
      var input := iFh.Read(None);
      var msgs;
      msgs, records, error := ReadRecords(config.codec, config.message, config.expectedVersion, config.backend == Thrift, config.readWrapper, input);
      count := count + |msgs|;
    }
  }

  /** The records of a reading loop that has already delivered `done`. */
  function Resume(done: seq<Message>, d: Decoding): Decoding
  {
    Decoding(done + d.msgs, d.stop)
  }

  lemma DecodeEnds(c: Codec, cls: ClassName, expected: Option<int>, check: bool, b: seq<Byte>, done: seq<Message>)
    requires Progress(c)
    requires c.decode(cls, b).AtEnd? || c.decode(cls, b).Corrupt? || (check && !VersionOk(c.decode(cls, b).msg, expected))
    ensures Resume(done, DecodeAll(c, cls, expected, check, b)).msgs == done
    ensures StopError(DecodeAll(c, cls, expected, check, b).stop) ==
            if c.decode(cls, b).AtEnd? then None else if c.decode(cls, b).Corrupt? then Some(DecodeError) else Some(VersionMismatchError)
  {
    assert done + [] == done;
  }

  lemma DecodeContinues(c: Codec, cls: ClassName, expected: Option<int>, check: bool, b: seq<Byte>, done: seq<Message>)
    requires Progress(c)
    requires c.decode(cls, b).Got? && !(check && !VersionOk(c.decode(cls, b).msg, expected))
    ensures var step := c.decode(cls, b);
            Resume(done, DecodeAll(c, cls, expected, check, b)) ==
            Resume(done + [step.msg], DecodeAll(c, cls, expected, check, b[step.used..]))
  {
    var step := c.decode(cls, b);
    var next := DecodeAll(c, cls, expected, check, b[step.used..]);
    assert (done + [step.msg]) + next.msgs == done + ([step.msg] + next.msgs);
  }

  /** The reading loop of `read_msg_impl`, over the bytes the input handle
      delivers: the records decoded, the same records after the read
      wrapper, and the exception that ended the loop, if any. */
  method ReadRecords(codec: Codec, cls: ClassName, expected: Option<int>, check: bool, wrapper: Option<Message -> Message>, input: seq<Byte>)
    returns (msgs: seq<Message>, records: seq<Message>, error: Option<ChunkError>)
    requires Progress(codec)
    ensures var d := DecodeAll(codec, cls, expected, check, input);
            msgs == d.msgs && records == WrapAll(wrapper, msgs) && error == StopError(d.stop)
  {
    ghost var whole := DecodeAll(codec, cls, expected, check, input);
    var off := 0;
    msgs := [];
    records := [];
    error := None;
    while true
      invariant off <= |input|
      invariant whole == Resume(msgs, DecodeAll(codec, cls, expected, check, input[off..]))
      invariant records == WrapAll(wrapper, msgs) && error == None
      decreases |input| - off
    {
      var rest := input[off..];
      var step := codec.decode(cls, rest);
      if step.AtEnd? || step.Corrupt? || (check && !VersionOk(step.msg, expected)) {
        DecodeEnds(codec, cls, expected, check, rest, msgs);
        error := if step.AtEnd? then None else if step.Corrupt? then Some(DecodeError) else Some(VersionMismatchError);
        break;
      }
      var m := step.msg;
      DecodeContinues(codec, cls, expected, check, rest, msgs);
      assert rest[step.used..] == input[off + step.used..];
      WrapAllAppend(wrapper, msgs, [m]);
      msgs := msgs + [m];
      records := records + [Wrap(wrapper, m)];
      off := off + step.used;
    }
  }
}
