/** The environment the chunk code talks to: a file system that maps paths to
    their bytes, and Python file objects (plain files, compressed files,
    pipes and in-memory buffers) reduced to the content they hold, a read
    position, and where their bytes end up when they are closed. */
module Streams {
  import opened Common

  /** What a file object answers to `.mode`: no such attribute (an xz file),
      a string such as 'rb', or the integer code a gzip file uses. */
  datatype ModeAttr = NoModeAttr | TextMode(text: string) | IntMode(code: int)

  /** How written bytes are stored when the handle is closed. */
  datatype Envelope = Plain | Compressed(compress: seq<Byte> -> seq<Byte>)

  /** The file a writable handle flushes to: written bytes follow `prefix`
      (the earlier content of a file opened for appending). */
  datatype Sink = Sink(path: string, prefix: seq<Byte>, envelope: Envelope)

  function Stored(s: Sink, written: seq<Byte>): seq<Byte>
  {
    s.prefix + match s.envelope
               case Plain => written
               case Compressed(compress) => compress(written)
  }

  /** Equalities between directory states, each proved once so that the
      methods using them do not have to compare maps point by point. */
  lemma DropUpdated(files: map<string, seq<Byte>>, p: string, v: seq<Byte>)
    ensures files[p := v] - {p} == files - {p}
  {
  }

  lemma UpdateDropped(files: map<string, seq<Byte>>, p: string, v: seq<Byte>)
    ensures (files - {p})[p := v] == files[p := v]
  {
  }

  lemma DropAbsent(files: map<string, seq<Byte>>, p: string)
    requires p !in files
    ensures files - {p} == files
  {
  }

  lemma UpdateTwice(files: map<string, seq<Byte>>, p: string, v: seq<Byte>, w: seq<Byte>)
    ensures files[p := v][p := w] == files[p := w]
  {
  }

  /** The directory tree, reduced to the files it holds. */
  class FileSystem {
    var files: map<string, seq<Byte>>

    constructor (files: map<string, seq<Byte>>)
      ensures this.files == files
    {
      this.files := files;
    }

    /** `os.remove(path)` of an existing file. */
    method Remove(path: string)
      requires path in files
      modifies this
      ensures files == old(files) - {path}
    {
      files := files - {path};
    }

    /** `os.rename(src, dst)`: overwrites `dst`, `src` disappears. */
    method Rename(src: string, dst: string)
      requires src in files
      modifies this
      ensures files == (old(files) - {src})[dst := old(files)[src]]
    {
      files := (files - {src})[dst := files[src]];
    }

    /** Creating a file by opening it for writing leaves an existing one
        alone and adds an empty one otherwise. */
    method Touch(path: string)
      modifies this
      ensures files == if path in old(files) then old(files) else old(files)[path := []]
    {
      if path !in files {
        files := files[path := []];
      }
    }
  }

  /** A Python file object. Reads take from `content[pos..]`; writes append. */
  class Stream {
    var content: seq<Byte>
    var pos: nat
    var closed: bool
    const seekable: bool
    const mode: ModeAttr
    const sink: Option<Sink>

    ghost predicate Valid()
      reads this
    {
      pos <= |content|
    }

    function Remaining(): seq<Byte>
      reads this
      requires Valid()
    {
      content[pos..]
    }

    constructor (content: seq<Byte>, pos: nat, seekable: bool, mode: ModeAttr, sink: Option<Sink>)
      requires pos <= |content|
      ensures Valid()
      ensures this.content == content && this.pos == pos && !closed
      ensures this.seekable == seekable && this.mode == mode && this.sink == sink
    {
      this.content := content;
      this.pos := pos;
      this.closed := false;
      this.seekable := seekable;
      this.mode := mode;
      this.sink := sink;
    }

    /** `read()` (limit None) or `read(n)`. A bounded read may return fewer
        bytes than asked, but returns nothing only at the end of the data. */
    method Read(limit: Option<nat>) returns (data: seq<Byte>)
      requires Valid()
      modifies this
      ensures Valid() && content == old(content) && closed == old(closed)
      ensures pos == old(pos) + |data|
      ensures data == old(Remaining())[..|data|]
      ensures limit.None? ==> data == old(Remaining())
      ensures limit.Some? ==> |data| <= limit.value
      ensures limit.Some? && 0 < limit.value && old(pos) < |content| ==> 0 < |data|
    {
      var n := |content| - pos;
      if limit.Some? && limit.value < n {
        n := limit.value;
      }
      data := content[pos..pos + n];
      pos := pos + n;
    }

    /** `readline()`: up to and including the next newline, or the rest. */
    method ReadLine() returns (line: seq<Byte>)
      requires Valid()
      modifies this
      ensures Valid() && content == old(content) && closed == old(closed)
      ensures pos == old(pos) + |line|
      ensures line == old(Remaining())[..|line|]
      ensures forall i :: 0 <= i < |line| - 1 ==> line[i] != 10
      ensures |line| < |old(Remaining())| ==> 0 < |line| && line[|line| - 1] == 10
    {
      var i := pos;
      while i < |content| && content[i] != 10
        invariant pos <= i <= |content|
        invariant forall k :: pos <= k < i ==> content[k] != 10
      {
        i := i + 1;
      }
      if i < |content| {
        i := i + 1;
      }
      line := content[pos..i];
      pos := i;
    }

    method Write(data: seq<Byte>)
      requires Valid()
      modifies this
      ensures Valid() && content == old(content) + data && pos == |content|
      ensures closed == old(closed)
    {
      content := content + data;
      pos := |content|;
    }

    /** `seek(0)`; False where the handle (a pipe) cannot seek. */
    method Seek0() returns (ok: bool)
      requires Valid()
      modifies this
      ensures Valid() && content == old(content) && closed == old(closed)
      ensures ok == seekable
      ensures pos == if ok then 0 else old(pos)
    {
      ok := seekable;
      if ok {
        pos := 0;
      }
    }

    /** `close()`: what was written reaches the file behind the handle. */
    method Close(fs: FileSystem)
      requires Valid()
      modifies this, fs
      ensures Valid() && content == old(content) && pos == old(pos) && closed
      ensures fs.files == match sink
                          case None => old(fs.files)
                          case Some(s) => old(fs.files)[s.path := Stored(s, content)]
    {
      closed := true;
      if sink.Some? {
        fs.files := fs.files[sink.value.path := Stored(sink.value, content)];
      }
    }
  }
}
