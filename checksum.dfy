/** `md5_file`: a file object wrapper that feeds every byte it reads or
    writes into a running MD5 (RFC 1321) digest. The hash itself is a
    parameter; the wrapper keeps the bytes it has seen, so its digest is
    always the hash of exactly those bytes. */
module Checksum {
  import opened Common
  import opened Streams

  type Md5 = seq<Byte> -> string

  predicate IsHexDigest(s: string)
  {
    |s| == 32 && forall i :: 0 <= i < |s| ==> s[i] in "0123456789abcdef"
  }

  /** What any MD5 implementation gives: 32 lower-case hex digits. */
  ghost predicate Md5Law(md5: Md5)
  {
    forall b :: IsHexDigest(md5(b))
  }

  datatype ReadError = EOFError

  /** A line ends at a newline byte. */
  predicate Ended(line: seq<Byte>)
  {
    |line| > 0 && line[|line| - 1] == 10
  }

  /** Lines as `readline` cuts them: each non-empty, with no newline before
      its last byte, and every line but the last one ended. */
  predicate LinesShaped(lines: seq<seq<Byte>>)
  {
    forall k :: 0 <= k < |lines| ==>
      |lines[k]| > 0 && (forall i :: 0 <= i < |lines[k]| - 1 ==> lines[k][i] != 10) &&
      (k < |lines| - 1 ==> Ended(lines[k]))
  }

  /** The length of the first line of `r`: up to and including the first
      newline, or all of `r`. */
  function FirstLineLength(r: seq<Byte>): (n: nat)
    requires r != []
    ensures 0 < n <= |r|
  {
    if r[0] == 10 || |r| == 1 then 1 else 1 + FirstLineLength(r[1..])
  }

  /** The first line holds no newline before its last byte, and ends in one
      unless it takes all of `r`. */
  lemma {:induction false} FirstLineEnds(r: seq<Byte>)
    requires r != []
    ensures forall i :: 0 <= i < FirstLineLength(r) - 1 ==> r[i] != 10
    ensures FirstLineLength(r) < |r| ==> r[FirstLineLength(r) - 1] == 10
    decreases |r|
  {
    if r[0] != 10 && |r| != 1 {
      FirstLineEnds(r[1..]);
      forall i | 0 <= i < FirstLineLength(r) - 1
        ensures r[i] != 10
      {
        if i > 0 {
          assert r[i] == r[1..][i - 1];
        }
      }
    }
  }

  /** `r` cut into lines the way iterating over a file object cuts it. */
  function LinesOf(r: seq<Byte>): seq<seq<Byte>>
    decreases |r|
  {
    if r == [] then [] else
      var n := FirstLineLength(r);
      [r[..n]] + LinesOf(r[n..])
  }

  /** The lines cover the input exactly. */
  lemma {:induction false} LinesOfFlatten(r: seq<Byte>)
    ensures Flatten(LinesOf(r)) == r
    decreases |r|
  {
    if r != [] {
      var n := FirstLineLength(r);
      var rest := LinesOf(r[n..]);
      LinesOfFlatten(r[n..]);
      assert LinesOf(r) == [r[..n]] + rest;
      assert ([r[..n]] + rest)[1..] == rest;
      assert Flatten(LinesOf(r)) == r[..n] + Flatten(rest);
      assert r[..n] + r[n..] == r;
    }
  }

  /** Every line is non-empty, holds no newline before its end, and all but
      the last end in one. */
  lemma {:induction false} LinesOfShaped(r: seq<Byte>)
    ensures LinesShaped(LinesOf(r))
    decreases |r|
  {
    if r != [] {
      var n := FirstLineLength(r);
      var rest := LinesOf(r[n..]);
      FirstLineEnds(r);
      LinesOfShaped(r[n..]);
      assert LinesOf(r) == [r[..n]] + rest;
      if rest != [] {
        assert n < |r|;
      }
    }
  }

  /** A line `readline` returns from `r` is the first of its lines. */
  lemma LinesOfStep(r: seq<Byte>, line: seq<Byte>)
    requires 0 < |line| <= |r| && line == r[..|line|]
    requires forall i :: 0 <= i < |line| - 1 ==> line[i] != 10
    requires |line| < |r| ==> line[|line| - 1] == 10
    ensures LinesOf(r) == [line] + LinesOf(r[|line|..])
  {
    FirstLineIs(r, |line|);
  }

  /** The first line is the only cut that ends at a newline or at the end,
      with no newline before it. */
  lemma {:induction false} FirstLineIs(r: seq<Byte>, m: nat)
    requires 0 < m <= |r|
    requires forall i :: 0 <= i < m - 1 ==> r[i] != 10
    requires m < |r| ==> r[m - 1] == 10
    ensures FirstLineLength(r) == m
  {
    if r[0] != 10 && |r| != 1 {
      assert 1 < m;
      FirstLineIs(r[1..], m - 1);
    }
  }

  class Md5File {
    const fh: Stream
    const md5: Md5
    /** Every byte read through or written through this wrapper, in order. */
    var seen: seq<Byte>

    ghost predicate Valid()
      reads this, fh
    {
      fh.Valid()
    }

    constructor (fh: Stream, md5: Md5)
      requires fh.Valid()
      ensures Valid() && this.fh == fh && this.md5 == md5 && seen == []
    {
      this.fh := fh;
      this.md5 := md5;
      seen := [];
    }

    /** The `md5_hexdigest` property. */
    function HexDigest(): string
      reads this
    {
      md5(seen)
    }

    method Read(limit: Option<nat>) returns (data: seq<Byte>)
      requires Valid()
      modifies this, fh
      ensures Valid() && fh.content == old(fh.content) && fh.closed == old(fh.closed)
      ensures fh.pos == old(fh.pos) + |data| && data == old(fh.Remaining())[..|data|]
      ensures limit.None? ==> data == old(fh.Remaining())
      ensures limit.Some? ==> |data| <= limit.value
      ensures limit.Some? && 0 < limit.value && old(fh.pos) < |fh.content| ==> 0 < |data|
      ensures seen == old(seen) + data
    {
      data := fh.Read(limit);
      seen := seen + data;
    }

    method ReadLine() returns (line: seq<Byte>)
      requires Valid()
      modifies this, fh
      ensures Valid() && fh.content == old(fh.content) && fh.closed == old(fh.closed)
      ensures fh.pos == old(fh.pos) + |line| && line == old(fh.Remaining())[..|line|]
      ensures forall i :: 0 <= i < |line| - 1 ==> line[i] != 10
      ensures |line| < |old(fh.Remaining())| ==> 0 < |line| && line[|line| - 1] == 10
      ensures seen == old(seen) + line
    {
      line := fh.ReadLine();
      seen := seen + line;
    }

    /** One step of `__iter__`: the next line of the underlying handle,
        empty at its end, fed to the digest. */
    method NextLine() returns (line: seq<Byte>)
      requires Valid()
      modifies this, fh
      ensures Valid() && fh.content == old(fh.content) && fh.closed == old(fh.closed)
      ensures line == [] <==> old(fh.pos) == |fh.content|
      ensures old(fh.Remaining()) == line + fh.Remaining()
      ensures LinesOf(old(fh.Remaining())) == if line == [] then [] else [line] + LinesOf(fh.Remaining())
      ensures seen == old(seen) + line
    {
      ghost var rest := fh.Remaining();
      line := fh.ReadLine();
      if line != [] {
        assert rest[|line|..] == fh.Remaining();
        assert rest == line + fh.Remaining();
        LinesOfStep(rest, line);
      }
      seen := seen + line;
    }

    /** `__iter__`: the lines of the underlying handle, each fed to the
        digest as it is delivered. */
    method Lines() returns (lines: seq<seq<Byte>>)
      requires Valid()
      modifies this, fh
      ensures Valid() && fh.content == old(fh.content) && fh.closed == old(fh.closed)
      ensures fh.pos == |fh.content|
      ensures lines == LinesOf(old(fh.Remaining()))
      ensures seen == old(seen) + old(fh.Remaining())
    {
      lines := [];
      ghost var whole := fh.Remaining();
      ghost var seen0 := seen;
      while true
        invariant Valid() && fh.content == old(fh.content) && fh.closed == old(fh.closed)
        invariant LinesOf(whole) == lines + LinesOf(fh.Remaining())
        invariant seen0 + whole == seen + fh.Remaining()
        decreases |fh.Remaining()|
      {
        ghost var rest := fh.Remaining();
        var line := NextLine();
        if line == [] {
          assert lines + [] == lines;
          return;
        }
        assert lines + ([line] + LinesOf(fh.Remaining())) == (lines + [line]) + LinesOf(fh.Remaining());
        lines := lines + [line];
      }
    }

    method Write(data: seq<Byte>)
      requires Valid()
      modifies this, fh
      ensures Valid() && fh.content == old(fh.content) + data && fh.pos == |fh.content|
      ensures fh.closed == old(fh.closed)
      ensures seen == old(seen) + data
    {
      seen := seen + data;
      fh.Write(data);
    }

    /** `readAll(sz)`: exactly `sz` bytes, or EOFError once an underlying read
        comes back empty, by which time all that was left has been read. */
    method ReadAll(sz: nat) returns (r: Result<seq<Byte>, ReadError>)
      requires Valid()
      modifies this, fh
      ensures Valid() && fh.content == old(fh.content) && fh.closed == old(fh.closed)
      ensures r.Ok? <==> sz <= |old(fh.Remaining())|
      ensures r.Ok? ==> r.value == old(fh.Remaining())[..sz] && fh.pos == old(fh.pos) + sz
      ensures r.Err? ==> fh.pos == |fh.content|
      ensures seen == old(seen) + old(fh.Remaining())[..fh.pos - old(fh.pos)]
    {
      var buff: seq<Byte> := [];
      var have: nat := 0;
      while have < sz
        invariant Valid() && fh.content == old(fh.content) && fh.closed == old(fh.closed)
        invariant have <= sz && fh.pos == old(fh.pos) + have
        invariant buff == old(fh.Remaining())[..have]
        invariant seen == old(seen) + buff
        decreases sz - have
      {
        var chunk := Read(Some(sz - have));
        have := have + |chunk|;
        buff := buff + chunk;
        if |chunk| == 0 {
          return Err(EOFError);
        }
      }
      r := Ok(buff);
    }

    method Seek0() returns (ok: bool)
      requires Valid()
      modifies fh
      ensures Valid() && fh.content == old(fh.content) && fh.closed == old(fh.closed)
      ensures ok == fh.seekable && fh.pos == if ok then 0 else old(fh.pos)
    {
      ok := fh.Seek0();
    }

    method Close(fs: FileSystem)
      requires Valid()
      modifies fh, fs
      ensures Valid() && fh.content == old(fh.content) && fh.pos == old(fh.pos) && fh.closed
      ensures fs.files == match fh.sink
                          case None => old(fs.files)
                          case Some(s) => old(fs.files)[s.path := Stored(s, fh.content)]
    {
      fh.Close(fs);
    }
  }

  /** Writing through a fresh wrapper: the digest is the hash of what was
      written, and the handle holds exactly those bytes after what it held. */
  method WriteThenDigest(fh: Stream, md5: Md5, parts: seq<seq<Byte>>) returns (digest: string)
    requires fh.Valid()
    modifies fh
    ensures fh.Valid() && fh.content == old(fh.content) + Flatten(parts)
    ensures digest == md5(Flatten(parts))
  {
    var w := new Md5File(fh, md5);
    var i := 0;
    while i < |parts|
      invariant 0 <= i <= |parts|
      invariant w.Valid() && w.fh == fh && w.md5 == md5
      invariant w.seen == Flatten(parts[..i])
      invariant fh.content == old(fh.content) + Flatten(parts[..i])
    {
      FlattenAppend(parts[..i], [parts[i]]);
      assert parts[..i + 1] == parts[..i] + [parts[i]];
      assert Flatten([parts[i]]) == parts[i];
      w.Write(parts[i]);
      i := i + 1;
    }
    assert parts[..i] == parts;
    digest := w.HexDigest();
  }
}
