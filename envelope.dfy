/** The byte envelope around chunk files: `compress_and_encrypt` and
    `decrypt_and_uncompress` without their gpg steps. The compressors are
    parameters; what is modelled is the choice of scheme, by name and by
    the magic bytes at the head of the data. */
module Envelope {
  import opened Common

  datatype Scheme = Xz | Snappy | Gzip

  /** Compressors and decompressors of the three formats, as byte functions. */
  datatype Compressors = Compressors(
    xzCompress: seq<Byte> -> seq<Byte>, xzDecompress: seq<Byte> -> seq<Byte>,
    snappyCompress: seq<Byte> -> seq<Byte>, snappyDecompress: seq<Byte> -> seq<Byte>,
    gzipCompress: seq<Byte> -> seq<Byte>, gzipDecompress: seq<Byte> -> seq<Byte>)

  /** Header magic of an .xz stream, section 2.1.1.1 of the .xz file format. */
  const XzHeaderMagic: seq<Byte> := [0xFD, 0x37, 0x7A, 0x58, 0x5A, 0x00]
  /** Stream identifier chunk of the Snappy framing format, section 4.1. */
  const SnappyStreamIdentifier: seq<Byte> := [0xFF, 0x06, 0x00, 0x00, 0x73, 0x4E, 0x61, 0x50, 0x70, 0x59]
  /** ID1, ID2 and CM (deflate) of a gzip member, section 2.3.1 of RFC 1952. */
  const GzipDeflateMagic: seq<Byte> := [0x1F, 0x8B, 0x08]

  /** What the three formats promise: each decompressor undoes its
      compressor, and each compressor's output starts with its format's
      header. A gzip header is ten bytes long and its XFL byte (offset 8) is
      0, 2 or 4. */
  ghost predicate CompressorLaws(k: Compressors)
  {
    (forall x :: k.xzDecompress(k.xzCompress(x)) == x && StartsWith(k.xzCompress(x), XzHeaderMagic)) &&
    (forall x :: k.snappyDecompress(k.snappyCompress(x)) == x && StartsWith(k.snappyCompress(x), SnappyStreamIdentifier)) &&
    (forall x :: k.gzipDecompress(k.gzipCompress(x)) == x && StartsWith(k.gzipCompress(x), GzipDeflateMagic) &&
                 |k.gzipCompress(x)| >= 10 && k.gzipCompress(x)[8] in {0, 2, 4})
  }

  /** The magic-string tests, in the order the code applies them: bytes 1-4
      spell '7zXZ', else bytes 4-9 spell 'sNaPpY', else bytes 0-2 are
      1f 8b 08. Short data fails a test, as a short Python slice does. */
  function Sniff(data: seq<Byte>): (r: Option<Scheme>)
    ensures r == Some(Xz) <==> PySlice(data, Some(1), Some(5)) == Ascii("7zXZ")
    ensures r == Some(Snappy) <==> PySlice(data, Some(1), Some(5)) != Ascii("7zXZ") &&
                                   PySlice(data, Some(4), Some(10)) == Ascii("sNaPpY")
    ensures r == Some(Gzip) <==> PySlice(data, Some(1), Some(5)) != Ascii("7zXZ") &&
                                 PySlice(data, Some(4), Some(10)) != Ascii("sNaPpY") &&
                                 PySlice(data, Some(0), Some(3)) == GzipDeflateMagic
    ensures r.None? <==> PySlice(data, Some(1), Some(5)) != Ascii("7zXZ") &&
                         PySlice(data, Some(4), Some(10)) != Ascii("sNaPpY") &&
                         PySlice(data, Some(0), Some(3)) != GzipDeflateMagic
    ensures r == Some(Gzip) ==> StartsWith(data, GzipDeflateMagic)
    ensures r == Some(Snappy) ==> |data| >= 10 && data[4..10] == Ascii("sNaPpY")
  {
    if PySlice(data, Some(1), Some(5)) == Ascii("7zXZ") then Some(Xz)
    else if PySlice(data, Some(4), Some(10)) == Ascii("sNaPpY") then Some(Snappy)
    else if PySlice(data, Some(0), Some(3)) == GzipDeflateMagic then Some(Gzip)
    else None
  }

  function Decompress(k: Compressors, s: Scheme, data: seq<Byte>): seq<Byte>
  {
    match s
    case Xz => k.xzDecompress(data)
    case Snappy => k.snappyDecompress(data)
    case Gzip => k.gzipDecompress(data)
  }

  function Compress(k: Compressors, s: Scheme, data: seq<Byte>): seq<Byte>
  {
    match s
    case Xz => k.xzCompress(data)
    case Snappy => k.snappyCompress(data)
    case Gzip => k.gzipCompress(data)
  }

  /** The scheme a configured name selects; '' and None select none, and so
      does any other name when reading. */
  function NamedScheme(name: Option<string>): Option<Scheme>
  {
    if name == Some("xz") then Some(Xz)
    else if name == Some("sz") then Some(Snappy)
    else if name == Some("gz") then Some(Gzip)
    else None
  }

  datatype Unwrapped = Unwrapped(logs: seq<string>, data: Option<seq<Byte>>)

  /** `decrypt_and_uncompress(data, compression=..., detect_compression=...)`
      without a private key. */
  function DecryptAndUncompress(k: Compressors, data: seq<Byte>, compression: Option<string>, detect: bool): (r: Unwrapped)
    ensures data == [] <==> r == Unwrapped(["no data"], None)
    ensures data != [] ==> r.logs == [] && r.data.Some?
    ensures data != [] && detect && Sniff(data).Some? ==> r.data == Some(Decompress(k, Sniff(data).value, data))
    ensures data != [] && (!detect || Sniff(data).None?) && NamedScheme(compression).None? ==> r.data == Some(data)
    ensures data != [] && (!detect || Sniff(data).None?) && NamedScheme(compression).Some? ==>
              r.data == Some(Decompress(k, NamedScheme(compression).value, data))
  {
    if data == [] then Unwrapped(["no data"], None)
    else
      var sniffed := if detect then Sniff(data) else None;
      var scheme := if sniffed.Some? then sniffed else NamedScheme(compression);
      Unwrapped([], Some(if scheme.Some? then Decompress(k, scheme.value, data) else data))
  }

  datatype SchemeError = UnknownScheme(name: Option<string>)

  /** `compress_and_encrypt(data, compression=...)` without a public key:
      only 'xz', 'sz', 'gz' and '' are accepted, so None is refused. */
  function CompressAndEncrypt(k: Compressors, data: seq<Byte>, compression: Option<string>): (r: Result<seq<Byte>, SchemeError>)
    ensures r.Err? <==> compression !in {Some("xz"), Some("sz"), Some("gz"), Some("")}
    ensures compression == Some("") ==> r == Ok(data)
    ensures r.Ok? && NamedScheme(compression).Some? ==> r.value == Compress(k, NamedScheme(compression).value, data)
  {
    if compression !in {Some("xz"), Some("sz"), Some("gz"), Some("")} then Err(UnknownScheme(compression))
    else if compression == Some("") then Ok(data)
    else Ok(Compress(k, NamedScheme(compression).value, data))
  }

  /** The three magic tests never pick the wrong format for a header that
      the format defines. */
  lemma XzHeaderIsSniffed(data: seq<Byte>)
    requires StartsWith(data, XzHeaderMagic)
    ensures Sniff(data) == Some(Xz)
  {
    assert data[1..5] == XzHeaderMagic[1..5];
  }

  lemma SnappyIdentifierIsSniffed(data: seq<Byte>)
    requires StartsWith(data, SnappyStreamIdentifier)
    ensures Sniff(data) == Some(Snappy)
  {
    assert data[1..5] == SnappyStreamIdentifier[1..5];
    assert data[4..10] == SnappyStreamIdentifier[4..10];
  }

  lemma GzipHeaderIsSniffed(data: seq<Byte>)
    requires StartsWith(data, GzipDeflateMagic) && |data| >= 10 && data[8] in {0, 2, 4}
    ensures Sniff(data) == Some(Gzip)
  {
    assert data[1] == 0x8B;
    assert data[8] != Ascii("sNaPpY")[4];
    assert data[0..3] == GzipDeflateMagic;
  }

  /** Compressing with a named scheme and reading back with the same name
      gives the data back, whether or not detection is on. */
  lemma CompressedRoundTrip(k: Compressors, data: seq<Byte>, name: string, detect: bool)
    requires CompressorLaws(k)
    requires name in {"xz", "sz", "gz"}
    ensures CompressAndEncrypt(k, data, Some(name)).Ok?
    ensures DecryptAndUncompress(k, CompressAndEncrypt(k, data, Some(name)).value, Some(name), detect).data == Some(data)
  {
    var z := CompressAndEncrypt(k, data, Some(name)).value;
    if name == "xz" {
      XzHeaderIsSniffed(z);
    } else if name == "sz" {
      SnappyIdentifierIsSniffed(z);
    } else {
      GzipHeaderIsSniffed(z);
    }
  }

  /** Uncompressed data survives the round trip exactly when it is not
      empty and detection does not mistake it for a compressed format. */
  lemma RawRoundTrip(k: Compressors, data: seq<Byte>, detect: bool)
    requires data != [] && (!detect || Sniff(data).None?)
    ensures CompressAndEncrypt(k, data, Some("")) == Ok(data)
    ensures DecryptAndUncompress(k, data, Some(""), detect).data == Some(data)
  {
  }

  /** Raw data that happens to start like a gzip member is decompressed on
      the way back even though it was stored under the '' scheme. */
  lemma RawGzipLookalike(k: Compressors)
    ensures var d: seq<Byte> := [0x1F, 0x8B, 0x08, 0x00];
            DecryptAndUncompress(k, d, Some(""), true).data == Some(k.gzipDecompress(d))
  {
    var d: seq<Byte> := [0x1F, 0x8B, 0x08, 0x00];
    assert PySlice(d, Some(0), Some(3)) == GzipDeflateMagic;
    assert PySlice(d, Some(1), Some(5)) != Ascii("7zXZ");
  }
}
