# streamcorpus core, modelled in Dafny

streamcorpus stores records of a web corpus (`StreamItem`s and their
annotations) in *chunks*: flat files of records written one after the
other, usually xz-compressed and sometimes gpg-encrypted. This project
models the Python package's core and proves properties of the model. The
core is:

- the chunk container engine (`BaseChunk`, the Thrift `Chunk` and the
  CBOR writer the roller uses). It covers the construction rules by path,
  data, file object and mode, the record count, the idempotent `close`
  that caches an MD5 digest, the digest accessor, the type check on write
  and the version check on read;
- `md5_file`, the file wrapper that digests every byte read or written;
- `parse_file_extensions`, the `<name>[.fc|.sc][.xz|.gz|.sz][.gpg]` suffix
  grammar;
- the magic-byte sniffing in `decrypt_and_uncompress` and the scheme check
  in `compress_and_encrypt`;
- `ChunkRoller`, which batches records into files of at most `chunk_max`
  records, written under a temporary name and renamed to
  `<count>-<md5>.<ext>.xz`;
- `XpathRange`: the xpath string algebra and the slicing of text between
  two text nodes of an element tree;
- the record helpers `get_date_hour`, `get_epoch_ticks_for_date_hour`,
  `make_stream_item`, `add_annotation` and `get_entity_type`;
- the older `sentences()` parser of OWPL NER tagging;
- the older, Thrift-only `Chunk`.

Modules, one per source component:

- `common.dfy` (`Common`): bytes, `Option`/`Result`/`Outcome`, and the
  Python string operations the core relies on (`split`, `join`,
  `replace`, `int`, `'%d'`, slicing).
- `streams.dfy` (`Streams`): a directory as a map from path to bytes
  (`FileSystem`), and a file object (`Stream`) with a position, a
  seekable flag, a `mode` attribute and the file its bytes reach on close.
- `checksum.dfy` (`Checksum`): `md5_file` as a class `Md5File` whose
  `seen` field holds every byte read or written. MD5 is a function
  parameter; `Md5Law` says only that it yields 32 lower-case hex digits.
- `records.dfy` (`Records`): records, and an abstract codec with its laws
  (progress, round trip, empty input is the end); `EncodeAll` and
  `DecodeAll` for record streams.
- `envelope.dfy` (`Envelope`): compression sniffing and dispatch, with the
  compressors as function parameters.
- `extensions.dfy` (`FileExtensions`): the suffix regular expression with
  its lazy prefix, `$` and newline behaviour.
- `chunk.dfy` (`ChunkEngine`): the construction rules as pure functions,
  and the class `Chunk` whose fields are those of `BaseChunk` and `Chunk`.
- `chunk_scenarios.dfy` (`ChunkScenarios`): whole write, append and read
  sessions on plain files.
- `chunk_roller.dfy` (`Roller`): the class `ChunkRoller` over the chunk
  class and the directory map.
- `xpath.dfy` (`Xpath`): xpath strings, an element tree with `text`,
  `tail` and children, and xpath lookup as an abstract `Document`.
- `package_globals.dfy` (`RecordHelpers`): the record helpers;
  `add_annotation` works in place on a class `Annotated`.
- `sentences.dfy` (`OwplTagging`): `sentences()` as a method with its
  loop, specified by a pure grouping function.
- `legacy_chunk.dfy` (`LegacyChunk`): the older `Chunk` as a class over a
  `StringIO` buffer model.

Where the code and its documentation disagree, the model follows the code:

- `decrypt_and_uncompress` with a compression name other than 'xz', 'sz',
  'gz', '' or None returns the data unchanged rather than failing.
- `compress_and_encrypt` refuses None, because its accepted set is
  {'xz', 'sz', 'gz', ''}. Its later `compression is None` branch cannot be
  reached.
- A truncated record at the end of a chunk ends iteration quietly,
  because the Thrift reader raises EOFError for it.
- Opening a new `.gz` path in mode 'ab' fails the file object mode
  assertion: the gzip file object reports the integer mode 2, which reads
  as 'w'.
- If the first `add` of a roller fails after it opened its chunk, that
  chunk has length 0, so a later `close` leaves it alone.
- `add_annotation` does not raise for an annotator whose `annotator_id`
  is None; only a missing `annotator` raises.
- `sentences()` gives every token of one sentence the same
  `token_number`: the count of token lines up to the end of that
  sentence, read when the sentence is yielded.

## Model

| member | source | states |
|---|---|---|
| Checksum.Md5File.constructor | py/src/streamcorpus/_chunk.py:93-105 | A new wrapper over a handle has digested nothing yet. |
| Checksum.Md5File.Read | py/src/streamcorpus/_chunk.py:107-110 | The bytes come through unchanged: the next bytes of the handle, all that remain for `read()`, at most n for `read(n)`, and none only at the end. Exactly those bytes are added to the digested bytes. |
| Checksum.Md5File.ReadLine | py/src/streamcorpus/_chunk.py:112-115 | The next line of the handle comes through unchanged: no newline before its end, and ending in one unless it is the rest of the data. It is added to the digested bytes. |
| Checksum.FirstLineLength | py/src/streamcorpus/_chunk.py:112-115 | The line `readline` cuts from non-empty data is non-empty and no longer than the data. |
| Checksum.FirstLineEnds | py/src/streamcorpus/_chunk.py:112-115 | That line has no newline before its last byte, and ends in one unless it takes all the data. |
| Checksum.FirstLineIs | py/src/streamcorpus/_chunk.py:112-115 | Any cut with those two properties is the line `readline` returns. |
| Checksum.Md5File.NextLine | py/src/streamcorpus/_chunk.py:117-120 | One step of iteration: an empty result exactly at the end, and otherwise the first of the lines of what remained. The line is added to the digested bytes. |
| Checksum.Md5File.Lines | py/src/streamcorpus/_chunk.py:117-120 | Iterating yields exactly the lines of the rest of the handle and digests all of those bytes. |
| Checksum.LinesOfFlatten | py/src/streamcorpus/_chunk.py:117-120 | The lines iteration yields, joined, are exactly the bytes that remained. |
| Checksum.LinesOfShaped | py/src/streamcorpus/_chunk.py:117-120 | Each line yielded is non-empty, has no newline before its end, and all but the last end in a newline. |
| Checksum.LinesOfStep | py/src/streamcorpus/_chunk.py:112-120 | A line as `readline` cuts it is the first of the iteration lines, and the rest follow it. |
| Checksum.Md5File.Write | py/src/streamcorpus/_chunk.py:122-124 | The bytes reach the handle unchanged and are added to the digested bytes. |
| Checksum.Md5File.ReadAll | py/src/streamcorpus/_chunk.py:127-144 | `readAll(sz)` succeeds exactly when `sz` bytes remain, and then returns those bytes. Otherwise it raises EOFError with the handle at its end. Either way every byte it read is digested. |
| Checksum.Md5File.Seek0 | py/src/streamcorpus/_chunk.py:98-99 | The wrapper's `seek` is the handle's: position 0 when the handle can seek, an error otherwise. The digest is not reset. |
| Checksum.Md5File.Close | py/src/streamcorpus/_chunk.py:104-105 | The wrapper's `close` is the handle's: the bytes written reach the file behind it. |
| Checksum.WriteThenDigest | src/python/src/streamcorpus/test_md5.py:20-25 | Writing parts through a fresh wrapper: the hex digest is the MD5 of exactly those bytes, and the handle holds them after what it held. |
| Records.EncodeAllAppend | py/src/streamcorpus/_chunk.py:416-424 | The bytes of records written one after another split at any record boundary. |
| Records.DecodeAll | py/src/streamcorpus/_chunk.py:459-478 | With the version check on, every record delivered has the expected version. |
| Records.DecodeEncodeAll | py/src/streamcorpus/_chunk.py:416-478 | Reading back the bytes of written records of the chunk's class and version gives exactly those records, ending cleanly. |
| Records.DecodeStopsAtMismatch | py/src/streamcorpus/_chunk.py:466-472 | The first record with a different version stops the loop with VersionMismatchError; the records before it are delivered and none after it. |
| Envelope.Sniff | py/src/streamcorpus/_chunk.py:575-587 | The tests are applied in order, each only when the earlier ones fail: xz exactly when bytes 1-4 are '7zXZ'; snappy exactly when they are not and bytes 4-9 are 'sNaPpY'; gzip exactly when neither holds and the data starts 1f 8b 08; None exactly when no test matches. |
| Envelope.DecryptAndUncompress | py/src/streamcorpus/_chunk.py:531-601 | Empty data gives (['no data'], None), and that is the only failure. A sniffed format is decompressed whatever name was configured. Without a sniffed format, the scheme that 'xz', 'sz' or 'gz' names is applied, and a name that selects no scheme returns the data unchanged. |
| Envelope.CompressAndEncrypt | py/src/streamcorpus/_chunk.py:683-701 | Fails exactly for a scheme outside {'xz', 'sz', 'gz', ''}, None included. '' returns the data unchanged, and a named scheme applies its compressor. |
| Envelope.XzHeaderIsSniffed | py/src/streamcorpus/_chunk.py:575-577 | Data that starts with the xz header magic bytes (section 2.1.1.1 of the .xz file format) is sniffed as xz. |
| Envelope.SnappyIdentifierIsSniffed | py/src/streamcorpus/_chunk.py:575-580 | Data that starts with the Snappy framing stream identifier (section 4.1 of the framing format) is sniffed as snappy. |
| Envelope.GzipHeaderIsSniffed | py/src/streamcorpus/_chunk.py:575-583 | A gzip member header with deflate (section 2.3.1 of RFC 1952), with an XFL byte of 0, 2 or 4, is sniffed as gzip. |
| Envelope.CompressedRoundTrip | py/src/streamcorpus/_chunk.py:531-601 | Data compressed under 'xz', 'sz' or 'gz' comes back unchanged when read with the same name, with detection on or off. |
| Envelope.RawRoundTrip | py/src/streamcorpus/_chunk.py:531-601 | Data stored under '' comes back unchanged when it is non-empty and detection does not mistake it for a compressed format. |
| Envelope.RawGzipLookalike | py/src/streamcorpus/_chunk.py:575-587 | Raw data that starts like a gzip member is decompressed on the way back even though it was stored under ''. |
| FileExtensions.MatchGroups | py/src/streamcorpus/_chunk.py:744 | A match of the three optional groups and `$` spells a well-formed suffix at the head of its input, followed by the end. |
| FileExtensions.KindAt | py/src/streamcorpus/_chunk.py:744 | The type group matches only '.fc' or '.sc' at the head of the input, and captures that type. |
| FileExtensions.CompressionAt | py/src/streamcorpus/_chunk.py:744 | The compression group matches only '.xz', '.gz' or '.sz' at the head, and captures that scheme. |
| FileExtensions.MatchEncryption | py/src/streamcorpus/_chunk.py:744 | The optional encryption group and `$` match only an optional '.gpg' followed by the end. |
| FileExtensions.MatchCompression | py/src/streamcorpus/_chunk.py:744 | The optional compression and encryption groups and `$` match only the spelled groups followed by the end. |
| FileExtensions.Search | py/src/streamcorpus/_chunk.py:744-757 | The lazy `.*?` stops at a position where the groups match. |
| FileExtensions.MatchGroupsComplete | py/src/streamcorpus/_chunk.py:744 | A well-formed suffix followed by the end is always matched by the groups. |
| FileExtensions.SearchSucceeds | py/src/streamcorpus/_chunk.py:744-757 | Without newlines the match never fails, so the no-match branch is not taken. |
| FileExtensions.SearchStopsBy | py/src/streamcorpus/_chunk.py:744-757 | The lazy prefix stops no later than any position where the groups match. |
| FileExtensions.FoundSuffix | py/src/streamcorpus/_chunk.py:744-757 | Without newlines the groups take all of the path after the lazy prefix. |
| FileExtensions.ParseSound | py/src/streamcorpus/_chunk.py:744-758 | For a newline-free path the result is well formed and is a suffix of the path. |
| FileExtensions.ParseLongest | py/src/streamcorpus/_chunk.py:744-758 | No well-formed suffix of a newline-free path is longer than the one found. |
| FileExtensions.RenderInjective | py/src/streamcorpus/_chunk.py:744 | A suffix spells only one (type, compression, encryption) triple. |
| FileExtensions.ParseIsLongestSuffix | py/src/streamcorpus/_chunk.py:744-758 | `parse_file_extensions` of a newline-free path is exactly its longest well-formed suffix. |
| FileExtensions.ExampleFullSuffix | py/src/streamcorpus/_chunk.py:744-758 | "dog.sc.gz.gpg" gives (sc, gz, gpg). |
| FileExtensions.ExampleCompressionOnly | py/src/streamcorpus/_chunk.py:744-758 | "dog.gz" gives (None, gz, None). |
| FileExtensions.ExampleBareName | py/src/streamcorpus/_chunk.py:744-758 | "dog" gives (None, None, None). |
| FileExtensions.ExampleInnerNewline | py/src/streamcorpus/_chunk.py:744-758 | A newline before the end makes the match fail, giving three Nones. |
| FileExtensions.ExampleFinalNewline | py/src/streamcorpus/_chunk.py:744-758 | `$` also matches before a final newline: "dog.gz\n" gives (None, gz, None). |
| ChunkEngine.ParseMode | py/src/streamcorpus/_chunk.py:198-200 | A mode is accepted exactly when it is 'wb', 'ab' or 'rb'. |
| ChunkEngine.PathStage | py/src/streamcorpus/_chunk.py:217-271 | A path with data or a file object fails the assertion. An existing path in 'wb' raises IOError EEXIST, and a missing path in 'rb' raises IOError ENOENT. An existing .gz path opens only for reading, and a decompressing pipe only for reading an existing file. Any other handle has the requested mode. |
| ChunkEngine.ModeCheck | py/src/streamcorpus/_chunk.py:294-302 | A file object without a mode passes. An integer mode passes exactly when 1 meets 'rb' or 2 meets 'wb'. A text mode passes exactly when its first letter is the mode's. |
| ChunkEngine.BufferStage | py/src/streamcorpus/_chunk.py:273-302 | No handle and no data gives an empty in-memory writer forced to 'wb'. With data and no handle, 'wb' is the failure, 'rb' reads the data and 'ab' writes after it. A handle passes exactly when its mode agrees. |
| ChunkEngine.OpenPlan | py/src/streamcorpus/_chunk.py:198-302 | The construction rules: a bad mode fails, EEXIST for an existing path in 'wb', ENOENT for a missing one in 'rb', an exception for data in 'wb', an in-memory 'wb' writer without a source, and the mode check for a given file object. |
| ChunkEngine.NewGzAppendFails | py/src/streamcorpus/_chunk.py:256-302 | A new .gz path in mode 'ab' fails the file object mode assertion. |
| ChunkEngine.WrapAll | py/src/streamcorpus/_chunk.py:377-386 | The read wrapper is applied to each record and keeps the count. |
| ChunkEngine.Chunk.Init | py/src/streamcorpus/_chunk.py:204-214 | A new chunk has count 0, no cached digest and no transport. Its file object becomes the output handle for 'wb' and 'ab', or the input handle for 'rb', wrapped with a fresh digest. |
| ChunkEngine.Chunk.OpenPath | py/src/streamcorpus/_chunk.py:217-271 | A path opened for reading presents the file's bytes through its decompressor. A path opened for writing is created if missing, and its bytes go after what the file held, through the handle's compressor. |
| ChunkEngine.Chunk.OpenStream | py/src/streamcorpus/_chunk.py:198-302 | Fails exactly when the construction rules do, with their error and mode. The directory gains an empty file exactly when a new path is opened for writing. The file object holds what those rules say. |
| ChunkEngine.Chunk.Open | py/src/streamcorpus/_chunk.py:159-317 | `BaseChunk.__init__`: the outcome of the construction rules. On success, exactly one of the output handle ('wb', 'ab') and the input handle ('rb') is set, with nothing counted, added, cached or buffered. |
| ChunkEngine.Chunk.Add | py/src/streamcorpus/_chunk.py:325-332 | The write wrapper is applied first. The count goes up by one exactly when the backend's write returns, and is unchanged when it raises. That happens exactly when the chunk has an output handle and, for Thrift, the wrapped record is an instance of the chunk's class or of a subclass of it. `add` on a closed or reading chunk fails its assertion. |
| ChunkEngine.Chunk.OpenProtocol | py/src/streamcorpus/_chunk.py:410-414 | The transport and protocol are built once, over whatever output handle there is at that moment. |
| ChunkEngine.Chunk.WriteThrift | py/src/streamcorpus/_chunk.py:416-424 | After close (or on a reader) the `_o_chunk_fh` assertion fails. A record that is neither of the chunk's class nor of a subclass of it raises VersionMismatchError, while a subclass instance is accepted, as `isinstance` accepts it. Otherwise its encoding is buffered after the pending bytes, and the record is added. |
| ChunkEngine.Chunk.WriteCbor | py/src/streamcorpus/_cbor_chunk.py:27-29 | The CBOR writer fails its assertion without an output handle, and otherwise writes the record's encoding straight through the digest wrapper. |
| ChunkEngine.Chunk.Close | py/src/streamcorpus/_chunk.py:341-350 | A transport built without an output handle fails with AttributeError. Otherwise the pending bytes are flushed and the output handle closed, storing the previous bytes plus every encoding added. The cached digest becomes the MD5 of what this handle wrote. A second call changes nothing. |
| ChunkEngine.Chunk.HexDigest | py/src/streamcorpus/_chunk.py:352-365 | The order of preference: the cached digest, then the live output digest, then the live input digest, else None. A live digest covers exactly what its handle has seen. |
| ChunkEngine.Chunk.Iterate | py/src/streamcorpus/_chunk.py:377-386 | Reading fails its assertion without an input handle, and raises ValueError on a closed one with nothing read. A seekable Thrift input is reread from 0, and otherwise from where it stands. The records are those decoded up to the end, a decode error or (Thrift only) a version mismatch, each passed through the read wrapper. The count grows by the number read, and every byte read is digested. |
| ChunkEngine.DecodeEnds | py/src/streamcorpus/_chunk.py:459-478 | EOFError ends the loop quietly; a decode error or a version mismatch ends it with that exception. |
| ChunkEngine.DecodeContinues | py/src/streamcorpus/_chunk.py:459-478 | A record that reads and passes the check is yielded, and the loop goes on after its bytes. |
| ChunkEngine.ReadRecords | py/src/streamcorpus/_chunk.py:437-478 | The `while 1` loop yields exactly the records `DecodeAll` delivers and raises the exception that stopped it. |
| ChunkScenarios.AddAll | py/src/streamcorpus/_chunk.py:325-332 | Adding acceptable records to a writer appends them all and counts each once. |
| ChunkScenarios.OpenWriter | py/src/streamcorpus/_chunk.py:217-271 | A writer on a plain path creates the file when it is new ('wb') and writes after its bytes when it exists ('ab'). |
| ChunkScenarios.AddAndClose | src/python/src/streamcorpus/test_md5.py:28-41 | After adding records to a fresh writer and closing it, the file holds their encodings and the cached digest is their MD5. |
| ChunkScenarios.WriteChunk | py/src/streamcorpus/test_chunk.py:41-50 | After writing and closing, the file holds its old bytes and then the new encodings. The cached digest covers only what was added, and `len` is the number added. |
| ChunkScenarios.ReadChunk | py/src/streamcorpus/test_chunk.py:52-58 | A reader on a plain file yields every record in the file, in order, and the exception that ended the loop. |
| ChunkScenarios.WriteThenRead | src/python/src/streamcorpus/test_md5.py:28-41 | A new file written with records holds their encodings, its digest is the MD5 of the file, and reading it back yields the same records, ending cleanly. |
| ChunkScenarios.AppendThenRead | py/src/streamcorpus/test_chunk.py:41-50 | An 'ab' chunk over a file of records counts only what it added, and the file then reads back as the old records followed by the new ones. |
| Roller.PathJoin | py/src/streamcorpus/chunk_roller.py:25 | `os.path.join` ends with its second part, and an absolute second part replaces the first. |
| Roller.FinalNameHasNoTmp | py/src/streamcorpus/test_chunk_roller.py:23-27 | A finished chunk's name `<count>-<md5>.<ext>.xz` never contains 'tmp'. |
| Roller.TempNameHasTmp | py/src/streamcorpus/chunk_roller.py:25 | The temporary name `tmp-<n>.sc.xz` contains 'tmp'. |
| Roller.FinalPathIsNotTemp | py/src/streamcorpus/chunk_roller.py:57-61 | Under the same directory, a finished chunk's path is never the temporary path. |
| Roller.TempPathIsXz | py/src/streamcorpus/chunk_roller.py:25 | The temporary path ends in .xz, so the chunk over it writes through the xz compressor. |
| Roller.PathJoinInjective | py/src/streamcorpus/chunk_roller.py:57-60 | Two relative names joined under the same directory give the same path only when they are the same name. |
| Roller.FinalNameInjective | py/src/streamcorpus/test_chunk_roller.py:26 | A permanent name `<count>-<md5>.<ext>.xz` gives back its count, read as the digits before the first `-`, and its digest. |
| Roller.OpenXzWriter | py/src/streamcorpus/chunk_roller.py:38-42 | Opening the writer over the new temporary .xz path succeeds exactly when the xz module is present, and then creates an empty file. |
| Roller.CloseXzWriter | py/src/streamcorpus/chunk_roller.py:51 | Closing the writer stores the xz compression of every encoding added, and its digest is the MD5 of the uncompressed encodings. |
| Roller.ChunkRoller.constructor | py/src/streamcorpus/chunk_roller.py:22-27 | The temporary path is `chunk_dir` joined with `tmp-<n>.sc.xz`, and no chunk is open. |
| Roller.ChunkRoller.FinalIsNotTemp | py/src/streamcorpus/chunk_roller.py:57-61 | No batch is ever renamed onto the temporary path. |
| Roller.ChunkRoller.RolledHasNoTemp | py/src/streamcorpus/chunk_roller.py:57-61 | No rolled batch leaves a file at the temporary path. |
| Roller.ChunkRoller.FinalPathInjective | py/src/streamcorpus/chunk_roller.py:57-61 | Two batches renamed to the same path have the same record count and the same MD5 digest. |
| Roller.ChunkRoller.Add | py/src/streamcorpus/chunk_roller.py:29-47 | An accepted record joins the open chunk, opened first if none was. The record that makes the count equal `chunk_max` rolls the chunk to its permanent name in the same call, and the directory then holds its packed records there in place of the temporary file. Without the xz module the stale temporary file is gone and the call fails. A refused record leaves the open chunk, freshly opened if none was, and the temporary file in place, with the records unchanged. Between calls an open chunk holds 1 to `chunk_max - 1` records. |
| Roller.ChunkRoller.OpenAndPut | py/src/streamcorpus/chunk_roller.py:35-47 | `add` with no open chunk: open one on the temporary path, put the record, and roll at once when `chunk_max` is 1. A refused record leaves the new chunk open over an empty temporary file. |
| Roller.ChunkRoller.PutAndRoll | py/src/streamcorpus/chunk_roller.py:44-47 | `add` with an open chunk: the record goes in, and the chunk is rolled exactly when that makes it full. |
| Roller.ChunkRoller.OpenTemp | py/src/streamcorpus/chunk_roller.py:35-42 | A stale file at the temporary path is removed before the writer opens, and opening creates it afresh. |
| Roller.ChunkRoller.Put | py/src/streamcorpus/chunk_roller.py:44-45 | The open chunk takes an accepted record, and its `len` is the number of records in it. |
| Roller.ChunkRoller.Attach | py/src/streamcorpus/chunk_roller.py:38-42 | The freshly opened writer becomes the roller's open chunk, with no batch or record changed. |
| Roller.ChunkRoller.Close | py/src/streamcorpus/chunk_roller.py:49-63 | A chunk holding records is rolled whatever its count. With no chunk open, or an empty one, nothing changes. |
| Roller.ChunkRoller.Roll | py/src/streamcorpus/chunk_roller.py:50-62 | The temporary file is renamed to `<count>-<md5>.<ext>.xz` under `chunk_dir`, holding the compressed records of the batch. The chunk is forgotten. |
| Roller.ChunkRoller.Detach | py/src/streamcorpus/chunk_roller.py:62 | The closed chunk is forgotten, and its records become a batch. |
| Roller.Push | py/src/streamcorpus/chunk_roller.py:29-47 | `add` of an accepted record, seen from the records: the new directory is exactly the old one with the empty temporary file added when the chunk was just opened, or, when the record fills the chunk, with the temporary file replaced by the batch's permanent file holding its packed records. No other file is removed. |
| Roller.Spool | py/src/streamcorpus/chunk_roller.py:29-47 | One `add` more keeps the records in order, full batches then the open chunk, and keeps the directory exactly the rolled batches' files plus the temporary file while a chunk is open. |
| Roller.SpoolAll | py/src/streamcorpus/test_chunk_roller.py:16-19 | Adding every record keeps them all, in order, across batches and the open chunk, with the directory exactly the rolled files plus the temporary one. |
| Roller.Start | py/src/streamcorpus/test_chunk_roller.py:14 | A new roller with `chunk_max=10` over an empty directory has spooled nothing and leaves the directory empty. |
| Roller.SpooledTwentyFive | py/src/streamcorpus/test_chunk_roller.py:16-19 | After 25 records two chunks of 10 have rolled and 5 records wait in the open chunk. The directory holds exactly the two rolled files and the empty temporary file. |
| Roller.Finish | py/src/streamcorpus/test_chunk_roller.py:21-29 | `close` after the 25 records rolls the open chunk of 5. The directory then holds exactly the three chunks' files with their packed records and no temporary file. The chunk of 5 has a path apart from the other two, and there are three files whenever the two chunks of 10 have different MD5 digests. |
| Roller.RollTwentyFive | py/src/streamcorpus/test_chunk_roller.py:12-29 | 25 accepted records with `chunk_max=10` into an empty directory, then close: batches of 10, 10 and 5 that together are the records in order. The directory is exactly their three permanent files, each holding its batch's packed records, with no temporary file. The 5-record file is apart from the others, and the three are distinct whenever the two 10-record chunks have different MD5 digests. |
| Roller.SeparateFiles | py/src/streamcorpus/test_chunk_roller.py:23-29 | Chunks of 10, 10 and 5 records: the 5-record path differs from both others, and when the two 10-record digests differ the three files are three. |
| Xpath.StripText | py/src/streamcorpus/xpath.py:191-193 | One trailing `/text()[N]` is removed (before a final newline too); any other xpath is unchanged. |
| Xpath.TrailingDigits | py/src/streamcorpus/xpath.py:192 | The digit run counted at the end of a string is all digits and is preceded by a non-digit or the start. |
| Xpath.SelectorStart | py/src/streamcorpus/xpath.py:205-206 | A match of the trailing selector pattern is '/text()[', then digits, then ']' at the end, before at most one newline. |
| Xpath.SelectorShape | py/src/streamcorpus/xpath.py:205-206 | Every matched xpath is its prefix, '/text()[' with at least one digit and ']', and at most a newline. |
| Xpath.PlainSelector | py/src/streamcorpus/xpath.py:191-209 | An xpath ending in `/text()[d]` loses exactly that selector and names index d - 1. |
| Xpath.TextIndex | py/src/streamcorpus/xpath.py:204-209 | Fails with the invalid text selector error exactly when there is no trailing selector. Otherwise N - 1. |
| Xpath.SelectorRoundTrip | py/src/streamcorpus/xpath.py:191-209 | An xpath ending in `/text()[d]`, with or without one final newline after it, loses exactly that selector, the newline staying in place, and names index d - 1. |
| Xpath.SelectorUnderPrefix | py/src/streamcorpus/xpath.py:191-209 | Prefixing an xpath with a selector moves the match and keeps what it captures. |
| Xpath.AncestorOf | py/src/streamcorpus/xpath.py:97-102 | There is no common ancestor exactly when the first '/' components differ. |
| Xpath.CommonPrefix | py/src/streamcorpus/xpath.py:97-101 | The zip keeps a prefix of both component lists, and stops at the first difference or at the end of the shorter one. |
| Xpath.CommonAncestorXpath | py/src/streamcorpus/xpath.py:82-102 | The zip loop over the components computes the common ancestor. |
| Xpath.CommonPrefixUnique | py/src/streamcorpus/xpath.py:97-102 | A common prefix followed by a difference, or by the end of either list, is the longest one. |
| Xpath.AncestorComponents | py/src/streamcorpus/xpath.py:97-102 | The ancestor's components are the longest common prefix of the two component lists. |
| Xpath.AbsoluteAncestor | py/src/streamcorpus/xpath.py:97-102 | Two absolute xpaths always have a common ancestor, at worst ''. |
| Xpath.SelfAncestor | py/src/streamcorpus/xpath.py:97-102 | An xpath is its own common ancestor with itself. |
| Xpath.NewRange | py/src/streamcorpus/xpath.py:47-68 | The constructor succeeds exactly when both xpaths end in a text selector, and otherwise raises for the start first. It keeps the xpaths and offsets as given, and the container xpaths are shorter. |
| Xpath.SameNodeIsSameParent | py/src/streamcorpus/xpath.py:121-129 | `same_node` implies `same_parent`. |
| Xpath.SiblingTexts | py/src/streamcorpus/xpath.py:121-129 | Two text selectors of one element share a parent, and are the same node exactly when they have the same digits. |
| Xpath.EqualIsIdentity | py/src/streamcorpus/xpath.py:231-237 | On constructed ranges `__eq__`, which compares the offsets and xpaths, holds exactly when every field is equal. |
| Xpath.RootAtKeeps | py/src/streamcorpus/xpath.py:131-134 | `root_at` prefixes both xpaths and containers, keeps the offsets and text indexes, and keeps `same_node` and `same_parent`. |
| Xpath.TraversalAttributesOwnTexts | py/src/streamcorpus/xpath.py:211-229 | The text nodes the traversal attributes to an element are its text and then its children's tails, in document order. |
| Xpath.ChildTextsAttributeTails | py/src/streamcorpus/xpath.py:222-229 | The text nodes the children's traversal gives their parent are exactly the children's tails. |
| Xpath.ParentsInSubtree | py/src/streamcorpus/xpath.py:211-229 | Every text node the traversal yields belongs to an element of that subtree. |
| Xpath.NoTextsOutside | py/src/streamcorpus/xpath.py:211-229 | The traversal yields no text node for an element outside the subtree. |
| Xpath.OneNode | py/src/streamcorpus/xpath.py:195-202 | Succeeds exactly when the lookup finds one node, and returns it. Otherwise InvalidXpathError with the count found. |
| Xpath.DropBlank | py/src/streamcorpus/xpath.py:185-187 | `trimmed` keeps no whitespace-only part and no more parts than there were. It drops nothing exactly when no part is blank. A single part is kept exactly when it is not blank, and dropped exactly when it is. |
| Xpath.DropBlankAppend | py/src/streamcorpus/xpath.py:185-187 | The parts kept from a concatenation are those kept from each side, in order. With the single-part case, the result is exactly the non-blank parts in their order. |
| Xpath.Slice | py/src/streamcorpus/xpath.py:148-189 | A same-node range slices `[start_offset:end_offset]` of its single text node, and fails unless the lookup finds exactly one node. |
| Xpath.SliceNode | py/src/streamcorpus/xpath.py:148-189 | `slice_node` computes `Slice`. |
| Xpath.Walk | py/src/streamcorpus/xpath.py:164-184 | The loop over the text nodes, with its counters, collects the parts `Collect` describes. |
| Xpath.EscapeAmp | py/src/streamcorpus/xpath.py:119 | Escaping '&' leaves text without '&' alone and never shortens it. |
| Xpath.SliceHtml | py/src/streamcorpus/xpath.py:144-146 | `slice_html` parses the html with '&' escaped and slices it untrimmed, whatever `trimmed` says. |
| Xpath.SkipBeforeStart | py/src/streamcorpus/xpath.py:167-176 | Before the start text node nothing is collected. |
| Xpath.StartNode | py/src/streamcorpus/xpath.py:177-179 | The start text node contributes its text from `start_offset` on. |
| Xpath.CollectBetween | py/src/streamcorpus/xpath.py:172-184 | Between the start and the end text node every text is collected whole. |
| Xpath.EndNode | py/src/streamcorpus/xpath.py:180-182 | The end text node contributes its text up to `end_offset`, and the walk stops there. |
| Xpath.SliceAcross | py/src/streamcorpus/xpath.py:160-189 | A cross-node range joins the start node's text from `start_offset`, each text node in between, and the end node's text up to `end_offset`. |
| Xpath.StartNeverReached | py/src/streamcorpus/xpath.py:167-176 | When the start element has too few text nodes, nothing is collected. |
| Xpath.SliceInsideOne | py/src/streamcorpus/xpath.py:160-189 | A range whose ends lie in one element, found once, slices that element's text nodes. |
| Xpath.FirstToSecond | py/src/streamcorpus/xpath.py:47-68 | The range from `p/text()[1]` to `p/text()[2]` has container `p`, indexes 0 and 1, and ancestor `p`. |
| Xpath.SiblingAncestor | py/src/streamcorpus/xpath.py:97-102 | Two different text nodes of one element have that element as their common ancestor. |
| Xpath.FirstSecondAncestor | py/src/streamcorpus/xpath.py:97-102 | `p/text()[1]` and `p/text()[2]` have common ancestor `p`. |
| Xpath.SliceAroundChild | py/src/streamcorpus/xpath.py:160-189 | An element with text, one child and that child's tail slices from its first to its second text node as text suffix, child text and tail prefix. |
| Xpath.SliceBar | py/src/streamcorpus/test_xpath.py:171-176 | `<b>b<i>a</i>r</b>` from `/b[1]/text()[1]` at 0 to `/b[1]/text()[2]` at 1 slices to 'bar'. |
| RecordHelpers.DateHour | py/src/streamcorpus/package_globals.py:108 | The result is the part of the timestamp before its first ':', with every 'T' read as '-'. |
| RecordHelpers.DateHourUnique | py/src/streamcorpus/package_globals.py:108 | A timestamp has only one hour bucket. |
| RecordHelpers.GetDateHour | py/src/streamcorpus/package_globals.py:96-108 | A StreamTime, or a StreamItem through its `stream_time`, gives its hour bucket. Anything else fails the assertion. |
| RecordHelpers.DateHourAt | py/src/streamcorpus/package_globals.py:108 | With the first ':' at k, the bucket is the text before k with 'T' read as '-'. |
| RecordHelpers.DateHourExample | py/src/streamcorpus/package_globals.py:98 | '2000-01-01T12:34:00.000123Z' is in hour '2000-01-01-12'. |
| RecordHelpers.ZuluForDateHour | py/src/streamcorpus/package_globals.py:115-117 | The bucket is accepted exactly when it has four '-' parts; the timestamp ends in ':00:00.000000Z'. |
| RecordHelpers.ZuluReplacesLastDash | py/src/streamcorpus/package_globals.py:115-117 | The built timestamp is the bucket with its last '-' turned into 'T', then ':00:00.000000Z'. |
| RecordHelpers.DateHourOfZulu | py/src/streamcorpus/package_globals.py:108-117 | `get_date_hour` of the built timestamp gives back a bucket that holds no ':' or 'T' of its own. |
| RecordHelpers.ZuluForFourParts | py/src/streamcorpus/package_globals.py:108-117 | A bucket of four plain parts is accepted and comes back from its own timestamp. |
| RecordHelpers.EpochTicksForDateHour | py/src/streamcorpus/package_globals.py:111-118 | Fails the assertion unless there are four parts; otherwise the epoch ticks of the built timestamp, failing where parsing it fails. |
| RecordHelpers.MakeStreamItem | py/src/streamcorpus/package_globals.py:178-203 | `doc_id` is the MD5 hex of `abs_url`, `stream_id` is the epoch ticks, '-', then `doc_id`, and the version, time and URL are as given. A version other than 0.2.0 or 0.3.0 leaves `si` unbound. |
| RecordHelpers.HexHasNoDash | py/src/streamcorpus/package_globals.py:201-202 | A hex digest holds no '-', so the last '-' of a stream id comes before the doc id. |
| RecordHelpers.StreamIdParts | py/src/streamcorpus/package_globals.py:201-202 | The stream id gives back both halves: its last '-' part is the doc id, and the text before it reads back as the epoch ticks. |
| RecordHelpers.Append | py/src/streamcorpus/package_globals.py:219-227 | Appending under a key creates the list when absent, adds the annotation at its end, and leaves every other key unchanged. |
| RecordHelpers.AppendInPlace | py/src/streamcorpus/package_globals.py:219-221 | Creating the missing list and then appending to it in place is `Append`. |
| RecordHelpers.Refusal | py/src/streamcorpus/package_globals.py:213-230 | An annotation without an annotator raises first. A Label is accepted exactly on a ContentItem, Sentence or Token, and a Rating exactly on a StreamItem. |
| RecordHelpers.Step | py/src/streamcorpus/package_globals.py:212-230 | One pass: a refused annotation changes nothing; a Label is appended to `labels` and a Rating to `ratings`, under its annotator id, and the other map is untouched. |
| RecordHelpers.PlaceAccepted | py/src/streamcorpus/package_globals.py:212-230 | When every annotation is accepted, each list gains exactly its annotator's annotations of its kind, in order, and no other list changes. |
| RecordHelpers.PlaceStops | py/src/streamcorpus/package_globals.py:212-230 | The first refused annotation stops the loop: what came before it stays filed and nothing after it is. |
| RecordHelpers.AddAnnotation | py/src/streamcorpus/package_globals.py:205-230 | The maps are updated in place exactly as the loop `Place` describes, with its error. |
| RecordHelpers.EntityTypeAsWritten | py/src/streamcorpus/package_globals.py:239-246 | As written, a CUSTOM_TYPE token without a custom name raises NameError. |
| RecordHelpers.GetEntityType | py/src/streamcorpus/package_globals.py:239-246 | None for an unset type, the custom name for CUSTOM_TYPE, the name `_VALUES_TO_NAMES` gives the token's own value for any other known type, and KeyError exactly for an unknown value. |
| RecordHelpers.EntityTypeNameIdentifies | py/src/streamcorpus/package_globals.py:245-246 | With a one-to-one names table, two tokens without a custom type get the same answer exactly when they carry the same entity type. |
| RecordHelpers.EntityTypeDiffers | py/src/streamcorpus/package_globals.py:241-244 | The code as written differs from the intended code on exactly the CUSTOM_TYPE tokens without a custom name. |
| RecordHelpers.EntityTypeExamples | py/src/streamcorpus/test_entity_type.py:8-9 | A PER token gives 'PER', and a CUSTOM_TYPE token named 'foo' gives 'foo'. |
| OwplTagging.ParseField | src/streamcorpus/__init__.py:72-75 | A field reads exactly when Python 2's `int` accepts it, with that value: surrounding white space, an optional sign, white space after the sign, then digits. Otherwise the error names the field. |
| Common.ParseSpacedSign | src/streamcorpus/__init__.py:72-75 | A sign, then any white space, then digits reads as the signed value of those digits, as `int` reads it. |
| Common.SpacedSignExamples | src/streamcorpus/__init__.py:72-75 | `int('- 5')` is -5 and `int('+\t7')` is 7. |
| Common.SkipSpaceDropsSpace | src/streamcorpus/__init__.py:72-75 | Skipping the white space after a sign drops a run of white space at the front and keeps the rest unchanged. |
| OwplTagging.MakeToken | src/streamcorpus/__init__.py:64-76 | A line must split into nine tab-separated fields. The token carries the counters as they stand, the text fields in order, and the parsed position and equivalence id. |
| OwplTagging.OffsetsRoundTrip | src/streamcorpus/__init__.py:73-74 | A 'b:e' field reads back as its two offsets. |
| OwplTagging.TokenFields | src/streamcorpus/__init__.py:69-71 | A token's OWPL line splits into its nine fields in order. |
| OwplTagging.MakeTokenOk | src/streamcorpus/__init__.py:64-76 | A line whose nine fields all read is made into the token of those fields. |
| OwplTagging.TokenRoundTrip | src/streamcorpus/__init__.py:64-76 | Reading a token's own line under its own counters gives the token back. |
| OwplTagging.SplitLines | src/streamcorpus/__init__.py:79 | `splitlines` yields lines without line breaks. |
| OwplTagging.LineEnd | src/streamcorpus/__init__.py:79 | The first line ends at the first line break or at the end of the text, with no break inside it. |
| OwplTagging.LineEndOf | src/streamcorpus/__init__.py:79 | A line without breaks followed by '\n' ends just before that '\n'. |
| OwplTagging.SplitTerminated | src/streamcorpus/__init__.py:79 | `splitlines` gives back lines that were each written with a '\n'. |
| OwplTagging.SentId | src/streamcorpus/__init__.py:86 | An id is read only from a line that starts with `<SENT id="`. |
| OwplTagging.LeadingDigits | src/streamcorpus/__init__.py:56 | `(\d+)` takes the longest run of digits at the head of the text. |
| OwplTagging.SentIdOf | src/streamcorpus/__init__.py:86 | A `<SENT id="N">` line gives back N. |
| OwplTagging.GroupsSkipBlank | src/streamcorpus/__init__.py:80 | A blank line changes nothing, wherever it stands. |
| OwplTagging.GroupsKeepTokens | src/streamcorpus/__init__.py:91-93 | No token line is lost, duplicated or reordered: the sentences, read one after another, are exactly the token lines of the input. |
| OwplTagging.GroupsCount | src/streamcorpus/__init__.py:81-98 | Every marker ends a sentence, even an empty one, and a non-empty remainder after the last marker makes one more. |
| OwplTagging.GroupsNumbering | src/streamcorpus/__init__.py:84-98 | `tok_num` when a sentence is yielded counts every token line up to and including that sentence's own. |
| OwplTagging.GroupsFirstNumber | src/streamcorpus/__init__.py:62-84 | The first sentence carries the starting `sent_num`. |
| OwplTagging.MakeTokens | src/streamcorpus/__init__.py:84 | `map(make_token, lines)` gives one token per line, each made under the same counters. |
| OwplTagging.MakeTokensFails | src/streamcorpus/__init__.py:84 | The map fails with the error of the first line that fails. |
| OwplTagging.MakeSentence | src/streamcorpus/__init__.py:84-98 | Every token of a sentence has the `token_number` and `sentence_number` the counters held when it was yielded. |
| OwplTagging.EmitAll | src/streamcorpus/__init__.py:84-98 | With no failure, sentence k is made from group k. |
| OwplTagging.SharedCounters | src/streamcorpus/__init__.py:60-98 | All tokens of sentence k share the id of the marker before it (0 before any marker) and the count of token lines up to the end of that sentence. |
| OwplTagging.GroupsAtMarker | src/streamcorpus/__init__.py:81-89 | A `<SENT` line ends the current sentence and starts the next under the new id, or stops the loop when there is no id. |
| OwplTagging.MarkerFails | src/streamcorpus/__init__.py:81-84 | A `<SENT` line whose sentence cannot be made ends the loop with that error. |
| OwplTagging.MarkerWithoutId | src/streamcorpus/__init__.py:81-86 | A `<SENT` line without an id yields the sentence so far, then raises. |
| OwplTagging.MarkerWithId | src/streamcorpus/__init__.py:81-89 | A `<SENT id="N">` line yields the sentence so far and starts sentence N, empty. |
| OwplTagging.EndStep | src/streamcorpus/__init__.py:95-98 | At the end a non-empty remainder is yielded, and an empty one is not. |
| OwplTagging.Sentences | src/streamcorpus/__init__.py:58-98 | The loop yields exactly what the grouping specification `Tagging` says, and the error that stopped it. |
| LegacyChunk.WriteAt | src/streamcorpus/_chunk.py:38 | A `StringIO` write replaces the bytes at the position, extends the buffer past its end, and moves the position after the data. |
| LegacyChunk.WriteAtEnd | src/streamcorpus/_chunk.py:38 | A write at the end of the buffer appends. |
| LegacyChunk.StrAsWritten | src/streamcorpus/_chunk.py:41-47 | As written, `__str__` returns the buffer and also moves its position back to 0. |
| LegacyChunk.StrThenAddLosesRecord | src/streamcorpus/_chunk.py:35-47 | As written, `add(a)`, `str`, `add(b)` with encodings of equal length leaves only `b` in the buffer, not `a` then `b`. |
| LegacyChunk.EndError | src/streamcorpus/_chunk.py:71-79 | Only the end of the input ends iteration without an error. |
| LegacyChunk.Chunk.constructor | src/streamcorpus/_chunk.py:13-33 | With neither `data` nor `file_obj`, an empty in-memory output and no input. Otherwise no output, and the input is the given file object or a buffer over the data at position 0. |
| LegacyChunk.Chunk.Add | src/streamcorpus/_chunk.py:35-39 | Fails the assertion on a chunk without an output. Otherwise the record's encoding is appended and the count goes up by one. |
| LegacyChunk.Chunk.Str | src/streamcorpus/_chunk.py:41-47 | '' without an output buffer, and otherwise every record added, encoded in order. |
| LegacyChunk.Chunk.Len | src/streamcorpus/_chunk.py:49-51 | The number of records added through this handle, and 0 for a reader. |
| LegacyChunk.Chunk.Iter | src/streamcorpus/_chunk.py:53-79 | Fails the assertion without an input handle. Otherwise it seeks to 0 (ValueError where the handle is closed, IOError where it cannot seek) and yields the records decoded until EOFError. Nothing else changes, so iterating again yields the same records and `len` is unchanged. |
| LegacyChunk.ReadItems | src/streamcorpus/_chunk.py:66-79 | The `while 1` loop yields exactly the records `DecodeAll` delivers and raises any protocol error other than EOFError. |
| LegacyChunk.AddThenRead | src/streamcorpus/_chunk.py:13-79 | A chunk built from nothing that adds records reports their number, and a chunk over its string yields exactly those records, ending quietly, with `len` 0. |

## Left out

- Encryption: the gpg branches of `decrypt_and_uncompress` and `compress_and_encrypt` and the gpg pipe for `.xz.gpg` paths are subprocess pipelines; the pipe is a function parameter, and everything else about gpg is not modelled.
- Compression: xz, gzip and snappy are function parameters (`Compressors`), assumed only to invert each other where a round trip is proved. `compress_and_encrypt_path` is not part of this model.
- Thrift binary, CBOR (RFC 7049), JSON and pickle encodings are an abstract codec with assumed laws. `JsonChunk`, `PickleChunk`, `serialize` and `deserialize` are not part of this model.
- The Thrift buffered transports are modelled as a pending byte buffer on writing and a read of the whole remaining input on reading, so read-ahead past a failing record is not modelled.
- Iteration (`__iter__` of both chunks and of `md5_file`) is modelled consumed to the end, not as a lazy generator that can be abandoned partway.
- lxml parsing and xpath evaluation are an abstract `Document` lookup, and `html_node`'s utf-8 decoding is left out. `from_offset` and `slice_stream_item` only forward fields and are left out.
- Time: `make_stream_time` and its helpers (strptime, timegm, float epoch ticks) are left out; `EpochTicksForDateHour` takes timegm as a parameter and `MakeStreamItem` takes a built `StreamTime`.
- RecordHelpers.MakeStreamItem: epoch ticks are an integer, so the truncation of a float by '%d' is not modelled.
- The values of the `EntityType` enum and `_VALUES_TO_NAMES` are not in the source and are parameters.
- The Thrift structures are reduced to the fields the core reads or writes.
- Logging is left out; the one place where it matters, the undefined `logger`, is under Findings.
- The directory is a map: `os.path.exists`, `makedirs`, atomic rename and the `xzcat` child process are reduced to map updates and a non-seekable handle.
- The random number in the roller's temporary name is a constructor parameter.
- Roller.Finish, Roller.RollTwentyFive: MD5 is an abstract function, so nothing rules out the two 10-record chunks having the same digest and so the same file name. Three distinct files are proved under the premise that their digests differ.
- The write-then-read scenarios of `ChunkScenarios` take records of exactly the chunk's class. A subclass instance is written with its own fields and read back as the chunk's class, which the abstract codec does not relate.
- OwplTagging.SplitLines: line breaks are '\n', '\r' and "\r\n" only, not the other characters Python's `splitlines` also treats as breaks.
- The older `Chunk` uses `StringIO` without importing it; the model uses the intended `StringIO`. Its `TBufferedTransport` on reading is modelled as reading the whole input.
- Streams.Stream.Read, Streams.Stream.Seek0, Checksum.Md5File.Read, Checksum.Md5File.ReadLine, Checksum.Md5File.NextLine, Checksum.Md5File.Lines, Checksum.Md5File.Seek0: a closed handle is not refused by the stream operations themselves, where Python raises ValueError; only chunk iteration (`ChunkEngine.Chunk.Iterate`, `LegacyChunk.Chunk.Iter`) models that error, since every other caller reads a handle it has just opened.
- The file object `mode` attribute of an xz file object is modelled as absent; only the gzip integer modes and text modes are checked.
- `__enter__`/`__exit__`, `flush`, `__repr__` and `BaseChunk.__str__` are left out; `__exit__` is `close`.
- Checksum.Md5File.HexDigest, ChunkEngine.Chunk.Len: no contract of their own; what they return is stated through `Close`, `AddAndClose`, `Add` and `Iterate`.

## Findings

| source | as written | input that shows it | evidently intended | confidence | as-written member | corrected member |
|---|---|---|---|---|---|---|
| py/src/streamcorpus/package_globals.py:241-244 | a CUSTOM_TYPE token without `custom_entity_type` calls `logger.critical`, but no `logger` is defined in the module, so the call raises NameError | a Token with `entity_type = CUSTOM_TYPE` and `custom_entity_type = None` | log the problem and return None | not executed | RecordHelpers.EntityTypeAsWritten | RecordHelpers.GetEntityType |
| src/streamcorpus/_chunk.py:41-47 | `__str__` seeks the output buffer to 0, so the next `add` writes over the first record while `len` keeps counting | `add(a)`, `str(chunk)`, `add(b)` with `a` and `b` of equal encoded length: the buffer holds only `b` | return the value without moving the write position | not executed | LegacyChunk.StrThenAddLosesRecord | LegacyChunk.Chunk.Str |
