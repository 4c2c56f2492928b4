# matroska: the Go wrapper's glue around Haali's MatroskaParser, in Dafny

The repository wraps a C Matroska parsing engine (`mkv_*`) for Go. This project
models the wrapper's own logic and leaves the engine abstract.

- **The reader registry** (`io.go`). A global table maps a per-demuxer key to the
  caller's reader. The engine only holds the key, and it calls back into Go to read,
  seek and learn the size.
- **The callbacks** (`io.go`, `util.go`). Each callback looks the key up and drives
  the reader. Errors become `-1`, and EOF is not an error. The size callback saves
  the position, seeks to the end and then seeks back. A `fakeSeeker` wraps a plain
  reader and refuses every seek.
- **The C-side reader** (`io.c`). `ioread` caches the position it last left the
  reader at, and it seeks only when a request starts elsewhere. `io_set_callbacks`
  resets the cache and copies at most 36 key characters into a 37-byte buffer.
- **The demuxer** (`matroska.go`):
  - its lifecycle over the registry and its native allocations;
  - the recursive copy of the engine's chapter forest into owned values;
  - the one-level copies of attachments, cues and tags;
  - the three-way translation of the engine's frame status into a packet, an end of
    stream or an error.

The modules follow these pieces:

- `Widths` holds the fixed-width integers and the conversions the code performs.
- `Readers` is the host reader. `Util` is the fakeSeeker choice.
- `IoGo` holds the registry and the callbacks. `IoC` holds `struct IO` and `ioread`.
- `Types` holds the owned and native records. `Chapters` and `Metadata` hold the
  conversions.
- `Demux` holds the demuxer.

Some inputs come from outside the repository. Each becomes an explicit parameter:

- what a Go reader chooses on one Read: a short count, EOF alongside data, or a failure (`ReadPlan`);
- whether a seekable reader's seek fails (`fault`, `SizeFaults`);
- the key `uuid.New()` produces, and whether `calloc`/`io_alloc` succeed (`OpenEnv`);
- how the engine answers (`Replies`, `EngineOpen`).

The engine's state is a log of the calls that change it (`MatroskaFile.calls`). Its
answers to `mkv_ReadFrame` are a fixed function of that log and the mask.

The specification and the code disagree in one place. The specification says a
failed open releases the registry entry. In the code, the failure paths of
`newDemuxerWithFlag` (matroska.go:46-66) free the error buffer and the IO struct but
never call `delReader`. The model follows the code: `Demux.NewDemuxerWithFlag`
leaves `table[key := r]` on every path, and `Demux.OpenThenClose` states that the
entry survives a failed open.

## Model

| member | source | states |
|---|---|---|
| Widths.Int64Of | io.go:90 | `int64(cpos)` is non-negative exactly when `cpos < 2^63`; otherwise it is `cpos - 2^64` |
| Widths.Uint8Of | matroska.go:397 | `uint8(track)` keeps the value below 256 and otherwise differs from it by a multiple of 256 |
| Widths.AddULongLong | io.c:31 | the `unsigned long long` addition is exact without overflow and always congruent modulo 2^64 |
| Util.ReadSeeker.Read | util.go:16-18 | a fakeSeeker reads exactly what the wrapped reader reads: same count, same error, same bytes |
| Util.ReadSeeker.Seek | util.go:20-22 | a fakeSeeker answers `FakeSeek` and leaves the reader where it was; a real reader moves to a non-negative target or fails without moving |
| Util.FakeSeek | util.go:20-22 | a fakeSeeker's Seek always reports an error and a negative position |
| IoGo.IoTable.constructor | io.go:31 | the registry starts empty |
| IoGo.IoTable.GetReader | io.go:46-56 | the lookup succeeds exactly when the key is registered and returns its reader; otherwise the error is "invalid reader key" |
| IoGo.IoTable.AddReader | io.go:34-38 | the key then maps to the new reader (an old entry is overwritten) and every other key keeps its lookup result |
| IoGo.IoTable.DelReader | io.go:40-44 | the key's lookup then fails with "invalid reader key" and every other key keeps its lookup result |
| IoGo.ReadCallbackValue | io.go:73-78 | the callback answers -1 exactly for a Read error other than EOF, and otherwise the count read |
| IoGo.CReadCallback | io.go:58-79 | the answer is -1 or at most `size`; an unknown key gives -1 and leaves the buffer alone; a known key gives the Read's translated answer, with the reader advanced and the bytes delivered |
| IoGo.SeekCallbackSpec | io.go:85-97 | the seek callback answers 0 exactly when the reader is seekable, the host seek succeeds and `int64(cpos)` is non-negative; the reader is then at `cpos`, and otherwise it has not moved |
| IoGo.CSeekCallback | io.go:81-98 | an unknown key gives -1; a known key gives what `SeekCallbackSpec` says about result and position |
| IoGo.SizeCallbackSpec | io.go:104-124 | the size callback answers -1 exactly when the reader cannot seek or one of its three seeks fails; success answers the size with the position restored; a failed restore leaves the reader at the end |
| IoGo.CSizeCallback | io.go:100-125 | an unknown key gives -1; a known key gives what `SizeCallbackSpec` says about the save, seek-to-end and restore sequence |
| IoGo.FakeSeekerCallbacksFail | util.go:20-22 | with a fakeSeeker registered, the seek and size callbacks both answer -1 and leave the position alone |
| IoC.CLen | io.go:60 | the C length is the index of the first NUL, or the whole length when there is none |
| IoC.KeyBuffer | io.c:78 | the key buffer after `strncpy(key, src, 36)` has 37 characters |
| IoC.CLenAt | io.c:78 | any index with no NUL before it and a NUL at it is the C length |
| IoC.KeyRoundTrip | io.c:75-78 | reading the key back out of the buffer gives the source string cut at 36 characters, so a NUL-free key of at most 36 characters survives unchanged |
| IoC.IO.constructor | io.c:91-94 | a fresh IO has cached position 0, a zeroed key buffer and no callbacks installed |
| IoC.IO.SetCallbacks | io.c:75-89 | the cache is reset to 0, the buffer holds the key cut at 36 characters, and the last byte stays NUL |
| IoC.IoRead | io.c:16-34 | as written: zero bytes answers 0 with no callback and the buffer untouched; a seek happens exactly when `pos` differs from the cache; a failed seek answers -1 with no read; a successful seek sets the cache even if the read fails; a failed read answers -1 without advancing; a read delivers into the buffer the reader's bytes from where it really is (the seek target, or its old position when no seek was made), leaving the rest untouched, and no read leaves the buffer untouched; success answers the read count and advances the cache by the requested count; a short read from a synchronised state leaves the cache out of step with the reader |
| IoC.IoReadTracked | io.c:31 | the corrected `ioread`: the same contract, buffer contents included, except that success advances the cache by the count read, so a synchronised cache stays synchronised |
| IoC.IoReadStep | io.c:16-34 | the body both share, with the same buffer contents: after a successful read from a synchronised state, the cache is synchronised exactly when the cache tracks the count read or the read was not short |
| IoC.ConstantCallbacks | io.c:36-69 | `scan` answers -1, `getcachesize` answers 65536 and `progress` answers 1 |
| IoC.GetFileSize | io.c:71-73 | `getfilesize` answers exactly what the size callback answers on the stored key |
| IoC.ShortReadLosesSync | io.c:31 | a fakeSeeker source that answers 100 of 150 requested bytes makes the next request, at position 100, fail with -1 |
| IoC.ShortReadKeepsSync | io.c:31 | the same two requests against the corrected `ioread` answer 100 and then 50 |
| Chapters.ProcessChapters | matroska.go:155-220 | the recursive index-by-index fill returns exactly the conversion of the first `count` native chapters, in order |
| Chapters.CopyTracks | matroska.go:170-180 | the track loop copies exactly the first `nTracks` track numbers |
| Chapters.CopyDisplays | matroska.go:182-192 | the display loop gives `nDisplay` displays, each the copy of the native one at the same index |
| Chapters.CopyProcesses | matroska.go:194-216 | the process loop gives `nProcess` processes, each with exactly its `nCommands` commands copied in order |
| Chapters.ConvertFromParts | matroska.go:164-217 | a chapter assembled from its copied scalar fields, children (only when `nChildren > 0`), tracks, displays and processes is the conversion of its record |
| Chapters.ChildForestSmaller | matroska.go:166-168 | every chapter's child forest is well formed and has fewer nodes than the forest holding it, so the recursion ends |
| Chapters.ConvertPreservesSize | matroska.go:166-168 | the owned tree has exactly as many chapters as the native tree announces through its counts |
| Chapters.ConvertForestPreservesSize | matroska.go:163-168 | the whole converted forest has exactly as many chapters as the native forest announces |
| Chapters.ConvertPreservesChildrenSize | matroska.go:166-168 | the first `k` converted children hold as many chapters as the first `k` native children |
| Chapters.ConvertToNative | matroska.go:155-220 | every owned chapter tree is what the conversion makes of its native description (counts equal to lengths) |
| Chapters.NativeToConvert | matroska.go:155-220 | describing a converted tree natively gives back the input with everything beyond its counts cut off, so nothing the counts announce is lost |
| Chapters.ConvertIgnoresTail | matroska.go:155-220 | entries beyond the counts are never read: cutting them off does not change the result |
| Metadata.AttachmentsOf | matroska.go:147-150 | `count` attachments, each the copy of the native one at the same index |
| Metadata.CuesOf | matroska.go:307-310 | `count` cues, each the copy of the native one at the same index |
| Metadata.ConvertTag | matroska.go:258-282 | a tag has `nTargets` targets and `nSimpleTags` simple tags, each the copy of the native one at the same index |
| Metadata.TagsOf | matroska.go:256-283 | `count` tags, each the conversion of the native one at the same index |
| Metadata.ConvertTagToNative | matroska.go:256-283 | every owned tag is the conversion of its native description |
| Metadata.NativeTagToConvert | matroska.go:256-283 | describing a converted tag natively gives back the input cut at its counts, and the entries beyond the counts are never read |
| Metadata.TagsRoundTrip | matroska.go:256-283 | a list of tags described natively converts back to itself |
| Demux.FuzzyArg | matroska.go:350-355 | the engine receives 1 exactly for a fuzzy seek and 0 exactly for a plain one |
| Demux.PacketOf | matroska.go:389-407 | status -1 is the end of the stream, and only it; status 0 is a packet, and only it; any other status is "could not read packet: " and the error buffer's text; a packet carries exactly `frameSize` bytes of the frame and the engine's other outputs, with the track cut to 8 bits |
| Demux.MatroskaFile.constructor | matroska.go:61 | an opened session has received exactly the open call with the demuxer's flags |
| Demux.Demuxer.constructor | matroska.go:39-69 | a new demuxer holds its key, session, IO, registry and heap, and its error buffer is empty |
| Demux.Demuxer.Close | matroska.go:85-90 | the session receives its close call, the three allocations are freed and the key is unregistered |
| Demux.Demuxer.GetNumTracks | matroska.go:93-100 | an error exactly when the engine reports zero tracks, carrying the error buffer's text; otherwise the count |
| Demux.Demuxer.GetTrackInfo | matroska.go:104-112 | an error exactly when the engine has no info for the track number cut to 32 bits; otherwise its copy |
| Demux.Demuxer.GetFileInfo | matroska.go:116-124 | an error exactly when the engine has no file info; otherwise its copy |
| Demux.Demuxer.GetAttachments | matroska.go:128-153 | never an error: the conversion of the engine's listing, empty when it lists none |
| Demux.Demuxer.GetChapters | matroska.go:224-235 | never an error: the conversion of the engine's chapter forest, empty when it lists none |
| Demux.Demuxer.GetTags | matroska.go:239-286 | never an error: the conversion of the engine's tags with their inner loops, empty when it lists none |
| Demux.Demuxer.GetCues | matroska.go:290-313 | never an error: the conversion of the engine's cues, empty when it lists none |
| Demux.Demuxer.SeekCueAware | matroska.go:349-356 | the engine receives the timecode, the flags and the fuzzy flag as 1 or 0 |
| Demux.Demuxer.ReadPacketMask | matroska.go:378-408 | one frame read with the mask is logged, and the answer is `PacketOf` of the engine's reply |
| Demux.Demuxer.ReadPacket | matroska.go:411-413 | behaves exactly as `ReadPacketMask(0)` |
| Demux.NewDemuxerWithFlag | matroska.go:38-70 | the reader is registered on every path; success exactly when both allocations and the open succeed; each failure gives its own message and frees everything allocated so far; success holds errbuf, IO and session, with the IO carrying the key |
| Demux.NewDemuxer | matroska.go:73-75 | everything `NewDemuxerWithFlag` promises, with the seekable reader registered as is and the session opened without flags: the failure messages, the heap, and on success the engine's replies, an empty error buffer and a zeroed IO position |
| Demux.NewStreamingDemuxer | matroska.go:79-82 | everything `NewDemuxerWithFlag` promises, with the reader registered behind a fakeSeeker and the session opened with the avoid-seeks flag; every seek callback on it answers -1 |
| Demux.OpenThenClose | matroska.go:38-90 | opening and then closing leaves the heap as it was and the registry as it was, while a failed open leaves the reader registered |

## Left out

- The parsing engine (`mkv_*`, declared in MatroskaParser.h). MatroskaParser.h is not part of this model. Its answers are parameters, and the reads and seeks it makes through the callbacks while opening or demuxing are not modelled.
- The engine passthroughs `Seek`, `SkipToKeyframe`, `SetTrackMask`, `GetLowestQTimecode`, `GetSegment`, `GetSegmentTop`, `GetCuesPos` and `GetCuesTopPos`. Each is a single forwarded call with nothing of its own to state.
- The `convert*` helpers. They are defined elsewhere in the package and are modelled in `Types` as plain field copies.
- Most fields of the track and segment records. `Types.TrackInfo` keeps only the number, type, UID, codec ID, codec private data, name and language. It drops TrackOverlay, MinCache, MaxCache, DefaultDuration, CodecDelay, SeekPreRoll, CompMethod, CompMethodPrivate, MaxBlockAdditionID, Enabled, Default, Forced, Lacing, DecodeAll, CompEnabled and the whole Video and Audio parts (types.go:65-220). `Types.SegmentInfo` keeps only the UID, title, muxing and writing applications, timecode scale and duration. It drops PrevUID, NextUID, Filename, PrevFilename, NextFilename, DateUTC and DateUTCValid (types.go:223-254). Its `[16]byte` UID is an unbounded byte sequence. These fields are copied by the helpers and carry no logic of the wrapper's own.
- The read/write mutex around the registry, and concurrency in general. The registry is modelled sequentially.
- UUID generation. The key is a parameter, assumed to be 36 NUL-free characters that no live allocation already uses.
- `geterror`, `memalloc`, `memrealloc`, `memfree` and `io_free` (io.c:46-64, io.c:96-99). They are constant or plain `malloc`/`free` wrappers. Freeing shows only as the removal of an `Allocation` from `NativeHeap`.
- The `reflect.SliceHeader`, `C.GoString` and `C.GoBytes` reinterpretation of raw memory. Native arrays are sequences with a count, which must not exceed the length.
- Demux.PacketOf: frames of 2^31 bytes or more are excluded by the `EngineFrame` type. For them `C.int(frameSize)` wraps and `C.GoBytes` fails, which is not modelled.
- Demux.Demuxer.ReadPacketMask: when the engine writes its error buffer beyond "on a non-zero frame status" is not known, so the model writes it exactly then.
- Go pointer identity of the returned `*Chapter`, `*Tag`, `*Cue` and `*Attachment` values. They are modelled as values. Each `*Tag` is freshly allocated by `new(Tag)` (matroska.go:258). For `*Chapter`, `*Cue` and `*Attachment` the absence of aliasing rests on the `convert*` helpers, which are defined elsewhere.
- IoC.IoRead: the C `int count` of io.c:16 is modelled as a natural number. A negative count passes the `count == 0` test of io.c:18 and reaches io.go:70 as a negative slice length; that case is not modelled. The same holds for IoC.IoReadTracked and IoC.IoReadStep.
- IoGo.CReadCallback: the C `int size` of io.go:59 is modelled as a natural number, so a negative size (a negative slice length at io.go:70) is not modelled.
- Readers.Reader: a reader position beyond 2^63 is not modelled as an `int64` wrap. Positions are unbounded naturals.
- Calls on a closed demuxer, and a nil demuxer.

## Findings

| source | as written | input that shows it | evidently intended | confidence | as-written member | corrected member |
|---|---|---|---|---|---|---|
| io.c:31 | after a successful read, `cc->pos` advances by the requested `count`, even when the reader delivered fewer bytes | a fakeSeeker source (streaming demuxer) that answers 100 of 150 requested bytes: the cache says 150 while the reader is at 100, so a request for position 100 must seek, and it fails with -1 | advance the cache by the returned count `ret` | medium, not executed | IoC.ShortReadLosesSync | IoC.IoReadTracked |
