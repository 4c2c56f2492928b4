/**
 * matroska.go: the Demuxer. It owns a registry entry for its reader, an error buffer,
 * a C `struct IO` and the engine's session, and translates the engine's answers into
 * owned Go values. The engine (`mkv_*`) is not modelled: its answers are fixed replies
 * chosen when the file is opened, and the calls that change its state are logged.
 */
module Demux {
  import opened Outcomes
  import opened Widths
  import opened Readers
  import opened Util
  import opened IoGo
  import opened IoC
  import opened Types
  import opened Chapters
  import opened Metadata

  /** The error buffer handed to the engine (matroska.go:45, matroska.go:61). */
  const ERRBUF_SIZE: nat := 1024

  const ErrNoErrbuf := "could not allocate errbuf"
  const ErrNoIo := "could not allocate io struct"
  const OpenFailedPrefix := "couldn't open matroska file: "
  const NumTracksPrefix := "couldn't get number of tracks: "
  const TrackInfoPrefix := "could not get track info: "
  const FileInfoPrefix := "could not get file info: "
  const ReadFailedPrefix := "could not read packet: "

  /** The `flags` argument of `mkv_OpenEx`: 0, or `MKVF_AVOID_SEEKS` for a source that cannot seek. */
  datatype OpenFlags = NoFlags | AvoidSeeks

  /** The engine entry points that change the engine's state, as the engine receives them. */
  datatype Call =
    | OpenEx(flags: OpenFlags)
    | ReadFrame(mask: uint64)
    | SeekCueAware(timecode: uint64, seekFlags: uint32, fuzzy: uint32)
    | CloseFile

  /** What `mkv_ReadFrame` hands back; `message` is what it writes into the error buffer when it fails. */
  datatype FrameReply = FrameReply(
    status: cint, track: uint32, startTime: uint64, endTime: uint64, filePos: uint64,
    frameSize: uint32, frameData: seq<uint8>, frameFlags: uint32, discard: int64, message: string)

  /** The engine's frame buffer holds `frameSize` bytes, and `C.int(frameSize)` does not wrap. */
  type EngineFrame = f: FrameReply | f.frameSize <= |f.frameData| && f.frameSize <= INT_MAX
    witness FrameReply(0, 0, 0, 0, 0, 0, [], 0, 0, "")

  /**
   * The engine's answers about an opened file. `readFrame` answers a `mkv_ReadFrame`
   * from the calls made so far and the mask; the listings are count-plus-array.
   */
  datatype Replies = Replies(
    numTracks: uint32,
    trackInfo: uint32 -> Option<NativeTrackInfo>,
    fileInfo: Option<NativeSegmentInfo>,
    nAttachments: nat, attachments: seq<NativeAttachment>,
    nChapters: nat, chapters: seq<NativeChapter>,
    nTags: nat, tags: seq<NativeTag>,
    nCues: nat, cues: seq<NativeCue>,
    readFrame: (seq<Call>, uint64) -> EngineFrame)

  /** The engine's listings are consistent with their counts. */
  predicate RepliesValid(r: Replies) {
    && r.nAttachments <= |r.attachments|
    && WellFormedForest(r.chapters, r.nChapters)
    && TagsWellFormed(r.tags, r.nTags)
    && r.nCues <= |r.cues|
  }

  /** The engine session `mkv_OpenEx` returns (`*C.MatroskaFile`). */
  class MatroskaFile {
    const replies: Replies
    var calls: seq<Call>

    constructor (replies: Replies, flags: OpenFlags)
      ensures this.replies == replies && calls == [OpenEx(flags)]
    {
      this.replies := replies;
      calls := [OpenEx(flags)];
    }
  }

  /** Native memory the wrapper allocates, tagged with the key of the demuxer that owns it. */
  datatype Allocation = ErrBuf(key: string) | IoStruct(key: string) | CKey(key: string) | File(key: string)

  /** The C heap, as far as the wrapper's own allocations go. */
  class NativeHeap {
    var live: set<Allocation>

    constructor ()
      ensures live == {}
    {
      live := {};
    }
  }

  /** How `mkv_OpenEx` ends: with a session, or with a message in the error buffer. */
  datatype EngineOpen = Opened(replies: Replies) | OpenFailed(message: string)

  /**
   * What the environment decides while a demuxer is created: the key `uuid.New()`
   * produces, whether the two allocations succeed, and how the engine's open ends.
   */
  datatype OpenEnv = OpenEnv(key: string, errbufAllocated: bool, ioAllocated: bool, engine: EngineOpen)

  /** A key as `uuid.New()` writes it: 36 characters, none of them NUL. */
  predicate IsUuid(key: string) {
    |key| == 36 && NulFree(key)
  }

  /** The three allocations an open demuxer holds. */
  function Held(key: string): set<Allocation> {
    {ErrBuf(key), IoStruct(key), File(key)}
  }

  /** The `uint(...)` / `C.unsigned(...)` conversion of `SeekCueAware`'s flag: 1 for a fuzzy seek, 0 otherwise. */
  function FuzzyArg(fuzzy: bool): (f: uint32)
    ensures f == 1 <==> fuzzy
    ensures f == 0 <==> !fuzzy
  {
    if fuzzy then 1 else 0
  }

  /** Why `ReadPacketMask` returns no packet: the end of the stream (`io.EOF`) or an engine error. */
  datatype PacketError = EndOfStream | ReadFailure(message: string)

  /** The translation of `mkv_ReadFrame`'s status and out-parameters (matroska.go:389-407). */
  function PacketOf(reply: EngineFrame, errbuf: string): (r: Result<Packet, PacketError>)
    ensures r == Err(EndOfStream) <==> reply.status == -1
    ensures r.Ok? <==> reply.status == 0
    ensures r.Err? && reply.status != -1 ==> r.error == ReadFailure(ReadFailedPrefix + GoString(errbuf))
    ensures r.Ok? ==> |r.value.data| == reply.frameSize && r.value.data == reply.frameData[..reply.frameSize]
    ensures r.Ok? ==>
      && r.value.track == Uint8Of(reply.track) && r.value.startTime == reply.startTime
      && r.value.endTime == reply.endTime && r.value.filePos == reply.filePos
      && r.value.flags == reply.frameFlags && r.value.discard == reply.discard
  {
    if reply.status == -1 then Err(EndOfStream)
    else if reply.status != 0 then Err(ReadFailure(ReadFailedPrefix + GoString(errbuf)))
    else Ok(Packet(Uint8Of(reply.track), reply.startTime, reply.endTime, reply.filePos,
                   reply.frameData[..reply.frameSize], reply.frameFlags, reply.discard))
  }

  /** The error buffer after a `mkv_ReadFrame`: the engine writes its message when it fails. */
  function ErrbufAfter(reply: FrameReply, errbuf: string): string {
    if reply.status != 0 then reply.message else errbuf
  }

  class Demuxer {
    const key: string
    const m: MatroskaFile
    const io: IO
    /** The text in the error buffer, as `C.GoString` reads it. */
    var errbuf: string
    /** The package-global `ioTable` this demuxer registered its reader in. */
    const registry: IoTable
    const heap: NativeHeap

    /** An open demuxer: its reader is registered, its IO carries its key, and it holds its allocations. */
    predicate Valid()
      reads this, io, io.key, registry, heap
    {
      && RepliesValid(m.replies)
      && io.Valid() && io.installed && io.Key() == key
      && key in registry.table
      && Held(key) <= heap.live
    }

    constructor (key: string, m: MatroskaFile, io: IO, registry: IoTable, heap: NativeHeap)
      ensures this.key == key && this.m == m && this.io == io
      ensures this.registry == registry && this.heap == heap && errbuf == ""
    {
      this.key := key;
      this.m := m;
      this.io := io;
      this.registry := registry;
      this.heap := heap;
      errbuf := "";
    }

    /** `Close` (matroska.go:85-90): closes the session, frees the session, the IO struct and the error buffer, and unregisters the reader. */
    method Close()
      requires Valid()
      modifies m, heap, registry
      ensures m.calls == old(m.calls) + [CloseFile]
      ensures heap.live == old(heap.live) - Held(key)
      ensures registry.table == old(registry.table) - {key}
    {
      m.calls := m.calls + [CloseFile];
      heap.live := heap.live - {File(key)};
      heap.live := heap.live - {IoStruct(key)};
      heap.live := heap.live - {ErrBuf(key)};
      registry.DelReader(key);
    }

    /** `GetNumTracks` (matroska.go:93-100): zero tracks is an error. */
    method GetNumTracks() returns (res: Result<nat, string>)
      requires Valid()
      ensures res.Ok? <==> m.replies.numTracks > 0
      ensures res.Ok? ==> res.value == m.replies.numTracks
      ensures res.Err? ==> res.error == NumTracksPrefix + GoString(errbuf)
    {
      var ret := m.replies.numTracks;
      if ret <= 0 {
        var reason := GoString(errbuf);
        return Err(NumTracksPrefix + reason);
      }
      return Ok(ret);
    }

    /** `GetTrackInfo` (matroska.go:104-112); `C.unsigned(track)` keeps the low 32 bits. */
    method GetTrackInfo(track: uint64) returns (res: Result<TrackInfo, string>)
      requires Valid()
      ensures res.Ok? <==> m.replies.trackInfo(track % 0x1_0000_0000).Some?
      ensures res.Ok? ==> res.value == ConvertTrackInfo(m.replies.trackInfo(track % 0x1_0000_0000).value)
      ensures res.Err? ==> res.error == TrackInfoPrefix + GoString(errbuf)
    {
      var ti := m.replies.trackInfo(track % 0x1_0000_0000);
      if ti.None? {
        var reason := GoString(errbuf);
        return Err(TrackInfoPrefix + reason);
      }
      return Ok(ConvertTrackInfo(ti.value));
    }

    /** `GetFileInfo` (matroska.go:116-124). */
    method GetFileInfo() returns (res: Result<SegmentInfo, string>)
      requires Valid()
      ensures res.Ok? <==> m.replies.fileInfo.Some?
      ensures res.Ok? ==> res.value == ConvertSegmentInfo(m.replies.fileInfo.value)
      ensures res.Err? ==> res.error == FileInfoPrefix + GoString(errbuf)
    {
      var si := m.replies.fileInfo;
      if si.None? {
        var reason := GoString(errbuf);
        return Err(FileInfoPrefix + reason);
      }
      return Ok(ConvertSegmentInfo(si.value));
    }

    /** `GetAttachments` (matroska.go:128-153): never an error; empty when the engine lists none. */
    method GetAttachments() returns (ret: seq<Attachment>)
      requires Valid()
      ensures ret == AttachmentsOf(m.replies.attachments, m.replies.nAttachments)
    {
      var count := m.replies.nAttachments;
      if count == 0 {
        return [];
      }
      var attachments := m.replies.attachments;
      var a := new Attachment[count];
      for i := 0 to count
        invariant forall k :: 0 <= k < i ==> a[k] == ConvertAttachment(attachments[k])
      {
        a[i] := ConvertAttachment(attachments[i]);
      }
      ret := a[..];
    }

    /** `GetChapters` (matroska.go:224-235): never an error; empty when the engine lists none. */
    method GetChapters() returns (ret: seq<Chapter>)
      requires Valid()
      ensures ret == ConvertForest(m.replies.chapters, m.replies.nChapters)
    {
      var count := m.replies.nChapters;
      if count == 0 {
        return [];
      }
      ret := ProcessChapters(m.replies.chapters, count);
    }

    /** `GetTags` (matroska.go:239-286): each tag's targets, then its simple tags, in inner loops. */
    method GetTags() returns (ret: seq<Tag>)
      requires Valid()
      ensures ret == TagsOf(m.replies.tags, m.replies.nTags)
    {
      var count := m.replies.nTags;
      if count == 0 {
        return [];
      }
      var tags := m.replies.tags;
      var a := new Tag[count];
      for i := 0 to count
        invariant forall k :: 0 <= k < i ==> a[k] == ConvertTag(tags[k])
      {
        var t := tags[i];
        var targets := new Target[t.nTargets];
        for j := 0 to t.nTargets
          modifies targets
          invariant forall k :: 0 <= k < j ==> targets[k] == ConvertTarget(t.targets[k])
        {
          targets[j] := ConvertTarget(t.targets[j]);
        }
        var simpleTags := new SimpleTag[t.nSimpleTags];
        for j := 0 to t.nSimpleTags
          modifies simpleTags
          invariant forall k :: 0 <= k < j ==> simpleTags[k] == ConvertSimpleTag(t.simpleTags[k])
        {
          simpleTags[j] := ConvertSimpleTag(t.simpleTags[j]);
        }
        assert targets[..] == ConvertTag(t).targets;
        assert simpleTags[..] == ConvertTag(t).simpleTags;
        a[i] := Tag(targets[..], simpleTags[..]);
      }
      ret := a[..];
    }

    /** `GetCues` (matroska.go:290-313): never an error; empty when the engine lists none. */
    method GetCues() returns (ret: seq<Cue>)
      requires Valid()
      ensures ret == CuesOf(m.replies.cues, m.replies.nCues)
    {
      var count := m.replies.nCues;
      if count == 0 {
        return [];
      }
      var cues := m.replies.cues;
      var a := new Cue[count];
      for i := 0 to count
        invariant forall k :: 0 <= k < i ==> a[k] == ConvertCue(cues[k])
      {
        a[i] := ConvertCue(cues[i]);
      }
      ret := a[..];
    }

    /** `SeekCueAware` (matroska.go:349-356): the flag reaches the engine as 1 or 0. */
    method SeekCueAware(timecode: uint64, flags: uint32, fuzzy: bool)
      requires Valid()
      modifies m
      ensures m.calls == old(m.calls) + [Call.SeekCueAware(timecode, flags, FuzzyArg(fuzzy))]
      ensures fuzzy ==> m.calls[|m.calls| - 1].fuzzy == 1
      ensures !fuzzy ==> m.calls[|m.calls| - 1].fuzzy == 0
    {
      var f := 0;
      if fuzzy {
        f := 1;
      }
      m.calls := m.calls + [Call.SeekCueAware(timecode, flags, f)];
    }

    /** `ReadPacketMask` (matroska.go:378-408): one `mkv_ReadFrame`, its status translated three ways. */
    method ReadPacketMask(mask: uint64) returns (res: Result<Packet, PacketError>)
      requires Valid()
      modifies this, m
      ensures Valid()
      ensures m.calls == old(m.calls) + [ReadFrame(mask)]
      ensures errbuf == ErrbufAfter(m.replies.readFrame(old(m.calls), mask), old(errbuf))
      ensures res == PacketOf(m.replies.readFrame(old(m.calls), mask), errbuf)
    {
      var reply := m.replies.readFrame(m.calls, mask);
      m.calls := m.calls + [ReadFrame(mask)];
      errbuf := ErrbufAfter(reply, errbuf);
      if reply.status == -1 {
        return Err(EndOfStream);
      } else if reply.status != 0 {
        var reason := GoString(errbuf);
        return Err(ReadFailure(ReadFailedPrefix + reason));
      }
      var data := reply.frameData[..reply.frameSize];
      res := Ok(Packet(Uint8Of(reply.track), reply.startTime, reply.endTime, reply.filePos,
                       data, reply.frameFlags, reply.discard));
    }

    /** `ReadPacket` (matroska.go:411-413): `ReadPacketMask` with the empty mask. */
    method ReadPacket() returns (res: Result<Packet, PacketError>)
      requires Valid()
      modifies this, m
      ensures Valid()
      ensures m.calls == old(m.calls) + [ReadFrame(0)]
      ensures errbuf == ErrbufAfter(m.replies.readFrame(old(m.calls), 0), old(errbuf))
      ensures res == PacketOf(m.replies.readFrame(old(m.calls), 0), errbuf)
    {
      res := ReadPacketMask(0);
    }
  }

  /**
   * `newDemuxerWithFlag` (matroska.go:38-70). The reader is registered first and stays
   * registered on every failure path; each failure path frees what was allocated before it.
   */
  method NewDemuxerWithFlag(registry: IoTable, heap: NativeHeap, r: ReadSeeker, flags: OpenFlags, env: OpenEnv)
    returns (res: Result<Demuxer, string>)
    requires IsUuid(env.key)
    requires forall a :: a in heap.live ==> a.key != env.key
    requires env.engine.Opened? ==> RepliesValid(env.engine.replies)
    modifies registry, heap
    ensures registry.table == old(registry.table)[env.key := r]
    ensures res.Ok? <==> env.errbufAllocated && env.ioAllocated && env.engine.Opened?
    ensures !env.errbufAllocated ==> res == Err(ErrNoErrbuf)
    ensures env.errbufAllocated && !env.ioAllocated ==> res == Err(ErrNoIo)
    ensures env.errbufAllocated && env.ioAllocated && env.engine.OpenFailed? ==>
      res == Err(OpenFailedPrefix + GoString(env.engine.message))
    ensures res.Err? ==> heap.live == old(heap.live)
    ensures res.Ok? ==> heap.live == old(heap.live) + Held(env.key)
    ensures res.Ok? ==>
      && fresh(res.value) && fresh(res.value.m) && fresh(res.value.io) && fresh(res.value.io.key)
      && res.value.Valid() && res.value.key == env.key && res.value.errbuf == ""
      && res.value.registry == registry && res.value.heap == heap
      && res.value.m.replies == env.engine.replies && res.value.m.calls == [OpenEx(flags)]
      && res.value.io.pos == 0
  {
    var key := env.key;
    registry.AddReader(key, r);

    if !env.errbufAllocated {
      return Err(ErrNoErrbuf);
    }
    heap.live := heap.live + {ErrBuf(key)};

    if !env.ioAllocated {
      heap.live := heap.live - {ErrBuf(key)};
      return Err(ErrNoIo);
    }
    var io := new IO();
    heap.live := heap.live + {IoStruct(key)};

    // C.CString(key), released by the deferred free on both paths below.
    heap.live := heap.live + {CKey(key)};
    io.SetCallbacks(key);
    KeyRoundTrip(key);

    match env.engine
    case OpenFailed(message) =>
      var reason := GoString(message);
      heap.live := heap.live - {ErrBuf(key)};
      heap.live := heap.live - {IoStruct(key)};
      heap.live := heap.live - {CKey(key)};
      res := Err(OpenFailedPrefix + reason);
    case Opened(replies) =>
      var m := new MatroskaFile(replies, flags);
      heap.live := heap.live + {File(key)};
      heap.live := heap.live - {CKey(key)};
      var d := new Demuxer(key, m, io, registry, heap);
      res := Ok(d);
  }

  /** `NewDemuxer` (matroska.go:73-75): a seekable reader, opened without flags. */
  method NewDemuxer(registry: IoTable, heap: NativeHeap, r: Reader, env: OpenEnv)
    returns (res: Result<Demuxer, string>)
    requires IsUuid(env.key)
    requires forall a :: a in heap.live ==> a.key != env.key
    requires env.engine.Opened? ==> RepliesValid(env.engine.replies)
    modifies registry, heap
    ensures registry.table == old(registry.table)[env.key := Seeker(r)]
    ensures res.Ok? <==> env.errbufAllocated && env.ioAllocated && env.engine.Opened?
    ensures !env.errbufAllocated ==> res == Err(ErrNoErrbuf)
    ensures env.errbufAllocated && !env.ioAllocated ==> res == Err(ErrNoIo)
    ensures env.errbufAllocated && env.ioAllocated && env.engine.OpenFailed? ==>
      res == Err(OpenFailedPrefix + GoString(env.engine.message))
    ensures res.Err? ==> heap.live == old(heap.live)
    ensures res.Ok? ==> heap.live == old(heap.live) + Held(env.key)
    ensures res.Ok? ==>
      && fresh(res.value) && fresh(res.value.m) && fresh(res.value.io) && fresh(res.value.io.key)
      && res.value.Valid() && res.value.key == env.key && res.value.errbuf == ""
      && res.value.registry == registry && res.value.heap == heap
      && res.value.m.replies == env.engine.replies && res.value.m.calls == [OpenEx(NoFlags)]
      && res.value.io.pos == 0
  {
    res := NewDemuxerWithFlag(registry, heap, Seeker(r), NoFlags, env);
  }

  /**
   * `NewStreamingDemuxer` (matroska.go:79-82): the reader is wrapped in a fakeSeeker and
   * the engine is told to avoid seeking; every seek or size request it makes then fails.
   */
  method NewStreamingDemuxer(registry: IoTable, heap: NativeHeap, r: Reader, env: OpenEnv)
    returns (res: Result<Demuxer, string>)
    requires IsUuid(env.key)
    requires forall a :: a in heap.live ==> a.key != env.key
    requires env.engine.Opened? ==> RepliesValid(env.engine.replies)
    modifies registry, heap
    ensures registry.table == old(registry.table)[env.key := FakeSeeker(r)]
    ensures res.Ok? <==> env.errbufAllocated && env.ioAllocated && env.engine.Opened?
    ensures !env.errbufAllocated ==> res == Err(ErrNoErrbuf)
    ensures env.errbufAllocated && !env.ioAllocated ==> res == Err(ErrNoIo)
    ensures env.errbufAllocated && env.ioAllocated && env.engine.OpenFailed? ==>
      res == Err(OpenFailedPrefix + GoString(env.engine.message))
    ensures res.Err? ==> heap.live == old(heap.live)
    ensures res.Ok? ==> heap.live == old(heap.live) + Held(env.key)
    ensures res.Ok? ==>
      && fresh(res.value) && fresh(res.value.m) && fresh(res.value.io) && fresh(res.value.io.key)
      && res.value.Valid() && res.value.key == env.key && res.value.errbuf == ""
      && res.value.registry == registry && res.value.heap == heap
      && res.value.m.replies == env.engine.replies && res.value.m.calls == [OpenEx(AvoidSeeks)]
      && res.value.io.pos == 0
    ensures forall cpos: uint64, fault: bool ::
      SeekCallbackSpec(registry.table[env.key].Seeker?, r.pos, cpos, fault) == (-1, r.pos)
  {
    res := NewDemuxerWithFlag(registry, heap, FakeSeeker(r), AvoidSeeks, env);
  }

  /**
   * A demuxer opened and then closed leaves the native heap as it found it and its key
   * unregistered.
   */
  method OpenThenClose(registry: IoTable, heap: NativeHeap, r: Reader, env: OpenEnv)
    returns (wasOpen: bool)
    requires IsUuid(env.key)
    requires forall a :: a in heap.live ==> a.key != env.key
    requires env.engine.Opened? ==> RepliesValid(env.engine.replies)
    requires env.key !in registry.table
    modifies registry, heap
    ensures wasOpen <==> env.errbufAllocated && env.ioAllocated && env.engine.Opened?
    ensures heap.live == old(heap.live)
    ensures wasOpen ==> registry.table == old(registry.table)
    ensures !wasOpen ==> registry.table == old(registry.table)[env.key := Seeker(r)]
  {
    var res := NewDemuxer(registry, heap, r, env);
    wasOpen := res.Ok?;
    if wasOpen {
      var d := res.value;
      d.Close();
    }
  }
}
