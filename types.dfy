/**
 * The owned structures of types.go and the engine's native records they are copied
 * from. A native record keeps each variable-length part as a count plus a backing
 * sequence, which is how the engine lays them out; only the first `count` entries are
 * meaningful. The `convert*` helpers are defined elsewhere in the package; they are
 * modelled here as plain field copies.
 *
 * TrackInfo and SegmentInfo are reduced shapes. TrackInfo keeps the number, type, UID,
 * codec ID, codec private data, name and language; SegmentInfo keeps the UID, title,
 * muxing and writing applications, timecode scale and duration, with the 16-byte UID
 * as a sequence. Their other fields are not modelled.
 */
module Types {
  import opened Widths

  // ---- owned side (types.go) ----

  datatype Packet = Packet(
    track: uint8, startTime: uint64, endTime: uint64, filePos: uint64,
    data: seq<uint8>, flags: uint32, discard: int64)

  datatype TrackInfo = TrackInfo(
    number: uint8, trackType: uint8, uid: uint64, codecId: string, codecPrivate: seq<uint8>,
    name: string, language: string)

  datatype SegmentInfo = SegmentInfo(
    uid: seq<uint8>, title: string, muxingApp: string, writingApp: string,
    timecodeScale: uint64, duration: uint64)

  datatype Attachment = Attachment(
    position: uint64, length: uint64, uid: uint64, name: string, description: string, mimeType: string)

  datatype ChapterDisplay = ChapterDisplay(text: string, language: string, country: string)

  datatype ChapterCommand = ChapterCommand(time: uint32, command: seq<uint8>)

  datatype ChapterProcess = ChapterProcess(codecId: uint32, codecPrivate: seq<uint8>, commands: seq<ChapterCommand>)

  datatype Chapter = Chapter(
    uid: uint64, start: uint64, end: uint64,
    tracks: seq<uint64>, display: seq<ChapterDisplay>, children: seq<Chapter>, process: seq<ChapterProcess>,
    segmentUid: seq<uint8>, hidden: bool, enabled: bool, isDefault: bool, ordered: bool)

  datatype Cue = Cue(time: uint64, duration: uint64, position: uint64, relativePosition: uint64, block: uint64, track: uint8)

  datatype Target = Target(uid: uint64, targetType: uint32)

  datatype SimpleTag = SimpleTag(name: string, value: string, language: string, isDefault: bool)

  datatype Tag = Tag(targets: seq<Target>, simpleTags: seq<SimpleTag>)

  // ---- native side (the engine's records) ----

  datatype NativeTrackInfo = NativeTrackInfo(
    number: uint8, trackType: uint8, uid: uint64, codecId: string, codecPrivate: seq<uint8>,
    name: string, language: string)

  datatype NativeSegmentInfo = NativeSegmentInfo(
    uid: seq<uint8>, title: string, muxingApp: string, writingApp: string,
    timecodeScale: uint64, duration: uint64)

  datatype NativeAttachment = NativeAttachment(
    position: uint64, length: uint64, uid: uint64, name: string, description: string, mimeType: string)

  datatype NativeChapterDisplay = NativeChapterDisplay(text: string, language: string, country: string)

  datatype NativeChapterCommand = NativeChapterCommand(time: uint32, command: seq<uint8>)

  datatype NativeChapterProcess = NativeChapterProcess(
    codecId: uint32, codecPrivate: seq<uint8>, nCommands: nat, commands: seq<NativeChapterCommand>)

  datatype NativeChapter = NativeChapter(
    uid: uint64, start: uint64, end: uint64,
    nTracks: nat, tracks: seq<uint64>,
    nDisplay: nat, display: seq<NativeChapterDisplay>,
    nChildren: nat, children: seq<NativeChapter>,
    nProcess: nat, process: seq<NativeChapterProcess>,
    segmentUid: seq<uint8>, hidden: bool, enabled: bool, isDefault: bool, ordered: bool)

  datatype NativeCue = NativeCue(time: uint64, duration: uint64, position: uint64, relativePosition: uint64, block: uint64, track: uint8)

  datatype NativeTarget = NativeTarget(uid: uint64, targetType: uint32)

  datatype NativeSimpleTag = NativeSimpleTag(name: string, value: string, language: string, isDefault: bool)

  datatype NativeTag = NativeTag(
    nTargets: nat, targets: seq<NativeTarget>, nSimpleTags: nat, simpleTags: seq<NativeSimpleTag>)

  // ---- the field-copy helpers ----

  function ConvertTrackInfo(t: NativeTrackInfo): TrackInfo {
    TrackInfo(t.number, t.trackType, t.uid, t.codecId, t.codecPrivate, t.name, t.language)
  }

  function ConvertSegmentInfo(s: NativeSegmentInfo): SegmentInfo {
    SegmentInfo(s.uid, s.title, s.muxingApp, s.writingApp, s.timecodeScale, s.duration)
  }

  function ConvertAttachment(a: NativeAttachment): Attachment {
    Attachment(a.position, a.length, a.uid, a.name, a.description, a.mimeType)
  }

  function ConvertChapterDisplay(d: NativeChapterDisplay): ChapterDisplay {
    ChapterDisplay(d.text, d.language, d.country)
  }

  function ConvertChapterCommand(c: NativeChapterCommand): ChapterCommand {
    ChapterCommand(c.time, c.command)
  }

  /** Copies the scalar fields of a process; its commands are filled in by the caller. */
  function ConvertPartialChapterProcess(p: NativeChapterProcess): ChapterProcess {
    ChapterProcess(p.codecId, p.codecPrivate, [])
  }

  /** Copies the scalar fields of a chapter; tracks, display, children and processes are filled in by the caller. */
  function ConvertPartialChapter(c: NativeChapter): Chapter {
    Chapter(c.uid, c.start, c.end, [], [], [], [], c.segmentUid, c.hidden, c.enabled, c.isDefault, c.ordered)
  }

  function ConvertCue(c: NativeCue): Cue {
    Cue(c.time, c.duration, c.position, c.relativePosition, c.block, c.track)
  }

  function ConvertTarget(t: NativeTarget): Target {
    Target(t.uid, t.targetType)
  }

  function ConvertSimpleTag(t: NativeSimpleTag): SimpleTag {
    SimpleTag(t.name, t.value, t.language, t.isDefault)
  }
}
