/**
 * matroska.go's `processChapters`: the engine's chapter forest, a C array of
 * `count` records each pointing at arrays of tracks, displays, processes (each with
 * its commands) and child chapters, is copied into owned Go values. Only the first
 * `count` entries of each array are read, and a chapter's children are copied only
 * when it has any.
 */
module Chapters {
  import opened Widths
  import opened Types

  // ---- the native forest the engine hands out ----

  /** Every count of the chapter, and of each chapter below it, fits the array it describes. */
  predicate WellFormed(c: NativeChapter)
    decreases c
  {
    && c.nTracks <= |c.tracks|
    && c.nDisplay <= |c.display|
    && c.nProcess <= |c.process|
    && c.nChildren <= |c.children|
    && (forall j :: 0 <= j < c.nProcess ==> c.process[j].nCommands <= |c.process[j].commands|)
    && (forall j :: 0 <= j < c.nChildren ==> WellFormed(c.children[j]))
  }

  predicate WellFormedForest(cs: seq<NativeChapter>, count: nat) {
    count <= |cs| && forall i :: 0 <= i < count ==> WellFormed(cs[i])
  }

  /** The number of chapters in the tree rooted at `c`, counting only the children the counts announce. */
  function Size(c: NativeChapter): nat
    requires WellFormed(c)
    decreases c, 1
  {
    1 + ChildrenSize(c, c.nChildren)
  }

  function ChildrenSize(c: NativeChapter, k: nat): nat
    requires WellFormed(c) && k <= c.nChildren
    decreases c, 0, k
  {
    if k == 0 then 0 else ChildrenSize(c, k - 1) + Size(c.children[k - 1])
  }

  /** The number of chapters in the first `count` trees of a forest. */
  function ForestSize(cs: seq<NativeChapter>, count: nat): nat
    requires WellFormedForest(cs, count)
  {
    if count == 0 then 0 else ForestSize(cs, count - 1) + Size(cs[count - 1])
  }

  // ---- the conversion, as a function ----

  function ConvertProcess(p: NativeChapterProcess): ChapterProcess
    requires p.nCommands <= |p.commands|
  {
    ConvertPartialChapterProcess(p).(commands :=
      seq(p.nCommands, k requires 0 <= k < p.nCommands => ConvertChapterCommand(p.commands[k])))
  }

  /** The owned chapter `processChapters` builds from one native record. */
  function Convert(c: NativeChapter): Chapter
    requires WellFormed(c)
    decreases c
  {
    ConvertPartialChapter(c).(
      children := if c.nChildren > 0
        then seq(c.nChildren, j requires 0 <= j < c.nChildren => Convert(c.children[j]))
        else [],
      tracks := c.tracks[..c.nTracks],
      display := seq(c.nDisplay, j requires 0 <= j < c.nDisplay => ConvertChapterDisplay(c.display[j])),
      process := seq(c.nProcess, j requires 0 <= j < c.nProcess => ConvertProcess(c.process[j])))
  }

  function ConvertForest(cs: seq<NativeChapter>, count: nat): seq<Chapter>
    requires WellFormedForest(cs, count)
  {
    seq(count, i requires 0 <= i < count => Convert(cs[i]))
  }

  // ---- the conversion, as processChapters performs it ----

  /**
   * Fills a `count`-long result index by index: the scalar fields first, then the
   * children by recursion, then the tracks, displays and processes (each process's
   * commands in an inner loop).
   */
  method ProcessChapters(chapters: seq<NativeChapter>, count: nat) returns (ret: seq<Chapter>)
    requires WellFormedForest(chapters, count)
    ensures ret == ConvertForest(chapters, count)
    decreases ForestSize(chapters, count)
  {
    var out := new Chapter[count];
    for i := 0 to count
      invariant forall m :: 0 <= m < i ==> out[m] == Convert(chapters[m])
    {
      var c := chapters[i];
      var ch := ConvertPartialChapter(c);
      if c.nChildren > 0 {
        ChildForestSmaller(chapters, count, i);
        var kids := ProcessChapters(c.children, c.nChildren);
        ch := ch.(children := kids);
      }
      var tracks := CopyTracks(c);
      ch := ch.(tracks := tracks);
      var display := CopyDisplays(c);
      ch := ch.(display := display);
      var process := CopyProcesses(c);
      ch := ch.(process := process);
      ConvertFromParts(c, ch);
      out[i] := ch;
    }
    ret := out[..];
  }

  /** A chapter assembled from correctly converted parts is the conversion of its record. */
  lemma ConvertFromParts(c: NativeChapter, ch: Chapter)
    requires WellFormed(c)
    requires ch == ConvertPartialChapter(c).(children := ch.children, tracks := ch.tracks,
                                             display := ch.display, process := ch.process)
    requires c.nChildren > 0 ==> ch.children == ConvertForest(c.children, c.nChildren)
    requires c.nChildren == 0 ==> ch.children == []
    requires ch.tracks == c.tracks[..c.nTracks]
    requires |ch.display| == c.nDisplay
    requires forall j :: 0 <= j < c.nDisplay ==> ch.display[j] == ConvertChapterDisplay(c.display[j])
    requires |ch.process| == c.nProcess
    requires forall j :: 0 <= j < c.nProcess ==> ch.process[j] == ConvertProcess(c.process[j])
    ensures ch == Convert(c)
  {
  }

  /** The track loop of processChapters: the first `nTracks` track numbers. */
  method CopyTracks(c: NativeChapter) returns (tracks: seq<uint64>)
    requires c.nTracks <= |c.tracks|
    ensures tracks == c.tracks[..c.nTracks]
  {
    var a := new uint64[c.nTracks];
    for j := 0 to c.nTracks
      invariant forall m :: 0 <= m < j ==> a[m] == c.tracks[m]
    {
      a[j] := c.tracks[j];
    }
    tracks := a[..];
  }

  /** The display loop of processChapters: the first `nDisplay` displays, each copied. */
  method CopyDisplays(c: NativeChapter) returns (display: seq<ChapterDisplay>)
    requires c.nDisplay <= |c.display|
    ensures |display| == c.nDisplay
    ensures forall j :: 0 <= j < c.nDisplay ==> display[j] == ConvertChapterDisplay(c.display[j])
  {
    var a := new ChapterDisplay[c.nDisplay];
    for j := 0 to c.nDisplay
      invariant forall m :: 0 <= m < j ==> a[m] == ConvertChapterDisplay(c.display[m])
    {
      a[j] := ConvertChapterDisplay(c.display[j]);
    }
    display := a[..];
  }

  /** The process loop of processChapters, with its inner command loop. */
  method CopyProcesses(c: NativeChapter) returns (process: seq<ChapterProcess>)
    requires c.nProcess <= |c.process|
    requires forall j :: 0 <= j < c.nProcess ==> c.process[j].nCommands <= |c.process[j].commands|
    ensures |process| == c.nProcess
    ensures forall j :: 0 <= j < c.nProcess ==> process[j] == ConvertProcess(c.process[j])
  {
    var a := new ChapterProcess[c.nProcess];
    for j := 0 to c.nProcess
      invariant forall m :: 0 <= m < j ==> a[m] == ConvertProcess(c.process[m])
    {
      var p := c.process[j];
      var commands := new ChapterCommand[p.nCommands];
      for k := 0 to p.nCommands
        modifies commands
        invariant forall m :: 0 <= m < k ==> commands[m] == ConvertChapterCommand(p.commands[m])
      {
        commands[k] := ConvertChapterCommand(p.commands[k]);
      }
      assert commands[..] == ConvertProcess(p).commands;
      a[j] := ConvertPartialChapterProcess(p).(commands := commands[..]);
    }
    process := a[..];
  }

  // ---- properties ----

  lemma {:induction false} ChildrenSizeIsForestSize(c: NativeChapter, k: nat)
    requires WellFormed(c) && k <= c.nChildren
    ensures WellFormedForest(c.children, k)
    ensures ChildrenSize(c, k) == ForestSize(c.children, k)
  {
    if k > 0 {
      ChildrenSizeIsForestSize(c, k - 1);
    }
  }

  lemma {:induction false} ForestSizeCovers(cs: seq<NativeChapter>, count: nat, i: nat)
    requires WellFormedForest(cs, count) && i < count
    ensures Size(cs[i]) <= ForestSize(cs, count)
  {
    if i < count - 1 {
      ForestSizeCovers(cs, count - 1, i);
    }
  }

  /** The children of any chapter of a forest form a strictly smaller forest: the recursion terminates. */
  lemma ChildForestSmaller(cs: seq<NativeChapter>, count: nat, i: nat)
    requires WellFormedForest(cs, count) && i < count
    ensures WellFormedForest(cs[i].children, cs[i].nChildren)
    ensures ForestSize(cs[i].children, cs[i].nChildren) < ForestSize(cs, count)
  {
    ChildrenSizeIsForestSize(cs[i], cs[i].nChildren);
    ForestSizeCovers(cs, count, i);
  }

  /** The number of chapters in an owned tree. */
  function TreeSize(ch: Chapter): nat
    decreases ch, 1
  {
    1 + KidsSize(ch, |ch.children|)
  }

  function KidsSize(ch: Chapter, k: nat): nat
    requires k <= |ch.children|
    decreases ch, 0, k
  {
    if k == 0 then 0 else KidsSize(ch, k - 1) + TreeSize(ch.children[k - 1])
  }

  /** Every chapter the counts announce is copied, and none is invented. */
  lemma {:induction false} ConvertPreservesSize(c: NativeChapter)
    requires WellFormed(c)
    ensures TreeSize(Convert(c)) == Size(c)
    decreases c, 1
  {
    ConvertPreservesChildrenSize(c, c.nChildren);
  }

  lemma {:induction false} ConvertPreservesChildrenSize(c: NativeChapter, k: nat)
    requires WellFormed(c) && k <= c.nChildren
    ensures k <= |Convert(c).children|
    ensures KidsSize(Convert(c), k) == ChildrenSize(c, k)
    decreases c, 0, k
  {
    if k > 0 {
      ConvertPreservesChildrenSize(c, k - 1);
      ConvertPreservesSize(c.children[k - 1]);
    }
  }

  /** The number of chapters in an owned forest. */
  function TreesSize(chs: seq<Chapter>): nat {
    if chs == [] then 0 else TreesSize(chs[..|chs| - 1]) + TreeSize(chs[|chs| - 1])
  }

  /** The whole converted forest has exactly as many chapters as the native forest announces. */
  lemma {:induction false} ConvertForestPreservesSize(cs: seq<NativeChapter>, count: nat)
    requires WellFormedForest(cs, count)
    ensures TreesSize(ConvertForest(cs, count)) == ForestSize(cs, count)
  {
    if count > 0 {
      var f := ConvertForest(cs, count);
      assert f[..count - 1] == ConvertForest(cs, count - 1);
      ConvertForestPreservesSize(cs, count - 1);
      ConvertPreservesSize(cs[count - 1]);
    }
  }

  /** The forest as the engine would describe an owned chapter tree: every count is its array's length. */
  function ToNative(ch: Chapter): NativeChapter
    decreases ch
  {
    NativeChapter(ch.uid, ch.start, ch.end,
      |ch.tracks|, ch.tracks,
      |ch.display|, seq(|ch.display|, j requires 0 <= j < |ch.display| =>
        NativeChapterDisplay(ch.display[j].text, ch.display[j].language, ch.display[j].country)),
      |ch.children|, seq(|ch.children|, j requires 0 <= j < |ch.children| => ToNative(ch.children[j])),
      |ch.process|, seq(|ch.process|, j requires 0 <= j < |ch.process| => ProcessToNative(ch.process[j])),
      ch.segmentUid, ch.hidden, ch.enabled, ch.isDefault, ch.ordered)
  }

  function ProcessToNative(p: ChapterProcess): NativeChapterProcess {
    NativeChapterProcess(p.codecId, p.codecPrivate, |p.commands|,
      seq(|p.commands|, k requires 0 <= k < |p.commands| =>
        NativeChapterCommand(p.commands[k].time, p.commands[k].command)))
  }

  /** A native chapter cut down to what its counts announce, at every level. */
  function Trim(c: NativeChapter): NativeChapter
    requires WellFormed(c)
    decreases c
  {
    c.(tracks := c.tracks[..c.nTracks],
       display := c.display[..c.nDisplay],
       children := seq(c.nChildren, j requires 0 <= j < c.nChildren => Trim(c.children[j])),
       process := seq(c.nProcess, j requires 0 <= j < c.nProcess => TrimProcess(c.process[j])))
  }

  function TrimProcess(p: NativeChapterProcess): NativeChapterProcess
    requires p.nCommands <= |p.commands|
  {
    p.(commands := p.commands[..p.nCommands])
  }

  /** Every owned chapter tree is what processChapters makes of its native description. */
  lemma {:induction false} ConvertToNative(ch: Chapter)
    ensures WellFormed(ToNative(ch))
    ensures Convert(ToNative(ch)) == ch
    decreases ch
  {
    var n := ToNative(ch);
    forall j | 0 <= j < |ch.children|
      ensures WellFormed(n.children[j]) && Convert(n.children[j]) == ch.children[j]
    {
      ConvertToNative(ch.children[j]);
    }
    assert WellFormed(n);
    var r := Convert(n);
    assert r.children == ch.children;
    assert r.tracks == ch.tracks;
    assert r.display == ch.display;
    forall j | 0 <= j < |ch.process|
      ensures r.process[j] == ch.process[j]
    {
      assert r.process[j].commands == ch.process[j].commands;
    }
  }

  /**
   * Converting loses nothing the counts announce: describing the result natively gives
   * back the input with everything beyond the counts cut off.
   */
  lemma {:induction false} NativeToConvert(c: NativeChapter)
    requires WellFormed(c)
    ensures ToNative(Convert(c)) == Trim(c)
    decreases c
  {
    var r := ToNative(Convert(c));
    var t := Trim(c);
    forall j | 0 <= j < c.nChildren
      ensures r.children[j] == t.children[j]
    {
      NativeToConvert(c.children[j]);
    }
    assert r.children == t.children;
    assert r.display == t.display;
    forall j | 0 <= j < c.nProcess
      ensures r.process[j] == t.process[j]
    {
      assert r.process[j].commands == t.process[j].commands;
    }
    assert r.process == t.process;
  }

  /** What lies beyond the counts is never read. */
  lemma {:induction false} ConvertIgnoresTail(c: NativeChapter)
    requires WellFormed(c)
    ensures WellFormed(Trim(c))
    ensures Convert(Trim(c)) == Convert(c)
    decreases c
  {
    var t := Trim(c);
    forall j | 0 <= j < c.nChildren
      ensures WellFormed(t.children[j]) && Convert(t.children[j]) == Convert(c.children[j])
    {
      ConvertIgnoresTail(c.children[j]);
    }
    assert WellFormed(t);
    assert Convert(t).children == Convert(c).children;
    forall j | 0 <= j < c.nProcess
      ensures ConvertProcess(t.process[j]) == ConvertProcess(c.process[j])
    {
      assert ConvertProcess(t.process[j]).commands == ConvertProcess(c.process[j]).commands;
    }
    assert Convert(t).process == Convert(c).process;
  }
}
