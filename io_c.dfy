/**
 * io.c and io.h: the C `struct IO` the engine reads through. It caches the position the
 * reader was last left at (`pos`) and holds the registry key in a 37-byte buffer; its
 * read callback seeks only when a request does not start at the cached position.
 */
module IoC {
  import opened Outcomes
  import opened Widths
  import opened Readers
  import opened Util
  import opened IoGo

  /** Size of the `key` buffer of `struct IO` (io.h:9) and the most `strncpy` copies into it (io.c:78). */
  const KEY_BUFFER_SIZE: nat := 37
  const KEY_COPY_LIMIT: nat := 36

  /** `strlen`: the index of the first NUL, or the whole length when there is none. */
  function CLen(s: seq<char>): (n: nat)
    ensures n <= |s|
    ensures forall i :: 0 <= i < n ==> s[i] != '\0'
    ensures n < |s| ==> s[n] == '\0'
  {
    if s == [] || s[0] == '\0' then 0 else 1 + CLen(s[1..])
  }

  /** `C.GoString`: the characters before the first NUL. */
  function GoString(s: seq<char>): seq<char> {
    s[..CLen(s)]
  }

  /** A string without NUL characters. */
  predicate NulFree(s: seq<char>) {
    forall i :: 0 <= i < |s| ==> s[i] != '\0'
  }

  /**
   * The key buffer after `strncpy(key, src, 36)` into the zeroed 37-byte buffer of a
   * freshly allocated IO: the first characters of `src` up to its terminator or 36 of
   * them, then NULs.
   */
  function KeyBuffer(src: seq<char>): (b: seq<char>)
    ensures |b| == KEY_BUFFER_SIZE
  {
    seq(KEY_BUFFER_SIZE, i requires 0 <= i < KEY_BUFFER_SIZE =>
      if i < KEY_COPY_LIMIT && i < CLen(src) then src[i] else '\0')
  }

  /** A string's C length is the position of its first NUL, whichever way that position was found. */
  lemma CLenAt(s: seq<char>, m: nat)
    requires m <= |s|
    requires forall i :: 0 <= i < m ==> s[i] != '\0'
    requires m < |s| ==> s[m] == '\0'
    ensures CLen(s) == m
  {
  }

  /** Reading the key back out of the buffer yields the source string cut at 36 characters. */
  lemma KeyRoundTrip(src: seq<char>)
    ensures GoString(KeyBuffer(src)) == GoString(src)[..Min(KEY_COPY_LIMIT, CLen(src))]
    ensures NulFree(src) && |src| <= KEY_COPY_LIMIT ==> GoString(KeyBuffer(src)) == src
  {
    var b := KeyBuffer(src);
    var m := Min(KEY_COPY_LIMIT, CLen(src));
    assert b[m] == '\0';
    CLenAt(b, m);
    assert GoString(b) == GoString(src)[..m];
    if NulFree(src) {
      CLenAt(src, |src|);
    }
  }

  /** `struct IO` (io.h:6-10). The `InputStream` callback table is reduced to whether it was installed. */
  class IO {
    var pos: uint64
    const key: array<char>
    var installed: bool

    predicate Valid()
      reads this, key
    {
      key.Length == KEY_BUFFER_SIZE && key[KEY_BUFFER_SIZE - 1] == '\0'
    }

    /** The key the callbacks look up: `C.GoString(&cc->key[0])`. */
    function Key(): seq<char>
      reads key
    {
      GoString(key[..])
    }

    /** `io_alloc` (io.c:91-94): `calloc`, so everything starts zeroed. */
    constructor ()
      ensures Valid() && fresh(key) && pos == 0 && !installed
      ensures key[..] == seq(KEY_BUFFER_SIZE, _ => '\0')
    {
      key := new char[KEY_BUFFER_SIZE](_ => '\0');
      pos := 0;
      installed := false;
    }

    /** `io_set_callbacks` (io.c:75-89). The last byte of the buffer is never written, so it stays NUL. */
    method SetCallbacks(src: seq<char>)
      requires Valid()
      modifies this, key
      ensures Valid() && installed && pos == 0
      ensures key[..] == KeyBuffer(src)
      ensures Key() == GoString(src)[..Min(KEY_COPY_LIMIT, CLen(src))]
    {
      pos := 0;
      forall i | 0 <= i < KEY_COPY_LIMIT {
        key[i] := if i < CLen(src) then src[i] else '\0';
      }
      installed := true;
      assert key[..] == KeyBuffer(src);
      KeyRoundTrip(src);
    }
  }

  /** The cached position agrees with where the registered reader really is. */
  predicate Synced(cc: IO, io: IoTable)
    reads cc, cc.key, io, io.Footprint(cc.Key())
  {
    cc.Key() in io.table && cc.pos == io.table[cc.Key()].r.pos
  }

  /**
   * `ioread` (io.c:16-34), as written: a request of zero bytes is answered at once; a
   * request away from the cached position seeks first; after a successful read the
   * cache advances by the REQUESTED count. `seekRet` and `readRet` are the callbacks'
   * answers, `None` when the callback was not made. Without a seek the bytes come from
   * wherever the reader really is, which need not be `pos`.
   */
  method IoRead(cc: IO, io: IoTable, pos: uint64, buffer: array<uint8>, count: nat,
                seekFault: bool, plan: ReadPlan)
    returns (ret: int, ghost seekRet: Option<int>, ghost readRet: Option<int>)
    requires cc.Valid() && count <= buffer.Length && count <= INT_MAX
    modifies cc`pos, buffer, io.Footprint(cc.Key())
    ensures count == 0 ==>
      ret == 0 && seekRet == None && readRet == None && cc.pos == old(cc.pos)
      && buffer[..] == old(buffer[..])
    ensures count > 0 ==> (seekRet.Some? <==> pos != old(cc.pos))
    ensures seekRet.Some? && seekRet.value < 0 ==>
      ret == -1 && readRet == None && cc.pos == old(cc.pos)
    ensures count > 0 && (seekRet == None || seekRet.value >= 0) ==> readRet.Some?
    ensures readRet.Some? && readRet.value < 0 ==>
      ret == -1 && cc.pos == (if seekRet.Some? then pos else old(cc.pos))
    ensures readRet.Some? && readRet.value >= 0 ==>
      ret == readRet.value && ret <= count && cc.pos == AddULongLong(pos, count)
    ensures count > 0 && cc.Key() !in io.table ==> ret == -1
    ensures cc.Key() in io.table ==> IoReadMatchesReader(cc, io, pos, count, seekFault, plan, seekRet, readRet, old(io.table[cc.Key()].r.pos))
    ensures readRet.None? || cc.Key() !in io.table ==> buffer[..] == old(buffer[..])
    ensures cc.Key() in io.table && readRet.Some? ==>
      var data := io.table[cc.Key()].r.data;
      var start := if seekRet.Some? && seekRet.value == 0 then pos else old(io.table[cc.Key()].r.pos);
      var n := ReadReport(data, start, count, plan).0;
      && (forall i :: 0 <= i < n ==> buffer[i] == data[start + i])
      && (forall i :: n <= i < buffer.Length ==> buffer[i] == old(buffer[i]))
    ensures old(Synced(cc, io)) && 0 <= ret < count && pos + count < TWO_64 ==> !Synced(cc, io)
  {
    ret, seekRet, readRet := IoReadStep(cc, io, pos, buffer, count, seekFault, plan, false);
  }

  /**
   * `ioread` with the cache advanced by the count actually delivered: the cached
   * position then keeps tracking the reader.
   */
  method IoReadTracked(cc: IO, io: IoTable, pos: uint64, buffer: array<uint8>, count: nat,
                       seekFault: bool, plan: ReadPlan)
    returns (ret: int, ghost seekRet: Option<int>, ghost readRet: Option<int>)
    requires cc.Valid() && count <= buffer.Length && count <= INT_MAX
    modifies cc`pos, buffer, io.Footprint(cc.Key())
    ensures count == 0 ==>
      ret == 0 && seekRet == None && readRet == None && cc.pos == old(cc.pos)
      && buffer[..] == old(buffer[..])
    ensures count > 0 ==> (seekRet.Some? <==> pos != old(cc.pos))
    ensures seekRet.Some? && seekRet.value < 0 ==>
      ret == -1 && readRet == None && cc.pos == old(cc.pos)
    ensures count > 0 && (seekRet == None || seekRet.value >= 0) ==> readRet.Some?
    ensures readRet.Some? && readRet.value < 0 ==>
      ret == -1 && cc.pos == (if seekRet.Some? then pos else old(cc.pos))
    ensures readRet.Some? && readRet.value >= 0 ==>
      ret == readRet.value && ret <= count && cc.pos == AddULongLong(pos, ret)
    ensures count > 0 && cc.Key() !in io.table ==> ret == -1
    ensures cc.Key() in io.table ==> IoReadMatchesReader(cc, io, pos, count, seekFault, plan, seekRet, readRet, old(io.table[cc.Key()].r.pos))
    ensures readRet.None? || cc.Key() !in io.table ==> buffer[..] == old(buffer[..])
    ensures cc.Key() in io.table && readRet.Some? ==>
      var data := io.table[cc.Key()].r.data;
      var start := if seekRet.Some? && seekRet.value == 0 then pos else old(io.table[cc.Key()].r.pos);
      var n := ReadReport(data, start, count, plan).0;
      && (forall i :: 0 <= i < n ==> buffer[i] == data[start + i])
      && (forall i :: n <= i < buffer.Length ==> buffer[i] == old(buffer[i]))
    ensures old(Synced(cc, io)) && ret >= 0 && pos + count < TWO_64 ==> Synced(cc, io)
  {
    ret, seekRet, readRet := IoReadStep(cc, io, pos, buffer, count, seekFault, plan, true);
  }

  /** The callbacks' answers in an `ioread` call agree with the reader registered under the key. */
  predicate IoReadMatchesReader(cc: IO, io: IoTable, pos: uint64, count: nat, seekFault: bool,
                                plan: ReadPlan, seekRet: Option<int>, readRet: Option<int>, before: nat)
    reads cc, cc.key, io, io.Footprint(cc.Key())
    requires cc.Key() in io.table
  {
    var rs := io.table[cc.Key()];
    var start := if seekRet.Some? && seekRet.value == 0 then pos else before;
    && (seekRet.Some? ==> seekRet.value == SeekCallbackSpec(rs.Seeker?, before, pos, seekFault).0)
    && (readRet.Some? ==>
          var report := ReadReport(rs.r.data, start, count, plan);
          readRet.value == ReadCallbackValue(report.0, report.1) && rs.r.pos == start + report.0)
    && (readRet.None? ==> rs.r.pos == before)
  }

  /** The body shared by both versions; `tracked` selects how the cache advances (io.c:31). */
  method IoReadStep(cc: IO, io: IoTable, pos: uint64, buffer: array<uint8>, count: nat,
                    seekFault: bool, plan: ReadPlan, tracked: bool)
    returns (ret: int, ghost seekRet: Option<int>, ghost readRet: Option<int>)
    requires cc.Valid() && count <= buffer.Length && count <= INT_MAX
    modifies cc`pos, buffer, io.Footprint(cc.Key())
    ensures count == 0 ==>
      ret == 0 && seekRet == None && readRet == None && cc.pos == old(cc.pos)
      && buffer[..] == old(buffer[..])
    ensures count > 0 ==> (seekRet.Some? <==> pos != old(cc.pos))
    ensures seekRet.Some? && seekRet.value < 0 ==>
      ret == -1 && readRet == None && cc.pos == old(cc.pos)
    ensures count > 0 && (seekRet == None || seekRet.value >= 0) ==> readRet.Some?
    ensures readRet.Some? && readRet.value < 0 ==>
      ret == -1 && cc.pos == (if seekRet.Some? then pos else old(cc.pos))
    ensures readRet.Some? && readRet.value >= 0 ==>
      ret == readRet.value && ret <= count
      && cc.pos == AddULongLong(pos, if tracked then ret else count)
    ensures count > 0 && cc.Key() !in io.table ==> ret == -1
    ensures cc.Key() in io.table ==> IoReadMatchesReader(cc, io, pos, count, seekFault, plan, seekRet, readRet, old(io.table[cc.Key()].r.pos))
    ensures readRet.None? || cc.Key() !in io.table ==> buffer[..] == old(buffer[..])
    ensures cc.Key() in io.table && readRet.Some? ==>
      var data := io.table[cc.Key()].r.data;
      var start := if seekRet.Some? && seekRet.value == 0 then pos else old(io.table[cc.Key()].r.pos);
      var n := ReadReport(data, start, count, plan).0;
      && (forall i :: 0 <= i < n ==> buffer[i] == data[start + i])
      && (forall i :: n <= i < buffer.Length ==> buffer[i] == old(buffer[i]))
    ensures old(Synced(cc, io)) && 0 <= ret && pos + count < TWO_64 ==>
      (Synced(cc, io) <==> tracked || ret == count)
  {
    var key := cc.Key();
    seekRet, readRet := None, None;
    if count == 0 {
      return 0, seekRet, readRet;
    }
    if pos != cc.pos {
      var s := CSeekCallback(io, key, pos, seekFault);
      seekRet := Some(s);
      if s < 0 {
        return -1, seekRet, readRet;
      }
      cc.pos := pos;
    }
    var r := CReadCallback(io, key, buffer, count, plan);
    readRet := Some(r);
    if r < 0 {
      return -1, seekRet, readRet;
    }
    cc.pos := AddULongLong(cc.pos, if tracked then r else count);
    return r, seekRet, readRet;
  }

  /** `scan` (io.c:36-39). */
  function Scan(start: uint64, signature: uint32): int {
    -1
  }

  /** `getcachesize` (io.c:41-44). */
  function GetCacheSize(): uint32 {
    64 * 1024
  }

  /** `progress` (io.c:66-69). */
  function Progress(cur: uint64, max: uint64): int {
    1
  }

  /** The constant callbacks never report anything but their fixed answers. */
  lemma ConstantCallbacks(start: uint64, signature: uint32, cur: uint64, max: uint64)
    ensures Scan(start, signature) == -1
    ensures GetCacheSize() == 65536
    ensures Progress(cur, max) == 1
  {
  }

  /** `getfilesize` (io.c:71-73): exactly the size callback on the stored key. */
  method GetFileSize(cc: IO, io: IoTable, faults: SizeFaults) returns (ret: int)
    modifies io.Footprint(cc.Key())
    ensures cc.Key() !in io.table ==> ret == -1
    ensures cc.Key() in io.table ==>
      var rs := io.table[cc.Key()];
      (ret, rs.r.pos) == SizeCallbackSpec(rs.Seeker?, |rs.r.data|, old(rs.r.pos), faults)
  {
    ret := CSizeCallback(io, cc.Key(), faults);
  }

  /**
   * A streaming source that answers a 150-byte request with 100 bytes: the cache says
   * 150, the reader is at 100, so the request for the next bytes at 100 must seek, and
   * a fakeSeeker cannot.
   */
  method ShortReadLosesSync() returns (first: int, second: int)
    ensures first == 100 && second == -1
  {
    var io, cc, buf := StreamingSetup();
    ghost var s, r;
    first, s, r := IoRead(cc, io, 0, buf, 150, false, ReadPlan(100, false, false));
    second, s, r := IoRead(cc, io, 100, buf, 50, false, ReadPlan(50, false, false));
  }

  /** The same two requests against the tracking version: the second needs no seek. */
  method ShortReadKeepsSync() returns (first: int, second: int)
    ensures first == 100 && second == 50
  {
    var io, cc, buf := StreamingSetup();
    ghost var s, r;
    first, s, r := IoReadTracked(cc, io, 0, buf, 150, false, ReadPlan(100, false, false));
    second, s, r := IoReadTracked(cc, io, 100, buf, 50, false, ReadPlan(50, false, false));
  }

  /** A 200-byte streaming source registered under "k", and an IO struct set up for that key. */
  method StreamingSetup() returns (io: IoTable, cc: IO, buf: array<uint8>)
    ensures fresh(io) && fresh(cc) && fresh(cc.key) && fresh(buf)
    ensures cc.Valid() && cc.pos == 0 && cc.Key() == "k" && buf.Length == 150
    ensures "k" in io.table && io.table["k"].FakeSeeker? && fresh(io.table["k"].r)
    ensures |io.table["k"].r.data| == 200 && io.table["k"].r.pos == 0
  {
    io := new IoTable();
    var src := new Reader(seq(200, _ => 0));
    io.AddReader("k", FakeSeeker(src));
    cc := new IO();
    cc.SetCallbacks("k");
    KeyRoundTrip("k");
    buf := new uint8[150];
  }
}
