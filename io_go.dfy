/**
 * io.go: the package-global table from a per-demuxer key to its reader, and the three
 * callbacks the parsing engine calls with that key. The read/write lock around the
 * table is not modelled: every operation below is one sequential map access.
 */
module IoGo {
  import opened Outcomes
  import opened Widths
  import opened Readers
  import opened Util

  const InvalidKey := "invalid reader key"

  /** The `ioTable` map (io.go:31). */
  class IoTable {
    var table: map<string, ReadSeeker>

    constructor ()
      ensures table == map[]
    {
      table := map[];
    }

    /** The reader objects a callback on `key` may touch. */
    function Footprint(key: string): set<Reader>
      reads this
    {
      if key in table then {table[key].r} else {}
    }

    /** `getReader` (io.go:46-56). */
    function GetReader(key: string): (res: Result<ReadSeeker, string>)
      reads this
      ensures res.Ok? <==> key in table
      ensures res.Ok? ==> res.value == table[key]
      ensures res.Err? ==> res.error == InvalidKey
    {
      if key in table then Ok(table[key]) else Err(InvalidKey)
    }

    /** `addReader` (io.go:34-38): an existing entry for `key` is overwritten. */
    method AddReader(key: string, r: ReadSeeker)
      modifies this
      ensures table == old(table)[key := r]
      ensures GetReader(key) == Ok(r)
      ensures forall k :: k != key ==> GetReader(k) == old(GetReader(k))
    {
      table := table[key := r];
    }

    /** `delReader` (io.go:40-44): deleting an absent key is a no-op. */
    method DelReader(key: string)
      modifies this
      ensures table == old(table) - {key}
      ensures GetReader(key) == Err(InvalidKey)
      ensures forall k :: k != key ==> GetReader(k) == old(GetReader(k))
    {
      table := map k | k in table && k != key :: table[k];
    }
  }

  /** What `cReadCallback` hands the engine for a Read that delivered `n` bytes with `err`. */
  function ReadCallbackValue(n: nat, err: ReadErr): (ret: int)
    ensures ret == -1 <==> err == Fault
    ensures ret != -1 ==> ret == n
  {
    if err == Fault then -1 else n
  }

  /**
   * `cReadCallback` (io.go:58-79): -1 for an unknown key or a failed Read; otherwise
   * the count delivered, EOF included. The reader advances even when the Read fails.
   */
  method CReadCallback(io: IoTable, key: string, buf: array<uint8>, size: nat, plan: ReadPlan)
    returns (ret: int)
    requires size <= buf.Length && size <= INT_MAX
    modifies io.Footprint(key), buf
    ensures ret == -1 || 0 <= ret <= size
    ensures key !in io.table ==> ret == -1 && buf[..] == old(buf[..])
    ensures key in io.table ==>
      var r := io.table[key].r;
      var report := ReadReport(r.data, old(r.pos), size, plan);
      && ret == ReadCallbackValue(report.0, report.1)
      && r.pos == old(r.pos) + report.0
      && (forall i :: 0 <= i < report.0 ==> buf[i] == r.data[old(r.pos) + i])
      && (forall i :: report.0 <= i < buf.Length ==> buf[i] == old(buf[i]))
  {
    var found := io.GetReader(key);
    if found.Err? {
      return -1;
    }
    var n, err := found.value.Read(buf, size, plan);
    if err != NoError && err != EOF {
      return -1;
    }
    return n;
  }

  /** What `cSeekCallback` returns, and where the reader is afterwards. */
  function SeekCallbackSpec(seekable: bool, pos: nat, cpos: uint64, fault: bool): (r: (int, nat))
    ensures r.0 == 0 <==> seekable && !fault && cpos < TWO_63
    ensures r.0 == 0 || r.0 == -1
    ensures r.1 == if r.0 == 0 then cpos else pos
  {
    if !seekable || fault || Int64Of(cpos) < 0 then (-1, pos) else (0, cpos)
  }

  /**
   * `cSeekCallback` (io.go:81-98): an absolute seek to `int64(cpos)`; -1 for an unknown
   * key or any failed seek (a fakeSeeker always fails), 0 otherwise.
   */
  method CSeekCallback(io: IoTable, key: string, cpos: uint64, fault: bool) returns (ret: int)
    modifies io.Footprint(key)
    ensures key !in io.table ==> ret == -1
    ensures key in io.table ==>
      var rs := io.table[key];
      (ret, rs.r.pos) == SeekCallbackSpec(rs.Seeker?, old(rs.r.pos), cpos, fault)
  {
    var found := io.GetReader(key);
    if found.Err? {
      return -1;
    }
    var pos := Int64Of(cpos);
    var _, failed := found.value.Seek(pos, SeekStart, fault);
    if failed {
      return -1;
    }
    return 0;
  }

  /** Host failures injected into the three seeks of the size callback, in call order. */
  datatype SizeFaults = SizeFaults(save: bool, toEnd: bool, restore: bool)

  /** What `cSizeCallback` returns, and where the reader is afterwards. */
  function SizeCallbackSpec(seekable: bool, size: nat, pos: nat, faults: SizeFaults): (r: (int, nat))
    ensures r.0 == -1 <==> !seekable || faults.save || faults.toEnd || faults.restore
    ensures r.0 != -1 ==> r.0 == size && r.1 == pos
    ensures !seekable || faults.save || faults.toEnd ==> r.1 == pos
    ensures seekable && !faults.save && !faults.toEnd && faults.restore ==> r.1 == size
  {
    if !seekable || faults.save || faults.toEnd then (-1, pos)
    else if faults.restore then (-1, size)
    else (size, pos)
  }

  /**
   * `cSizeCallback` (io.go:100-125): saves the position, seeks to the end to learn the
   * size, seeks back. Any failed step returns -1 at once, without restoring.
   */
  method CSizeCallback(io: IoTable, key: string, faults: SizeFaults) returns (ret: int)
    modifies io.Footprint(key)
    ensures key !in io.table ==> ret == -1
    ensures key in io.table ==>
      var rs := io.table[key];
      (ret, rs.r.pos) == SizeCallbackSpec(rs.Seeker?, |rs.r.data|, old(rs.r.pos), faults)
  {
    var found := io.GetReader(key);
    if found.Err? {
      return -1;
    }
    var r := found.value;
    var pos, failed := r.Seek(0, SeekCurrent, faults.save);
    if failed {
      return -1;
    }
    var endPos;
    endPos, failed := r.Seek(0, SeekEnd, faults.toEnd);
    if failed {
      return -1;
    }
    var restored;
    restored, failed := r.Seek(pos, SeekStart, faults.restore);
    if failed {
      return -1;
    }
    return endPos;
  }

  /** With a fakeSeeker registered, neither the seek nor the size callback can succeed. */
  lemma FakeSeekerCallbacksFail(pos: nat, size: nat, cpos: uint64, fault: bool, faults: SizeFaults)
    ensures SeekCallbackSpec(false, pos, cpos, fault) == (-1, pos)
    ensures SizeCallbackSpec(false, size, pos, faults) == (-1, pos)
  {
  }
}
