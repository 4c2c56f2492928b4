/**
 * The host-supplied byte source: the `io.ReadSeeker` (or `io.Reader`) a caller hands
 * to NewDemuxer / NewStreamingDemuxer. It is not part of the repository; this module
 * models it the way a Go in-memory reader behaves, with every freedom the Go contract
 * leaves to a reader made an explicit parameter.
 */
module Readers {
  import opened Widths

  /** The `whence` argument of `io.Seeker.Seek`. */
  datatype Whence = SeekStart | SeekCurrent | SeekEnd

  /** The error a Read reports: nil, `io.EOF`, or any other error. */
  datatype ReadErr = NoError | EOF | Fault

  /**
   * The choices a Go reader is free to make on one Read call: it may deliver fewer
   * bytes than asked for (at most `limit`), it may report EOF together with the last
   * bytes (`eofWithData`), and it may fail (`fault`), possibly after delivering bytes.
   */
  datatype ReadPlan = ReadPlan(limit: nat, eofWithData: bool, fault: bool)

  /** Bytes left between `pos` and the end of `data`; a position past the end has none. */
  function Available(data: seq<uint8>, pos: nat): (n: nat)
    ensures pos + n <= |data| || n == 0
    ensures pos < |data| ==> pos + n == |data|
  {
    if pos < |data| then |data| - pos else 0
  }

  /** What one Read of at most `size` bytes at `pos` hands back: a byte count and an error. */
  function ReadReport(data: seq<uint8>, pos: nat, size: nat, plan: ReadPlan): (r: (nat, ReadErr))
    ensures r.0 <= size && r.0 <= plan.limit && r.0 <= Available(data, pos)
    ensures r.1 == Fault <==> plan.fault
    ensures r.1 == EOF ==> pos + r.0 >= |data|
    ensures pos + r.0 < |data| && !plan.fault ==> r.1 == NoError
  {
    var n := Min(Min(size, plan.limit), Available(data, pos));
    var err :=
      if plan.fault then Fault
      else if pos + n >= |data| && (n == 0 || plan.eofWithData) then EOF
      else NoError;
    (n, err)
  }

  /** The absolute position a seek asks for; negative targets are refused by Seek. */
  function SeekTarget(size: nat, pos: nat, offset: int, whence: Whence): int {
    match whence
    case SeekStart => offset
    case SeekCurrent => pos + offset
    case SeekEnd => size + offset
  }

  class Reader {
    const data: seq<uint8>
    var pos: nat

    constructor (data: seq<uint8>)
      ensures this.data == data && pos == 0
    {
      this.data := data;
      pos := 0;
    }

    /** `Read(p[:size])`: copies the delivered bytes to the front of `p` and advances. */
    method Read(p: array<uint8>, size: nat, plan: ReadPlan) returns (n: nat, err: ReadErr)
      requires size <= p.Length
      modifies this, p
      ensures (n, err) == ReadReport(data, old(pos), size, plan)
      ensures pos == old(pos) + n
      ensures forall i :: 0 <= i < n ==> p[i] == data[old(pos) + i]
      ensures forall i :: n <= i < p.Length ==> p[i] == old(p[i])
    {
      var report := ReadReport(data, pos, size, plan);
      n, err := report.0, report.1;
      forall i | 0 <= i < n {
        p[i] := data[pos + i];
      }
      pos := pos + n;
    }

    /**
     * `Seek(offset, whence)`: moves to the target, or fails without moving when the
     * target is negative or the host reports an I/O failure (`fault`).
     */
    method Seek(offset: int, whence: Whence, fault: bool) returns (abs: int, failed: bool)
      modifies this
      ensures var target := SeekTarget(|data|, old(pos), offset, whence);
        && failed == (fault || target < 0)
        && (failed ==> pos == old(pos) && abs == 0)
        && (!failed ==> pos == target && abs == target)
    {
      var target := SeekTarget(|data|, pos, offset, whence);
      if fault || target < 0 {
        abs, failed := 0, true;
      } else {
        pos := target;
        abs, failed := target, false;
      }
    }
  }
}
