/**
 * util.go: `fakeSeeker` turns a plain `io.Reader` into an `io.ReadSeeker` whose Seek
 * always fails. The registry holds either the caller's own seekable reader or such a
 * wrapper; the datatype below is that choice, the constructor tag is the "seekable" flag.
 */
module Util {
  import opened Readers
  import opened Widths

  datatype ReadSeeker = Seeker(r: Reader) | FakeSeeker(r: Reader) {

    /** The objects a Seek may change: none for a fakeSeeker. */
    function SeekFrame(): set<Reader> {
      if Seeker? then {r} else {}
    }

    /** Both variants read straight from the wrapped reader (util.go:16-18). */
    method Read(p: array<uint8>, size: nat, plan: ReadPlan) returns (n: nat, err: ReadErr)
      requires size <= p.Length
      modifies r, p
      ensures (n, err) == ReadReport(r.data, old(r.pos), size, plan)
      ensures r.pos == old(r.pos) + n
      ensures forall i :: 0 <= i < n ==> p[i] == r.data[old(r.pos) + i]
      ensures forall i :: n <= i < p.Length ==> p[i] == old(p[i])
    {
      n, err := r.Read(p, size, plan);
    }

    /** A seekable reader seeks; a fakeSeeker answers as FakeSeek does and touches nothing. */
    method Seek(offset: int, whence: Whence, fault: bool) returns (abs: int, failed: bool)
      modifies SeekFrame()
      ensures FakeSeeker? ==> (abs, failed) == FakeSeek(offset, whence) && r.pos == old(r.pos)
      ensures Seeker? ==>
        var target := SeekTarget(|r.data|, old(r.pos), offset, whence);
        && failed == (fault || target < 0)
        && (failed ==> r.pos == old(r.pos) && abs == 0)
        && (!failed ==> r.pos == target && abs == target)
    {
      if Seeker? {
        abs, failed := r.Seek(offset, whence, fault);
      } else {
        var answer := FakeSeek(offset, whence);
        abs, failed := answer.0, answer.1;
      }
    }
  }

  /** `fakeSeeker.Seek`: -1 and an error, whatever it is asked (util.go:20-22). */
  function FakeSeek(offset: int, whence: Whence): (r: (int, bool))
    ensures r.1 && r.0 < 0
  {
    (-1, true)
  }
}
