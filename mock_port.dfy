/**
 * The test double the repository uses for the serial port: a write buffer
 * that records everything written, and a read buffer with a cursor that
 * reports "timeout" once it is exhausted. `PortState` is a value snapshot of
 * the mock; the functions over it state what one read or write does, and the
 * channel specification is written in terms of them.
 */
module MockPort {
  import opened Wrappers
  import opened Strings
  import opened Errors

  datatype PortState = PortState(
    writeBuffer: seq<byte>,
    readBuffer: seq<byte>,
    closed: bool,
    readIndex: nat)

  /** The cursor has not run past the end of the read buffer. */
  predicate Valid(s: PortState) {
    s.readIndex <= |s.readBuffer|
  }

  /** Bytes still waiting to be read. */
  function Pending(s: PortState): nat {
    if s.readIndex < |s.readBuffer| then |s.readBuffer| - s.readIndex else 0
  }

  /** Number of bytes a read into a buffer of `cap` bytes hands out. */
  function ChunkLength(s: PortState, cap: nat): (n: nat)
    ensures n <= cap && n <= Pending(s)
    ensures n == cap || n == Pending(s)
  {
    if cap < Pending(s) then cap else Pending(s)
  }

  /** The bytes such a read hands out. */
  function ReadChunk(s: PortState, cap: nat): (chunk: seq<byte>)
    ensures |chunk| == ChunkLength(s, cap)
  {
    if Pending(s) == 0 then [] else s.readBuffer[s.readIndex..s.readIndex + ChunkLength(s, cap)]
  }

  function AfterRead(s: PortState, cap: nat): PortState {
    s.(readIndex := s.readIndex + ChunkLength(s, cap))
  }

  function AfterWrite(s: PortState, p: seq<byte>): PortState {
    s.(writeBuffer := s.writeBuffer + p)
  }

  /** A read leaves the cursor within the buffer if it was within it. */
  lemma ReadKeepsValid(s: PortState, cap: nat)
    requires Valid(s)
    ensures Valid(AfterRead(s, cap))
    ensures Pending(AfterRead(s, cap)) == Pending(s) - ChunkLength(s, cap)
  {
  }

  class MockSerialPort {
    var writeBuffer: seq<byte>
    var readBuffer: seq<byte>
    var closed: bool
    var readIndex: nat

    function State(): PortState
      reads this
    {
      PortState(writeBuffer, readBuffer, closed, readIndex)
    }

    /** A fresh mock whose read buffer holds `input`. */
    constructor (input: seq<byte>)
      ensures State() == PortState([], input, false, 0)
    {
      writeBuffer := [];
      readBuffer := input;
      closed := false;
      readIndex := 0;
    }

    /** Appends `p` to the write buffer; never fails. */
    method Write(p: seq<byte>) returns (n: nat, err: Option<Error>)
      modifies this
      ensures State() == AfterWrite(old(State()), p)
      ensures n == |p| && err == None
    {
      writeBuffer := writeBuffer + p;
      n, err := |p|, None;
    }

    /**
     * Copies the next pending bytes into `p`, as many as fit, and advances the
     * cursor; with nothing pending it reports a timeout and changes nothing.
     */
    method Read(p: array<byte>) returns (n: nat, err: Option<Error>)
      modifies this, p
      ensures State() == AfterRead(old(State()), p.Length)
      ensures err == (if Pending(old(State())) == 0 then Some(Timeout) else None)
      ensures n == ChunkLength(old(State()), p.Length)
      ensures p[..n] == ReadChunk(old(State()), p.Length)
      ensures p[n..] == old(p[n..])
      ensures old(readIndex <= |readBuffer|) ==> readIndex <= |readBuffer|
    {
      if readIndex >= |readBuffer| {
        return 0, Some(Timeout);
      }
      n := if p.Length < |readBuffer| - readIndex then p.Length else |readBuffer| - readIndex;
      forall i | 0 <= i < n {
        p[i] := readBuffer[readIndex + i];
      }
      readIndex := readIndex + n;
      err := None;
    }

    method Close() returns (err: Option<Error>)
      modifies this
      ensures State() == old(State()).(closed := true)
      ensures err == None
    {
      closed := true;
      err := None;
    }
  }
}
