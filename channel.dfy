/**
 * The command channel (`sendCommand`) as a function of the mock port's state:
 * one draining read, the command written with a carriage return, then up to
 * ten reads whose chunks are accumulated until a chunk contains "ch>".
 */
module Channel {
  import opened Wrappers
  import opened Strings
  import opened Errors
  import opened MockPort

  /** Size of the read buffer `sendCommand` allocates. */
  const BufferSize: nat := 1024
  /** Reads attempted after the command is written. */
  const MaxAttempts: nat := 10
  /** The marker the loop stops on: always "ch>", whatever the variant's prompt. */
  const EndMarker := "ch>"

  datatype Exchanged = Exchanged(port: PortState, response: Result<string, Error>)

  /** The bytes written for a command: the command and a carriage return. */
  function Terminated(cmd: string): seq<byte> {
    Wire(cmd + "\r")
  }

  /** The draining read that discards stale input before the command is written. */
  function Drain(s: PortState): PortState {
    AfterRead(s, BufferSize)
  }

  /** The read loop, from attempt number `attempt` with `acc` accumulated so far. */
  function Collect(s: PortState, acc: seq<byte>, attempt: nat): Exchanged
    decreases MaxAttempts - attempt
  {
    if attempt >= MaxAttempts then Exchanged(s, Success(Text(acc)))
    else if Pending(s) == 0 then
      // the read times out: tolerated once something has been accumulated
      Exchanged(s, if |acc| > 0 then Success(Text(acc)) else Failure(Timeout))
    else
      var chunk := ReadChunk(s, BufferSize);
      if Contains(Text(chunk), EndMarker) then Exchanged(AfterRead(s, BufferSize), Success(Text(acc + chunk)))
      else Collect(AfterRead(s, BufferSize), acc + chunk, attempt + 1)
  }

  /** `sendCommand(cmd)` on an open mock port. */
  function Exchange(s: PortState, cmd: string): Exchanged {
    Collect(AfterWrite(Drain(s), Terminated(cmd)), [], 0)
  }

  /**
   * The read loop only moves the cursor forward, by at most one buffer per
   * remaining attempt, and what it returns is exactly the bytes it passed over.
   */
  lemma {:induction false} CollectReadsWindow(s: PortState, acc: seq<byte>, attempt: nat)
    requires Valid(s) && attempt <= MaxAttempts
    ensures var e := Collect(s, acc, attempt);
      && e.port == s.(readIndex := e.port.readIndex)
      && s.readIndex <= e.port.readIndex <= |s.readBuffer|
      && e.port.readIndex <= s.readIndex + BufferSize * (MaxAttempts - attempt)
      && (e.response.Success? ==>
            e.response.value == Text(acc + s.readBuffer[s.readIndex..e.port.readIndex]))
    decreases MaxAttempts - attempt
  {
    var e := Collect(s, acc, attempt);
    if attempt == MaxAttempts || Pending(s) == 0 {
      assert s.readBuffer[s.readIndex..s.readIndex] == [];
      assert acc + [] == acc;
    } else {
      var chunk := ReadChunk(s, BufferSize);
      var s' := AfterRead(s, BufferSize);
      ReadKeepsValid(s, BufferSize);
      if !Contains(Text(chunk), EndMarker) {
        CollectReadsWindow(s', acc + chunk, attempt + 1);
        if e.response.Success? {
          assert s.readBuffer[s.readIndex..e.port.readIndex]
              == chunk + s.readBuffer[s'.readIndex..e.port.readIndex];
        }
      }
    }
  }

  /** Once something has been accumulated, the read loop cannot fail. */
  lemma {:induction false} CollectWithDataSucceeds(s: PortState, acc: seq<byte>, attempt: nat)
    requires |acc| > 0
    ensures Collect(s, acc, attempt).response.Success?
    decreases MaxAttempts - attempt
  {
    if attempt < MaxAttempts && Pending(s) > 0 {
      var chunk := ReadChunk(s, BufferSize);
      if !Contains(Text(chunk), EndMarker) {
        CollectWithDataSucceeds(AfterRead(s, BufferSize), acc + chunk, attempt + 1);
      }
    }
  }

  /**
   * The read loop fails exactly when its very first read times out; it then
   * reports the timeout and leaves the port as it was.
   */
  lemma CollectFailsIff(s: PortState, attempt: nat)
    requires attempt < MaxAttempts
    ensures Collect(s, [], attempt).response.Failure? <==> Pending(s) == 0
    ensures Pending(s) == 0 ==> Collect(s, [], attempt) == Exchanged(s, Failure(Timeout))
  {
    if Pending(s) > 0 {
      var chunk := ReadChunk(s, BufferSize);
      assert [] + chunk == chunk && |chunk| > 0;
      if !Contains(Text(chunk), EndMarker) {
        CollectWithDataSucceeds(AfterRead(s, BufferSize), chunk, attempt + 1);
      }
    }
  }

  /** A read that delivers a chunk without "ch>" leaves the loop running. */
  lemma CollectStep(s: PortState, acc: seq<byte>, attempt: nat)
    requires attempt < MaxAttempts && Pending(s) > 0
    requires !Contains(Text(ReadChunk(s, BufferSize)), EndMarker)
    ensures Collect(s, acc, attempt)
         == Collect(AfterRead(s, BufferSize), acc + ReadChunk(s, BufferSize), attempt + 1)
  {
  }

  /** A read that delivers a chunk with "ch>" ends the loop. */
  lemma CollectStopStep(s: PortState, acc: seq<byte>, attempt: nat)
    requires attempt < MaxAttempts && Pending(s) > 0
    requires Contains(Text(ReadChunk(s, BufferSize)), EndMarker)
    ensures Collect(s, acc, attempt).port == AfterRead(s, BufferSize)
  {
  }

  /** Bytes without "ch>" split into two parts, neither of which holds it. */
  lemma NoMarkerInParts(w: seq<byte>, n: nat)
    requires n <= |w| && !Contains(Text(w), EndMarker)
    ensures !Contains(Text(w[0..n]), EndMarker) && !Contains(Text(w[n..|w|]), EndMarker)
  {
    TextSlice(w, 0, n);
    if Contains(Text(w[0..n]), EndMarker) {
      ContainsInSlice(Text(w), 0, n, EndMarker);
    }
    TextSlice(w, n, |w|);
    if Contains(Text(w[n..|w|]), EndMarker) {
      ContainsInSlice(Text(w), n, |w|, EndMarker);
    }
  }

  /**
   * When the unread input holds no "ch>" (a V2 device answering with its "2>"
   * prompt, say), the loop never stops early: it reads until the input is
   * exhausted or every attempt is used.
   */
  lemma {:induction false} CollectWithoutMarker(s: PortState, acc: seq<byte>, attempt: nat)
    requires Valid(s) && attempt <= MaxAttempts
    requires !Contains(Text(s.readBuffer[s.readIndex..]), EndMarker)
    ensures var limit := s.readIndex + BufferSize * (MaxAttempts - attempt);
      Collect(s, acc, attempt).port.readIndex == if limit < |s.readBuffer| then limit else |s.readBuffer|
    decreases MaxAttempts - attempt
  {
    if attempt < MaxAttempts && Pending(s) > 0 {
      WithoutMarkerStep(s);
      CollectStep(s, acc, attempt);
      CollectWithoutMarker(AfterRead(s, BufferSize), acc + ReadChunk(s, BufferSize), attempt + 1);
    }
  }

  /** The first chunk of input without "ch>" holds none, and neither does the input after it. */
  lemma WithoutMarkerStep(s: PortState)
    requires Valid(s) && Pending(s) > 0
    requires !Contains(Text(s.readBuffer[s.readIndex..]), EndMarker)
    ensures var s' := AfterRead(s, BufferSize);
      && !Contains(Text(ReadChunk(s, BufferSize)), EndMarker)
      && Valid(s')
      && !Contains(Text(s'.readBuffer[s'.readIndex..]), EndMarker)
  {
    var rest := s.readBuffer[s.readIndex..];
    var n := ChunkLength(s, BufferSize);
    var s' := AfterRead(s, BufferSize);
    assert ReadChunk(s, BufferSize) == rest[0..n];
    assert s'.readBuffer[s'.readIndex..] == rest[n..|rest|];
    NoMarkerInParts(rest, n);
  }

  /**
   * The loop stops right after the first buffer-sized chunk that contains
   * "ch>": if the first `k` chunks hold no "ch>" and chunk `k` does, exactly
   * `k + 1` chunks are read.
   */
  lemma {:induction false} CollectStopsAtMarker(s: PortState, acc: seq<byte>, attempt: nat, k: nat)
    requires Valid(s) && attempt + k < MaxAttempts
    requires s.readIndex + BufferSize * k < |s.readBuffer|
    requires !Contains(Text(s.readBuffer[s.readIndex..s.readIndex + BufferSize * k]), EndMarker)
    requires var from := s.readIndex + BufferSize * k;
      var to := if from + BufferSize < |s.readBuffer| then from + BufferSize else |s.readBuffer|;
      Contains(Text(s.readBuffer[from..to]), EndMarker)
    ensures var stop := s.readIndex + BufferSize * (k + 1);
      Collect(s, acc, attempt).port.readIndex == if stop < |s.readBuffer| then stop else |s.readBuffer|
    decreases k
  {
    if k == 0 {
      assert s.readIndex + BufferSize * k == s.readIndex;
      MarkerInFirstChunk(s);
      CollectStopStep(s, acc, attempt);
    } else {
      StopsAtMarkerStep(s, k);
      CollectStep(s, acc, attempt);
      CollectStopsAtMarker(AfterRead(s, BufferSize), acc + ReadChunk(s, BufferSize), attempt + 1, k - 1);
    }
  }

  /** A "ch>" in the next buffer's worth of input is in the chunk the next read hands out. */
  lemma MarkerInFirstChunk(s: PortState)
    requires Valid(s) && s.readIndex < |s.readBuffer|
    requires var to := if s.readIndex + BufferSize < |s.readBuffer| then s.readIndex + BufferSize else |s.readBuffer|;
      Contains(Text(s.readBuffer[s.readIndex..to]), EndMarker)
    ensures Pending(s) > 0 && Contains(Text(ReadChunk(s, BufferSize)), EndMarker)
    ensures var to := if s.readIndex + BufferSize < |s.readBuffer| then s.readIndex + BufferSize else |s.readBuffer|;
      AfterRead(s, BufferSize).readIndex == to
  {
    var to := if s.readIndex + BufferSize < |s.readBuffer| then s.readIndex + BufferSize else |s.readBuffer|;
    assert ReadChunk(s, BufferSize) == s.readBuffer[s.readIndex..to];
  }

  /** k > 0 chunks are the first chunk followed by k - 1 more. */
  lemma ChunksSplit(k: nat)
    requires k > 0
    ensures BufferSize * k == BufferSize + BufferSize * (k - 1)
    ensures BufferSize <= BufferSize * k
  {
    assert BufferSize == 1024;
  }

  /**
   * When "ch>" first appears in chunk k > 0, the first chunk is full and holds
   * no "ch>", and after it the marker first appears in chunk k - 1.
   */
  lemma StopsAtMarkerStep(s: PortState, k: nat)
    requires Valid(s) && k > 0
    requires s.readIndex + BufferSize * k < |s.readBuffer|
    requires !Contains(Text(s.readBuffer[s.readIndex..s.readIndex + BufferSize * k]), EndMarker)
    ensures var s' := AfterRead(s, BufferSize);
      && Pending(s) > 0
      && !Contains(Text(ReadChunk(s, BufferSize)), EndMarker)
      && Valid(s') && s'.readBuffer == s.readBuffer
      && s'.readIndex == s.readIndex + BufferSize
      && s'.readIndex + BufferSize * (k - 1) == s.readIndex + BufferSize * k
      && !Contains(Text(s'.readBuffer[s'.readIndex..s'.readIndex + BufferSize * (k - 1)]), EndMarker)
  {
    var window := s.readBuffer[s.readIndex..s.readIndex + BufferSize * k];
    var s' := AfterRead(s, BufferSize);
    ChunksSplit(k);
    assert ChunkLength(s, BufferSize) == BufferSize;
    assert s.readIndex + BufferSize <= s.readIndex + BufferSize * k;
    assert ReadChunk(s, BufferSize) == s.readBuffer[s.readIndex..s.readIndex + BufferSize];
    assert window[0..BufferSize] == s.readBuffer[s.readIndex..s.readIndex + BufferSize];
    assert s'.readBuffer[s'.readIndex..s'.readIndex + BufferSize * (k - 1)] == window[BufferSize..|window|];
    NoMarkerInParts(window, BufferSize);
  }

  /**
   * What one exchange does to the mock: the command and its carriage return
   * are appended to the write buffer; after the draining read, the answer is
   * the contiguous run of input read back; the exchange fails, with a timeout,
   * exactly when the draining read swallowed everything that was pending, and
   * then the input stays exhausted.
   */
  lemma ExchangeFacts(s: PortState, cmd: string)
    requires Valid(s)
    ensures var d := Drain(s);
      var e := Exchange(s, cmd);
      && d.readIndex == s.readIndex + ChunkLength(s, BufferSize)
      && e.port.writeBuffer == s.writeBuffer + Terminated(cmd)
      && e.port.readBuffer == s.readBuffer && e.port.closed == s.closed
      && Valid(e.port)
      && d.readIndex <= e.port.readIndex <= d.readIndex + BufferSize * MaxAttempts
      && (e.response.Failure? <==> Pending(s) <= BufferSize)
      && (e.response.Failure? ==> e.response.error == Timeout && Pending(e.port) == 0)
      && (e.response.Success? ==>
            e.response.value == Text(s.readBuffer[d.readIndex..e.port.readIndex]))
  {
    var w := AfterWrite(Drain(s), Terminated(cmd));
    ReadKeepsValid(s, BufferSize);
    CollectReadsWindow(w, [], 0);
    CollectFailsIff(w, 0);
    assert [] + s.readBuffer[w.readIndex..Exchange(s, cmd).port.readIndex]
        == s.readBuffer[w.readIndex..Exchange(s, cmd).port.readIndex];
  }

  /** Once an exchange has failed on the mock, every later exchange fails too. */
  lemma FailureIsFinal(s: PortState, cmd: string, next: string)
    requires Valid(s) && Exchange(s, cmd).response.Failure?
    ensures Exchange(Exchange(s, cmd).port, next).response == Failure(Timeout)
  {
    ExchangeFacts(s, cmd);
    ExchangeFacts(Exchange(s, cmd).port, next);
  }

  /** Without "ch>" in the input left after the draining read, the exchange reads ten buffers or to the end. */
  lemma ExchangeWithoutMarker(s: PortState, cmd: string)
    requires Valid(s)
    requires !Contains(Text(s.readBuffer[Drain(s).readIndex..]), EndMarker)
    ensures var limit := Drain(s).readIndex + BufferSize * MaxAttempts;
      Exchange(s, cmd).port.readIndex == if limit < |s.readBuffer| then limit else |s.readBuffer|
  {
    ReadKeepsValid(s, BufferSize);
    CollectWithoutMarker(AfterWrite(Drain(s), Terminated(cmd)), [], 0);
  }
}
