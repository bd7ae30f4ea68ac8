/**
 * The sweep configurator (`SetSweepConfig`): range checks against the active
 * hardware record in a fixed order, then the variant's sweep command, and on
 * its failure three alternative commands, each tried only if the previous
 * one failed.
 */
module SweepConfig {
  import opened Wrappers
  import opened Strings
  import opened Numbers
  import opened Errors
  import opened Registry
  import opened MockPort
  import opened Channel

  /** The request breaks bound `b` of the record. */
  predicate Violates(info: HardwareInfo, b: Bound, startHz: int, stopHz: int, points: int) {
    match b
    case StartBelowMin => startHz < info.range.minHz
    case StopAboveMax => stopHz > info.range.maxHz
    case TooManyPoints => points > info.maxSweepPoints
  }

  /** Position of a bound in the checking order. */
  function Rank(b: Bound): nat {
    match b
    case StartBelowMin => 0
    case StopAboveMax => 1
    case TooManyPoints => 2
  }

  /** The bound reported for a request: the first one it breaks, if any. */
  function FirstViolation(info: HardwareInfo, startHz: int, stopHz: int, points: int): (r: Option<Bound>)
    ensures r.None? <==> forall b: Bound :: !Violates(info, b, startHz, stopHz, points)
    ensures r.Some? ==> Violates(info, r.value, startHz, stopHz, points)
    ensures r.Some? ==> forall b: Bound :: Rank(b) < Rank(r.value) ==> !Violates(info, b, startHz, stopHz, points)
  {
    if startHz < info.range.minHz then
      assert Violates(info, StartBelowMin, startHz, stopHz, points);
      Some(StartBelowMin)
    else if stopHz > info.range.maxHz then
      assert Violates(info, StopAboveMax, startHz, stopHz, points);
      Some(StopAboveMax)
    else if points > info.maxSweepPoints then
      assert Violates(info, TooManyPoints, startHz, stopHz, points);
      Some(TooManyPoints)
    else None
  }

  /**
   * The three rejections the repository's tests expect of a V1, and two
   * requests that pass although they make no sense: a reversed range and a
   * negative point count are not checked.
   */
  lemma V1Bounds()
    ensures FirstViolation(Lookup(V1), 10, 900000000, 101) == Some(StartBelowMin)
    ensures FirstViolation(Lookup(V1), 50000, 900000001, 101) == Some(StopAboveMax)
    ensures FirstViolation(Lookup(V1), 50000, 900000000, 102) == Some(TooManyPoints)
    ensures FirstViolation(Lookup(V1), 50000, 900000000, 101) == None
    ensures FirstViolation(Lookup(V1), 800000000, 100000, -5) == None
  {
  }

  /** The primary command: the record's sweep template filled with start, stop and points. */
  function PrimaryCommand(info: HardwareInfo, startHz: int, stopHz: int, points: int): string {
    FormatTemplate(info.commands.sweep, [startHz, stopHz, points])
  }

  /**
   * The alternatives tried after the primary command fails: scoped
   * "sweep ..." commands for V2, V2 Plus and V2 Plus4, bare ones for every
   * other variant (SAA2 included).
   */
  function Alternates(v: Variant, startHz: int, stopHz: int, points: int): (cmds: seq<string>)
    ensures |cmds| == 3
    ensures forall i :: 0 <= i < 3 ==> (HasPrefix(cmds[i], "sweep ") <==> IsV2Sweeper(v))
  {
    var scoped := IsV2Sweeper(v);
    [Setting(scoped, "start", startHz), Setting(scoped, "stop", stopHz), Setting(scoped, "points", points)]
  }

  /**
   * One alternative: "<name> <value>", behind "sweep " when scoped. The
   * setting's name must not read as "sweep" itself; a second letter other
   * than 'w' (as in "start", "stop" and "points") is how that is required.
   */
  function Setting(scoped: bool, name: string, value: int): (cmd: string)
    requires |name| >= 2 && name[1] != 'w'
    ensures HasPrefix(cmd, "sweep ") <==> scoped
  {
    var bare := name + " " + FormatInt(value);
    if scoped then
      assert ("sweep " + bare)[..6] == "sweep ";
      "sweep " + bare
    else
      assert bare[1] == name[1];
      bare
  }

  datatype Tried = Tried(port: PortState, succeeded: bool, sent: nat)

  /** Sends commands in order until one succeeds. */
  function TryInOrder(s: PortState, cmds: seq<string>): Tried
    decreases |cmds|
  {
    if cmds == [] then Tried(s, false, 0)
    else
      var e := Exchange(s, cmds[0]);
      if e.response.Success? then Tried(e.port, true, 1)
      else
        var rest := TryInOrder(e.port, cmds[1..]);
        Tried(rest.port, rest.succeeded, rest.sent + 1)
  }

  /** One step of the chain: the first command, then the rest only if it failed. */
  lemma TryCons(s: PortState, first: string, rest: seq<string>)
    ensures var e := Exchange(s, first);
      TryInOrder(s, [first] + rest)
        == if e.response.Success? then Tried(e.port, true, 1)
           else var t := TryInOrder(e.port, rest); Tried(t.port, t.succeeded, t.sent + 1)
  {
    assert ([first] + rest)[0] == first && ([first] + rest)[1..] == rest;
  }

  /** The chain over three alternatives, written out step by step. */
  lemma TryThree(s: PortState, a: string, b: string, c: string)
    ensures var e1 := Exchange(s, a);
      var e2 := Exchange(e1.port, b);
      var e3 := Exchange(e2.port, c);
      TryInOrder(s, [a, b, c])
        == if e1.response.Success? then Tried(e1.port, true, 1)
           else if e2.response.Success? then Tried(e2.port, true, 2)
           else Tried(e3.port, e3.response.Success?, 3)
  {
    var e1 := Exchange(s, a);
    var e2 := Exchange(e1.port, b);
    assert [a, b, c] == [a] + [b, c] && [b, c] == [b] + [c] && [c] == [c] + [];
    TryCons(s, a, [b, c]);
    TryCons(e1.port, b, [c]);
    TryCons(e2.port, c, []);
  }

  /** The bytes written for a sequence of commands. */
  function WireAll(cmds: seq<string>): seq<byte>
    decreases |cmds|
  {
    if cmds == [] then [] else Terminated(cmds[0]) + WireAll(cmds[1..])
  }

  /**
   * The chain writes a prefix of its commands and nothing else; it ends
   * without success only after every command was sent. On the mock, success
   * means the first command succeeded and nothing more was sent.
   */
  lemma {:induction false} TryInOrderFacts(s: PortState, cmds: seq<string>)
    requires Valid(s)
    ensures var t := TryInOrder(s, cmds);
      && t.sent <= |cmds|
      && (|cmds| > 0 ==> t.sent >= 1)
      && (!t.succeeded ==> t.sent == |cmds|)
      && t.port.writeBuffer == s.writeBuffer + WireAll(cmds[..t.sent])
      && t.port.readBuffer == s.readBuffer
      && Valid(t.port)
      && (|cmds| > 0 ==> (t.succeeded <==> Pending(s) > BufferSize))
      && (t.succeeded ==> t.sent == 1)
    decreases |cmds|
  {
    if cmds != [] {
      var e := Exchange(s, cmds[0]);
      ExchangeFacts(s, cmds[0]);
      assert WireAll(cmds[..1]) == Terminated(cmds[0]) + WireAll([]);
      if e.response.Failure? {
        var rest := TryInOrder(e.port, cmds[1..]);
        TryInOrderFacts(e.port, cmds[1..]);
        assert cmds[..rest.sent + 1][1..] == cmds[1..][..rest.sent];
        assert Pending(e.port) == 0;
      }
    }
  }

  datatype Configured = Configured(port: PortState, err: Option<Error>)

  /** `SetSweepConfig` on an open mock port. */
  function Configure(s: PortState, info: HardwareInfo, v: Variant, startHz: int, stopHz: int, points: int): Configured {
    match FirstViolation(info, startHz, stopHz, points)
    case Some(b) => Configured(s, Some(OutOfRange(b)))
    case None =>
      var primary := Exchange(s, PrimaryCommand(info, startHz, stopHz, points));
      if primary.response.Success? then Configured(primary.port, None)
      else
        var alt := TryInOrder(primary.port, Alternates(v, startHz, stopHz, points));
        Configured(alt.port, if alt.succeeded then None else Some(CommandFailed(primary.response.error)))
  }

  /**
   * A request that breaks a bound is rejected with the first bound it breaks
   * before anything is sent. Otherwise, on the mock, either the primary command
   * succeeds and is the only thing written, or all four commands are written
   * and the primary command's timeout is reported.
   */
  lemma ConfigureFacts(s: PortState, info: HardwareInfo, v: Variant, startHz: int, stopHz: int, points: int)
    requires Valid(s)
    ensures var c := Configure(s, info, v, startHz, stopHz, points);
      var primary := PrimaryCommand(info, startHz, stopHz, points);
      var fv := FirstViolation(info, startHz, stopHz, points);
      && (fv.Some? ==> c == Configured(s, Some(OutOfRange(fv.value))))
      && (fv.None? ==> (c.err.None? <==> Pending(s) > BufferSize))
      && (fv.None? && c.err.None? ==>
            c.port.writeBuffer == s.writeBuffer + Terminated(primary))
      && (fv.None? && c.err.Some? ==>
            && c.err == Some(CommandFailed(Timeout))
            && c.port.writeBuffer
               == s.writeBuffer + Terminated(primary) + WireAll(Alternates(v, startHz, stopHz, points)))
  {
    var primary := PrimaryCommand(info, startHz, stopHz, points);
    if FirstViolation(info, startHz, stopHz, points).None? {
      var e := Exchange(s, primary);
      ExchangeFacts(s, primary);
      if e.response.Failure? {
        var alts := Alternates(v, startHz, stopHz, points);
        TryInOrderFacts(e.port, alts);
        assert alts[..3] == alts;
      }
    }
  }
}
