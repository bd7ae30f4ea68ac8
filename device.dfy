/**
 * The NanoVNA device handle: the port name, the open port (the mock), the
 * detected version label, variant and hardware record. Every operation that
 * talks to the port is proved to do exactly what the corresponding function
 * over the mock's state describes.
 */
module Nanovna {
  import opened Wrappers
  import opened Strings
  import opened Numbers
  import opened Errors
  import opened Registry
  import opened MockPort
  import opened Channel
  import opened Detection
  import opened SweepConfig
  import opened SweepParse
  import opened InfoParse

  /** The frequency lines of an answer, parsed in order. */
  method ParseFrequencyLines(resp: string, freqCmd: string, prompt: string) returns (freqs: seq<real>)
    ensures freqs == Frequencies(Split(resp, '\n'), freqCmd, prompt)
  {
    var lines := Split(resp, '\n');
    freqs := [];
    for i := 0 to |lines|
      invariant freqs == Frequencies(lines[..i], freqCmd, prompt)
    {
      assert lines[..i + 1][..i] == lines[..i];
      var line := TrimSpace(lines[i]);
      if line == "" || line == freqCmd || Contains(line, prompt) || Contains(line, "?") {
        continue;
      }
      var f := ParseNum(line);
      if f.Some? {
        freqs := freqs + [f.value];
      }
    }
    assert lines[..|lines|] == lines;
  }

  /** The sample lines of a data answer, parsed in order. */
  method ParseSampleLines(resp: string, prompt: string) returns (samples: seq<Complex>)
    ensures samples == Samples(Split(resp, '\n'), prompt)
  {
    var lines := Split(resp, '\n');
    samples := [];
    for i := 0 to |lines|
      invariant samples == Samples(lines[..i], prompt)
    {
      assert lines[..i + 1][..i] == lines[..i];
      var line := TrimSpace(lines[i]);
      if line == "" || HasPrefix(line, "data") || Contains(line, prompt) || Contains(line, "?") {
        continue;
      }
      var parts := Fields(line);
      if |parts| >= 2 {
        var re, im := ParseNum(parts[0]), ParseNum(parts[1]);
        if re.Some? && im.Some? {
          samples := samples + [Complex(re.value, im.value)];
        }
      }
    }
    assert lines[..|lines|] == lines;
  }

  /**
   * The end of `RunSweep`: S21 padded with zeros to S11's length, the no-data
   * check, then all three arrays cut to a common length.
   */
  method ReconcileArrays(freqs: seq<real>, s11: seq<Complex>, parsed21: seq<Complex>) returns (r: Result<SweepData, Error>)
    ensures r == Reconcile(freqs, s11, parsed21)
  {
    var s21 := parsed21;
    while |s21| < |s11|
      invariant |parsed21| <= |s21|
      invariant |s21| == |parsed21| || |s21| <= |s11|
      invariant s21[..|parsed21|] == parsed21
      invariant forall i :: |parsed21| <= i < |s21| ==> s21[i] == Zero
      decreases |s11| - |s21|
    {
      s21 := s21 + [Zero];
    }
    if |freqs| == 0 || |s11| == 0 {
      return Failure(NoData);
    }
    var minLen := |freqs|;
    if |s11| < minLen {
      minLen := |s11|;
    }
    var f, s := freqs[..minLen], s11[..minLen];
    if |s21| >= minLen {
      s21 := s21[..minLen];
    } else {
      // unreachable: the padding loop above already made S21 as long as S11
      assert false;
    }
    ghost var expected := Reconcile(freqs, s11, parsed21);
    assert forall i :: 0 <= i < minLen ==> s21[i] == if i < |parsed21| then parsed21[i] else Zero;
    assert expected.Success? && |expected.value.s21| == minLen == Min(|freqs|, |s11|);
    assert forall i :: 0 <= i < minLen ==> expected.value.s21[i] == s21[i];
    assert expected.value.s21 == s21;
    return Success(SweepData(f, s, s21));
  }

  /**
   * `sendCommand`'s read loop: up to ten reads into a fresh buffer, the
   * chunks accumulated until one contains the end marker; a timeout ends the
   * loop, as an error only when nothing was accumulated.
   */
  method ReadAnswer(port: MockSerialPort) returns (resp: string, err: Option<Error>)
    modifies port
    ensures var e := Collect(old(port.State()), [], 0);
      && port.State() == e.port
      && (e.response.Success? ==> resp == e.response.value && err == None)
      && (e.response.Failure? ==> resp == "" && err == Some(e.response.error))
  {
    ghost var target := Collect(port.State(), [], 0);
    var buf := new byte[BufferSize];
    var acc: seq<byte> := [];
    var attempts := 0;
    while attempts < MaxAttempts
      invariant 0 <= attempts <= MaxAttempts
      invariant buf.Length == BufferSize
      invariant Collect(port.State(), acc, attempts) == target
    {
      ghost var before := port.State();
      var n, readErr := port.Read(buf);
      if readErr.Some? {
        assert target == Exchanged(before, if |acc| > 0 then Success(Text(acc)) else Failure(Timeout));
        // the mock's only read error is a timeout
        if |acc| > 0 {
          return Text(acc), None;
        }
        return "", readErr;
      }
      // a read without error always delivers at least one byte
      var chunk := buf[..n];
      assert chunk == ReadChunk(before, BufferSize);
      assert port.State() == AfterRead(before, BufferSize);
      acc := acc + chunk;
      if Contains(Text(chunk), EndMarker) {
        assert target == Exchanged(port.State(), Success(Text(acc)));
        return Text(acc), None;
      }
      attempts := attempts + 1;
    }
    return Text(acc), None;
  }

  /** `GetInfo`'s handling of one retained, trimmed line of the "info" answer. */
  method InfoLineUpdate(info: DeviceInfo, line: string, v: Variant) returns (next: DeviceInfo)
    ensures next == DeviceInfo(ModelAfter(info.model, line, v), FirmwareAfter(info.firmware, line, v),
      SerialAfter(info.serialNum, line, v))
  {
    var model, firmware, serial := info.model, info.firmware, info.serialNum;
    if IsV2Family(v) {
      if Contains(ToLower(line), "nanovna") || Contains(ToLower(line), "saa2") {
        model := line;
      }
      if Contains(ToLower(line), "firmware") || Contains(ToLower(line), "version") {
        var parts := Split(line, ':');
        if |parts| >= 2 {
          firmware := TrimSpace(parts[1]);
        }
      }
    } else {
      if model == VariantName(v) {
        model := line;
      }
      if HasPrefix(ToLower(line), "serial") {
        serial := TrimSpace(TrimPrefix(line, "Serial:"));
      }
      if Contains(line, "v") && firmware == "" {
        var token := FirstVersionField(Fields(line));
        if token.Some? {
          firmware := token.value;
        }
      }
    }
    assert model == ModelAfter(info.model, line, v);
    assert firmware == FirmwareAfter(info.firmware, line, v);
    assert serial == SerialAfter(info.serialNum, line, v);
    next := DeviceInfo(model, firmware, serial);
  }

  /** The inner loop of `GetInfo`: the first field starting with "v" that is longer than "v". */
  method FirstVersionField(parts: seq<string>) returns (token: Option<string>)
    ensures token == FirstVersionToken(parts)
  {
    for j := 0 to |parts|
      invariant FirstVersionToken(parts[j..]) == FirstVersionToken(parts)
    {
      assert parts[j..][1..] == parts[j + 1..];
      if HasPrefix(parts[j], "v") && |parts[j]| > 1 {
        return Some(parts[j]);
      }
    }
    assert parts[|parts|..] == [];
    return None;
  }

  /**
   * `GetInfo`'s loop over the lines of the "info" answer: blank, echoed and
   * prompt lines are skipped, every other line updates the fields.
   */
  method ScanInfoLines(lines: seq<string>, v: Variant, infoCmd: string, prompt: string) returns (info: DeviceInfo)
    ensures info == ScanInfo(lines, v, infoCmd, prompt)
  {
    info := DeviceInfo(VariantName(v), "", "");
    for i := 0 to |lines|
      invariant info == ScanInfo(lines[..i], v, infoCmd, prompt)
    {
      assert lines[..i + 1][..i] == lines[..i];
      var line := TrimSpace(lines[i]);
      if line == "" || line == infoCmd || Contains(line, prompt) {
        continue;
      }
      info := InfoLineUpdate(info, line, v);
    }
    assert lines[..|lines|] == lines;
  }

  class Device {
    var port: string
    var portHandle: MockSerialPort?
    var version: string
    var variant: Variant
    var hardwareInfo: HardwareInfo

    /** `Open` with a custom port: not yet detected, so the conservative record. */
    constructor Open(port: string, custom: MockSerialPort)
      ensures this.port == port && portHandle == custom
      ensures version == "" && variant == Unknown && hardwareInfo == Lookup(Unknown)
    {
      this.port := port;
      portHandle := custom;
      version := "";
      variant := Unknown;
      hardwareInfo := Lookup(Unknown);
    }

    /** `OpenWithVariant`: open, then force the variant, its record and its version label. */
    constructor OpenWithVariant(port: string, custom: MockSerialPort, v: Variant)
      ensures this.port == port && portHandle == custom
      ensures variant == v && hardwareInfo == Lookup(v) && version == VersionLabel(v)
    {
      this.port := port;
      portHandle := custom;
      variant := v;
      hardwareInfo := Lookup(v);
      version := VersionLabel(v);
    }

    /** Replaces the port the device talks to. */
    method SetPortHandle(sp: MockSerialPort?)
      modifies this
      ensures portHandle == sp
      ensures port == old(port) && version == old(version)
      ensures variant == old(variant) && hardwareInfo == old(hardwareInfo)
    {
      portHandle := sp;
    }

    /** Whether the record lists the S-parameter `p`. */
    method IsPortSupported(p: string) returns (supported: bool)
      ensures supported <==> p in hardwareInfo.supportedPorts
    {
      var ports := hardwareInfo.supportedPorts;
      for i := 0 to |ports|
        invariant p !in ports[..i]
      {
        if ports[i] == p {
          return true;
        }
      }
      assert ports[..|ports|] == ports;
      return false;
    }

    /**
     * `sendCommand`: drain, write the command and a carriage return, then read
     * until a chunk holds "ch>", ten reads have been made, or a read times out.
     */
    method SendCommand(cmd: string) returns (resp: string, err: Option<Error>)
      modifies portHandle
      ensures portHandle == null ==> resp == "" && err == Some(NotOpen)
      ensures portHandle != null ==>
        var e := Exchange(old(portHandle.State()), cmd);
        && portHandle.State() == e.port
        && (e.response.Success? ==> resp == e.response.value && err == None)
        && (e.response.Failure? ==> resp == "" && err == Some(e.response.error))
    {
      if portHandle == null {
        return "", Some(NotOpen);
      }
      ghost var start := portHandle.State();
      var buf := new byte[BufferSize];
      var _, _ := portHandle.Read(buf);
      // the mock's Write never fails, so there is no write error to report
      var _, _ := portHandle.Write(Wire(cmd + "\r"));
      assert portHandle.State() == AfterWrite(Drain(start), Terminated(cmd));
      resp, err := ReadAnswer(portHandle);
    }

    /**
     * `SetSweepConfig`: the range checks, then the primary command, then the
     * three alternatives while each fails; the primary command's error is
     * reported only when all four failed.
     */
    method SetSweepConfig(startHz: int, stopHz: int, points: int) returns (err: Option<Error>)
      modifies portHandle
      ensures portHandle == null ==>
        err == match FirstViolation(hardwareInfo, startHz, stopHz, points)
               case Some(b) => Some(OutOfRange(b))
               case None => Some(CommandFailed(NotOpen))
      ensures portHandle != null ==>
        var c := Configure(old(portHandle.State()), hardwareInfo, variant, startHz, stopHz, points);
        portHandle.State() == c.port && err == c.err
    {
      if startHz < hardwareInfo.range.minHz {
        return Some(OutOfRange(StartBelowMin));
      }
      if stopHz > hardwareInfo.range.maxHz {
        return Some(OutOfRange(StopAboveMax));
      }
      if points > hardwareInfo.maxSweepPoints {
        return Some(OutOfRange(TooManyPoints));
      }
      var cmd := FormatTemplate(hardwareInfo.commands.sweep, [startHz, stopHz, points]);
      var alts := Alternates(variant, startHz, stopHz, points);
      assert alts == [alts[0], alts[1], alts[2]];
      var _, err1 := SendCommand(cmd);
      ghost var s1 := if portHandle == null then PortState([], [], false, 0) else portHandle.State();
      if portHandle != null {
        TryThree(s1, alts[0], alts[1], alts[2]);
      }
      if err1.Some? {
        var _, err2 := SendCommand(alts[0]);
        if err2.Some? {
          var _, err3 := SendCommand(alts[1]);
          if err3.Some? {
            var _, err4 := SendCommand(alts[2]);
            if err4.Some? {
              return Some(CommandFailed(err1.value));
            }
          }
        }
      }
      return None;
    }

    /**
     * `RunSweep`: the frequency query, the S11 query and, when the record
     * supports it, the S21 query (zeros if that one fails); then padding,
     * the no-data check and truncation to a common length.
     */
    method RunSweep() returns (r: Result<SweepData, Error>)
      modifies portHandle
      ensures portHandle == null ==> r == Failure(QueryFailed(FrequencyQuery, NotOpen))
      ensures portHandle != null ==>
        var sw := Sweep(old(portHandle.State()), hardwareInfo);
        portHandle.State() == sw.port && r == sw.result
    {
      var cmds := hardwareInfo.commands;
      var freqResp, freqErr := SendCommand(cmds.freq);
      if freqErr.Some? {
        return Failure(QueryFailed(FrequencyQuery, freqErr.value));
      }
      var freqs := ParseFrequencyLines(freqResp, cmds.freq, cmds.prompt);
      var s11Resp, s11Err := SendCommand(FormatTemplate(cmds.data, [0]));
      if s11Err.Some? {
        return Failure(QueryFailed(S11Query, s11Err.value));
      }
      var s11 := ParseSampleLines(s11Resp, cmds.prompt);
      var s21: seq<Complex> := [];
      var hasPort := IsPortSupported("S21");
      if hardwareInfo.capabilities.hasS21 && hasPort {
        var s21Resp, s21Err := SendCommand(FormatTemplate(cmds.data, [1]));
        if s21Err.Some? {
          // one zero placeholder per S11 sample
          for i := 0 to |s11|
            invariant s21 == Zeros(i)
          {
            s21 := s21 + [Zero];
          }
        } else {
          s21 := ParseSampleLines(s21Resp, cmds.prompt);
        }
      }
      r := ReconcileArrays(freqs, s11, s21);
    }

    /**
     * `GetInfo`: the "info" query, then the model, firmware and serial number
     * collected line by line, with the variant's name as the fallback model.
     */
    method GetInfo() returns (r: Result<DeviceInfo, Error>)
      modifies portHandle
      ensures portHandle == null ==> r == Failure(NotOpen)
      ensures portHandle != null ==>
        var e := Exchange(old(portHandle.State()), hardwareInfo.commands.info);
        && portHandle.State() == e.port
        && (e.response.Success? ==> r == Success(ParseInfo(e.response.value, variant, hardwareInfo)))
        && (e.response.Failure? ==> r == Failure(e.response.error))
    {
      var infoCmd := hardwareInfo.commands.info;
      var prompt := hardwareInfo.commands.prompt;
      var resp, err := SendCommand(infoCmd);
      if err.Some? {
        return Failure(err.value);
      }
      var name := VariantName(variant);
      var info := ScanInfoLines(Split(resp, '\n'), variant, infoCmd, prompt);
      if info.model == "" || info.model == name {
        info := info.(model := name + " (detected)");
      }
      return Success(info);
    }

    /**
     * The exchange part of `DetectVersion`: a draining read, a bare carriage
     * return, one raw read, then a best-effort "info" query whose failure
     * leaves an empty info text.
     */
    method ProbePort() returns (r: Result<ProbeText, Error>)
      requires portHandle != null
      modifies portHandle
      ensures portHandle.State() == Probe(old(portHandle.State())).port
      ensures r == Probe(old(portHandle.State())).result
    {
      ghost var start := portHandle.State();
      var buf := new byte[BufferSize];
      var _, _ := portHandle.Read(buf);
      // the mock's Write never fails
      var _, _ := portHandle.Write(Wire("\r"));
      ghost var written := portHandle.State();
      assert written == AfterWrite(Drain(start), Wire("\r"));
      var n, readErr := portHandle.Read(buf);
      if readErr.Some? {
        return Failure(readErr.value);
      }
      var response := Text(buf[..n]);
      assert response == Text(ReadChunk(written, BufferSize));
      // on failure the command channel hands back an empty answer
      var info, _ := SendCommand("info");
      return Success(ProbeText(response, info));
    }

    /**
     * `DetectVersion`: the probe, then the classification rules of `Classify`;
     * the variant's record is installed even when the answer is not recognised.
     */
    method DetectVersion() returns (ver: string, err: Option<Error>)
      modifies this, portHandle
      ensures portHandle == old(portHandle) && port == old(port)
      ensures old(portHandle) == null ==>
        && ver == "" && err == Some(NotOpen)
        && version == old(version) && variant == old(variant) && hardwareInfo == old(hardwareInfo)
      ensures old(portHandle) != null ==>
        var p := Probe(old(portHandle.State()));
        && portHandle.State() == p.port
        && (p.result.Failure? ==>
              && ver == "" && err == Some(p.result.error)
              && version == old(version) && variant == old(variant) && hardwareInfo == old(hardwareInfo))
        && (p.result.Success? ==>
              var d := Classify(p.result.value.response, p.result.value.info);
              && version == d.version && variant == d.variant && hardwareInfo == Lookup(d.variant)
              && (d.variant == Unknown ==> ver == "unknown" && err == Some(Unrecognized(p.result.value.response)))
              && (d.variant != Unknown ==> ver == d.version && err == None))
    {
      if portHandle == null {
        return "", Some(NotOpen);
      }
      var probe := ProbePort();
      if probe.Failure? {
        return "", Some(probe.error);
      }
      var detected := Classify(probe.value.response, probe.value.info);
      version, variant := detected.version, detected.variant;
      hardwareInfo := Lookup(variant);
      if variant == Unknown {
        return "unknown", Some(Unrecognized(probe.value.response));
      }
      return version, None;
    }

    /** `Close`: closes the open port, if any, and forgets it. */
    method Close() returns (err: Option<Error>)
      modifies this, portHandle
      ensures portHandle == null && err == None
      ensures port == old(port) && version == old(version)
      ensures variant == old(variant) && hardwareInfo == old(hardwareInfo)
      ensures old(portHandle) != null ==> old(portHandle).State() == old(portHandle.State()).(closed := true)
    {
      if portHandle != null {
        err := portHandle.Close();
        portHandle := null;
        return err;
      }
      return None;
    }
  }
}
