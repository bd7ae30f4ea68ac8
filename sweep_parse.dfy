/**
 * The sweep data parser (`RunSweep`): line filtering and tokenising of the
 * frequency and data answers, and the reconciliation of the three arrays.
 */
module SweepParse {
  import opened Wrappers
  import opened Strings
  import opened Numbers
  import opened Errors
  import opened Registry
  import opened MockPort
  import opened Channel

  /** A complex sample as its real and imaginary parts. */
  datatype Complex = Complex(re: real, im: real)

  const Zero := Complex(0.0, 0.0)

  datatype SweepData = SweepData(frequencies: seq<real>, s11: seq<Complex>, s21: seq<Complex>)

  /** A frequency-answer line that is skipped before any parsing. */
  predicate SkipsFrequency(line: string, freqCmd: string, prompt: string) {
    var t := TrimSpace(line);
    t == "" || t == freqCmd || Contains(t, prompt) || Contains(t, "?")
  }

  /** A data-answer line that is skipped before any parsing. */
  predicate SkipsSample(line: string, prompt: string) {
    var t := TrimSpace(line);
    t == "" || HasPrefix(t, "data") || Contains(t, prompt) || Contains(t, "?")
  }

  /** The frequency a line contributes, if any. */
  function FrequencyOf(line: string, freqCmd: string, prompt: string): (r: Option<real>)
    ensures SkipsFrequency(line, freqCmd, prompt) ==> r.None?
  {
    if SkipsFrequency(line, freqCmd, prompt) then None else ParseNum(TrimSpace(line))
  }

  /** The sample a line contributes, if any: its first two fields as real and imaginary parts. */
  function SampleOf(line: string, prompt: string): (r: Option<Complex>)
    ensures SkipsSample(line, prompt) ==> r.None?
  {
    if SkipsSample(line, prompt) then None
    else
      var parts := Fields(TrimSpace(line));
      if |parts| >= 2 then
        match (ParseNum(parts[0]), ParseNum(parts[1]))
        case (Some(re), Some(im)) => Some(Complex(re, im))
        case _ => None
      else None
  }

  /** The frequencies of the lines, in order. */
  function Frequencies(lines: seq<string>, freqCmd: string, prompt: string): (fs: seq<real>)
    ensures |fs| <= |lines|
  {
    if lines == [] then []
    else
      var prev := Frequencies(lines[..|lines| - 1], freqCmd, prompt);
      match FrequencyOf(lines[|lines| - 1], freqCmd, prompt)
      case Some(f) => prev + [f]
      case None => prev
  }

  /** The samples of the lines, in order. */
  function Samples(lines: seq<string>, prompt: string): (cs: seq<Complex>)
    ensures |cs| <= |lines|
  {
    if lines == [] then []
    else
      var prev := Samples(lines[..|lines| - 1], prompt);
      match SampleOf(lines[|lines| - 1], prompt)
      case Some(c) => prev + [c]
      case None => prev
  }

  lemma {:induction false} FrequenciesConcat(a: seq<string>, b: seq<string>, freqCmd: string, prompt: string)
    ensures Frequencies(a + b, freqCmd, prompt) == Frequencies(a, freqCmd, prompt) + Frequencies(b, freqCmd, prompt)
    decreases |b|
  {
    if b == [] {
      assert a + b == a;
    } else {
      var b' := b[..|b| - 1];
      assert (a + b)[..|a + b| - 1] == a + b';
      FrequenciesConcat(a, b', freqCmd, prompt);
    }
  }

  lemma {:induction false} SamplesConcat(a: seq<string>, b: seq<string>, prompt: string)
    ensures Samples(a + b, prompt) == Samples(a, prompt) + Samples(b, prompt)
    decreases |b|
  {
    if b == [] {
      assert a + b == a;
    } else {
      var b' := b[..|b| - 1];
      assert (a + b)[..|a + b| - 1] == a + b';
      SamplesConcat(a, b', prompt);
    }
  }

  /** Blank, echoed, prompt and "?" lines of a frequency answer contribute nothing. */
  lemma SkippedFrequencyLine(lines: seq<string>, i: nat, freqCmd: string, prompt: string)
    requires i < |lines| && SkipsFrequency(lines[i], freqCmd, prompt)
    ensures Frequencies(lines, freqCmd, prompt) == Frequencies(lines[..i] + lines[i + 1..], freqCmd, prompt)
  {
    assert lines == lines[..i] + [lines[i]] + lines[i + 1..];
    FrequenciesConcat(lines[..i] + [lines[i]], lines[i + 1..], freqCmd, prompt);
    FrequenciesConcat(lines[..i], [lines[i]], freqCmd, prompt);
    FrequenciesConcat(lines[..i], lines[i + 1..], freqCmd, prompt);
    assert [lines[i]][..0] == [];
  }

  /** Blank, "data..." echo, prompt and "?" lines of a data answer contribute nothing. */
  lemma SkippedSampleLine(lines: seq<string>, i: nat, prompt: string)
    requires i < |lines| && SkipsSample(lines[i], prompt)
    ensures Samples(lines, prompt) == Samples(lines[..i] + lines[i + 1..], prompt)
  {
    assert lines == lines[..i] + [lines[i]] + lines[i + 1..];
    SamplesConcat(lines[..i] + [lines[i]], lines[i + 1..], prompt);
    SamplesConcat(lines[..i], [lines[i]], prompt);
    SamplesConcat(lines[..i], lines[i + 1..], prompt);
    assert [lines[i]][..0] == [];
  }

  function Zeros(n: nat): (zs: seq<Complex>)
    ensures |zs| == n && forall i :: 0 <= i < n ==> zs[i] == Zero
  {
    seq(n, _ => Zero)
  }

  function Min(a: nat, b: nat): nat {
    if a < b then a else b
  }

  /**
   * The three arrays made consistent: S21 padded with zeros to S11's length,
   * a failure when no frequency or no S11 sample was parsed, then all three
   * cut to the shorter of the frequency and S11 arrays.
   */
  function Reconcile(freqs: seq<real>, s11: seq<Complex>, s21: seq<Complex>): (r: Result<SweepData, Error>)
    ensures r.Failure? <==> |freqs| == 0 || |s11| == 0
    ensures r.Failure? ==> r.error == NoData
    ensures r.Success? ==>
      var m := Min(|freqs|, |s11|);
      && r.value.frequencies == freqs[..m]
      && r.value.s11 == s11[..m]
      && |r.value.s21| == m
      && forall i :: 0 <= i < m ==> r.value.s21[i] == if i < |s21| then s21[i] else Zero
  {
    var padded := if |s21| < |s11| then s21 + Zeros(|s11| - |s21|) else s21;
    if |freqs| == 0 || |s11| == 0 then Failure(NoData)
    else
      var m := Min(|freqs|, |s11|);
      Success(SweepData(freqs[..m], s11[..m], padded[..m]))
  }

  /** Two frequencies and one S11 sample: one point, with a zero S21 placeholder. */
  lemma TruncateAndPadScenario()
    ensures Reconcile([1000000.0, 2000000.0], [Complex(0.5, -0.2)], [])
         == Success(SweepData([1000000.0], [Complex(0.5, -0.2)], [Zero]))
  {
    var r := Reconcile([1000000.0, 2000000.0], [Complex(0.5, -0.2)], []);
    assert r.Success? && |r.value.s21| == 1 && r.value.s21[0] == Zero;
    assert r.value.s21 == [Zero];
    assert r.value.frequencies == [1000000.0, 2000000.0][..1] == [1000000.0];
    assert r.value.s11 == [Complex(0.5, -0.2)][..1] == [Complex(0.5, -0.2)];
  }

  /** The data command for a port index, from the record's template. */
  function DataCommand(info: HardwareInfo, port: int): string {
    FormatTemplate(info.commands.data, [port])
  }

  /** S21 is queried only when the record has S21 and lists it as a port. */
  predicate WantsS21(info: HardwareInfo) {
    info.capabilities.hasS21 && "S21" in info.supportedPorts
  }

  datatype Swept = Swept(port: PortState, result: Result<SweepData, Error>)

  /** `RunSweep` on an open mock port with the given hardware record. */
  function Sweep(s: PortState, info: HardwareInfo): Swept {
    var cmds := info.commands;
    var fx := Exchange(s, cmds.freq);
    if fx.response.Failure? then Swept(fx.port, Failure(QueryFailed(FrequencyQuery, fx.response.error)))
    else
      var freqs := Frequencies(Split(fx.response.value, '\n'), cmds.freq, cmds.prompt);
      var sx := Exchange(fx.port, DataCommand(info, 0));
      if sx.response.Failure? then Swept(sx.port, Failure(QueryFailed(S11Query, sx.response.error)))
      else
        var s11 := Samples(Split(sx.response.value, '\n'), cmds.prompt);
        if WantsS21(info) then
          var tx := Exchange(sx.port, DataCommand(info, 1));
          var s21 := if tx.response.Failure? then Zeros(|s11|)
                     else Samples(Split(tx.response.value, '\n'), cmds.prompt);
          Swept(tx.port, Reconcile(freqs, s11, s21))
        else Swept(sx.port, Reconcile(freqs, s11, []))
  }

  /**
   * After a successful sweep the three arrays have one length, no longer than
   * the parsed frequencies; S21 holds only zero placeholders when the record
   * has no S21, does not list it, or the S21 query failed.
   */
  lemma SweepFacts(s: PortState, info: HardwareInfo)
    ensures var fx := Exchange(s, info.commands.freq);
      var sx := Exchange(fx.port, DataCommand(info, 0));
      var tx := Exchange(sx.port, DataCommand(info, 1));
      var r := Sweep(s, info).result;
      r.Success? ==>
        && fx.response.Success? && sx.response.Success?
        && var freqs := Frequencies(Split(fx.response.value, '\n'), info.commands.freq, info.commands.prompt);
           var s11 := Samples(Split(sx.response.value, '\n'), info.commands.prompt);
           && |r.value.frequencies| == |r.value.s11| == |r.value.s21| == Min(|freqs|, |s11|) > 0
           && r.value.frequencies <= freqs
           && r.value.s11 <= s11
           && (!WantsS21(info) || tx.response.Failure? ==>
                 forall i :: 0 <= i < |r.value.s21| ==> r.value.s21[i] == Zero)
  {
  }

  /** A record without S21 support, such as the conservative default, always yields zero S21. */
  lemma NoS21MeansZeros(s: PortState, v: Variant)
    requires !Lookup(v).capabilities.hasS21
    ensures var r := Sweep(s, Lookup(v)).result;
      r.Success? ==> forall i :: 0 <= i < |r.value.s21| ==> r.value.s21[i] == Zero
  {
    SweepFacts(s, Lookup(v));
  }
}
