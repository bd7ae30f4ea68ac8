/**
 * The variant detector (`DetectVersion`): the probe exchange over the mock
 * port, and the ordered prefix and substring rules that classify the probe's
 * raw answer, refined by the text of a best-effort "info" query.
 */
module Detection {
  import opened Wrappers
  import opened Strings
  import opened Errors
  import opened Registry
  import opened MockPort
  import opened Channel

  datatype Detected = Detected(version: string, variant: Variant)

  /** The raw answer to a bare carriage return and the text of the "info" query. */
  datatype ProbeText = ProbeText(response: string, info: string)

  datatype Probed = Probed(port: PortState, result: Result<ProbeText, Error>)

  /** The response starts with the prompt of the original firmware. */
  predicate ChPrompt(response: string) {
    HasPrefix(response, "ch> ")
  }

  /** The response starts with the prompt of the -H firmware, possibly after an error echo. */
  predicate HPrompt(response: string) {
    HasPrefix(response, "\r\nch> ") || HasPrefix(response, "\r\n?\r\nch> ")
  }

  /** The response looks like the V2 firmware's "2>" prompt. */
  predicate V2Prompt(response: string) {
    HasPrefix(response, "2") || Contains(response, "2>")
  }

  /**
   * The classification rules, tried in order; within a rule the info text is
   * searched case-insensitively, most specific substring first.
   */
  function Classify(response: string, info: string): (d: Detected)
    ensures d.variant == Unknown <==> !ChPrompt(response) && !HPrompt(response) && !V2Prompt(response)
    ensures d.variant == Unknown ==> d.version == "unknown"
    ensures ChPrompt(response) ==> d.version == "v1" && d.variant in {V1, TinySA, LiteVNA}
    ensures !ChPrompt(response) && HPrompt(response) ==> d.version == "vh" && d.variant in {VH, V1}
    ensures !ChPrompt(response) && !HPrompt(response) && V2Prompt(response) ==>
      d.version == "v2" && IsV2Family(d.variant)
  {
    var lower := ToLower(info);
    if ChPrompt(response) then
      Detected("v1",
        if Contains(lower, "tinysa") then TinySA
        else if Contains(lower, "litevna") then LiteVNA
        else V1)
    else if HPrompt(response) then
      Detected("vh", if Contains(lower, "nanovna v1") then V1 else VH)
    else if V2Prompt(response) then
      Detected("v2",
        if Contains(lower, "plus4") then V2Plus4
        else if Contains(lower, "plus") then V2Plus
        else if Contains(lower, "saa2") then SAA2
        else V2)
    else Detected("unknown", Unknown)
  }

  /** The version label depends on the raw response alone; the info text only refines the variant. */
  lemma VersionIgnoresInfo(response: string, info: string, other: string)
    ensures Classify(response, info).version == Classify(response, other).version
  {
  }

  /** The info text is compared case-insensitively. */
  lemma ClassifyIgnoresCase(response: string, info: string)
    ensures Classify(response, ToLower(info)) == Classify(response, info)
  {
    ToLowerIdempotent(info);
  }

  /**
   * Every info text naming a Plus4 also contains "plus", so the "plus4" test
   * must come first; it does, and a V2 answer with "plus4" in the info text is
   * a V2 Plus4 however else the text reads.
   */
  lemma Plus4BeforePlus(response: string, info: string)
    requires Contains(ToLower(info), "plus4")
    ensures Contains(ToLower(info), "plus")
    ensures !ChPrompt(response) && !HPrompt(response) && V2Prompt(response) ==>
      Classify(response, info).variant == V2Plus4
  {
    ContainsPrefixOf(ToLower(info), "plus4", "plus");
  }

  /**
   * Which variant each rule picks: the prompt rule chooses the family and
   * version, the case-insensitive info text then picks the member, the first
   * matching substring winning.
   */
  lemma ClassifyTable(response: string, info: string)
    ensures var d := Classify(response, info);
      var lower := ToLower(info);
      var ch := ChPrompt(response);
      var h := !ch && HPrompt(response);
      var two := !ch && !HPrompt(response) && V2Prompt(response);
      && (d.variant == TinySA <==> ch && Contains(lower, "tinysa"))
      && (d.variant == LiteVNA <==> ch && !Contains(lower, "tinysa") && Contains(lower, "litevna"))
      && (d.variant == V1 <==>
            (ch && !Contains(lower, "tinysa") && !Contains(lower, "litevna"))
            || (h && Contains(lower, "nanovna v1")))
      && (d.variant == VH <==> h && !Contains(lower, "nanovna v1"))
      && (d.variant == V2Plus4 <==> two && Contains(lower, "plus4"))
      && (d.variant == V2Plus <==> two && Contains(lower, "plus") && !Contains(lower, "plus4"))
      && (d.variant == SAA2 <==> two && !Contains(lower, "plus") && Contains(lower, "saa2"))
      && (d.variant == V2 <==> two && !Contains(lower, "plus") && !Contains(lower, "saa2"))
  {
    if Contains(ToLower(info), "plus4") {
      ContainsPrefixOf(ToLower(info), "plus4", "plus");
    }
  }

  /** An exact "ch> " answer with "litevna" in the info text is a LiteVNA, unless the text also names a TinySA. */
  lemma LiteVnaScenario(info: string)
    requires Contains(ToLower(info), "litevna") && !Contains(ToLower(info), "tinysa")
    ensures Classify("ch> ", info) == Detected("v1", LiteVNA)
  {
    assert HasPrefix("ch> ", "ch> ");
  }

  /** The exchange part of `DetectVersion`: drain, write "\r", one raw read, then a best-effort "info". */
  function Probe(s: PortState): Probed {
    var w := AfterWrite(Drain(s), Wire("\r"));
    if Pending(w) == 0 then Probed(w, Failure(Timeout))
    else
      var raw := Text(ReadChunk(w, BufferSize));
      var asked := Exchange(AfterRead(w, BufferSize), "info");
      Probed(asked.port,
        Success(ProbeText(raw, if asked.response.Success? then asked.response.value else "")))
  }

  /**
   * On the mock, the probe fails exactly when the draining read swallowed all
   * pending input; otherwise its raw answer is the next buffer's worth of
   * input, and the write buffer gains the carriage return and the "info" command.
   */
  lemma ProbeFacts(s: PortState)
    requires Valid(s)
    ensures var p := Probe(s);
      var d := Drain(s).readIndex;
      && (p.result.Failure? <==> Pending(s) <= BufferSize)
      && (p.result.Failure? ==> p.result.error == Timeout && p.port.writeBuffer == s.writeBuffer + Wire("\r"))
      && (p.result.Success? ==>
            var end := if d + BufferSize < |s.readBuffer| then d + BufferSize else |s.readBuffer|;
            p.result.value.response == Text(s.readBuffer[d..end]))
      && (p.result.Success? ==>
            p.port.writeBuffer == s.writeBuffer + Wire("\r") + Terminated("info"))
  {
    var w := AfterWrite(Drain(s), Wire("\r"));
    ReadKeepsValid(s, BufferSize);
    if Pending(w) > 0 {
      ReadKeepsValid(w, BufferSize);
      ExchangeFacts(AfterRead(w, BufferSize), "info");
    }
  }
}
