/**
 * The device-info parser (`GetInfo`): model, firmware and serial number
 * picked out of the "info" answer line by line, with one heuristic for the
 * V2 family and another for every other variant.
 */
module InfoParse {
  import opened Wrappers
  import opened Strings
  import opened Registry

  datatype DeviceInfo = DeviceInfo(model: string, firmware: string, serialNum: string)

  /** Blank lines, the echoed command and prompt lines are skipped. */
  predicate SkipsInfo(line: string, infoCmd: string, prompt: string) {
    var t := TrimSpace(line);
    t == "" || t == infoCmd || Contains(t, prompt)
  }

  predicate NamesModel(t: string) {
    Contains(ToLower(t), "nanovna") || Contains(ToLower(t), "saa2")
  }

  predicate NamesFirmware(t: string) {
    Contains(ToLower(t), "firmware") || Contains(ToLower(t), "version")
  }

  /** The trimmed text between the first and the second colon (or the end). */
  function ColonField(t: string): string
    requires |Split(t, ':')| >= 2
  {
    TrimSpace(Split(t, ':')[1])
  }

  /** The first field that starts with "v" and is longer than one character. */
  function FirstVersionToken(fields: seq<string>): (r: Option<string>)
    ensures r.Some? ==> r.value in fields && HasPrefix(r.value, "v") && |r.value| > 1
    ensures r.None? <==> forall i :: 0 <= i < |fields| ==> !(HasPrefix(fields[i], "v") && |fields[i]| > 1)
    ensures r.Some? ==>
      exists k :: 0 <= k < |fields| && fields[k] == r.value
        && forall j :: 0 <= j < k ==> !(HasPrefix(fields[j], "v") && |fields[j]| > 1)
    decreases |fields|
  {
    if fields == [] then None
    else if HasPrefix(fields[0], "v") && |fields[0]| > 1 then Some(fields[0])
    else
      var r := FirstVersionToken(fields[1..]);
      assert forall k :: 0 <= k < |fields| - 1 ==> fields[1..][k] == fields[k + 1];
      r
  }

  /** The model after one retained, trimmed line. */
  function ModelAfter(model: string, t: string, v: Variant): string {
    if IsV2Family(v) then (if NamesModel(t) then t else model)
    else if model == VariantName(v) then t
    else model
  }

  /** The firmware after one retained, trimmed line. */
  function FirmwareAfter(firmware: string, t: string, v: Variant): string {
    if IsV2Family(v) then
      (if NamesFirmware(t) && |Split(t, ':')| >= 2 then ColonField(t) else firmware)
    else if Contains(t, "v") && firmware == "" then
      match FirstVersionToken(Fields(t))
      case Some(p) => p
      case None => firmware
    else firmware
  }

  /** The serial number after one retained, trimmed line. */
  function SerialAfter(serial: string, t: string, v: Variant): string {
    if !IsV2Family(v) && HasPrefix(ToLower(t), "serial") then TrimSpace(TrimPrefix(t, "Serial:"))
    else serial
  }

  /*
   * Each field is updated from its own previous value and the line alone, so
   * the scan is three independent scans over the retained lines.
   */

  /** The model after the lines, starting from the variant's name. */
  function ScanModel(lines: seq<string>, v: Variant, infoCmd: string, prompt: string): string {
    if lines == [] then VariantName(v)
    else
      var prev := ScanModel(lines[..|lines| - 1], v, infoCmd, prompt);
      var line := lines[|lines| - 1];
      if SkipsInfo(line, infoCmd, prompt) then prev else ModelAfter(prev, TrimSpace(line), v)
  }

  /** The firmware after the lines, starting empty. */
  function ScanFirmware(lines: seq<string>, v: Variant, infoCmd: string, prompt: string): string {
    if lines == [] then ""
    else
      var prev := ScanFirmware(lines[..|lines| - 1], v, infoCmd, prompt);
      var line := lines[|lines| - 1];
      if SkipsInfo(line, infoCmd, prompt) then prev else FirmwareAfter(prev, TrimSpace(line), v)
  }

  /** The serial number after the lines, starting empty. */
  function ScanSerial(lines: seq<string>, v: Variant, infoCmd: string, prompt: string): string {
    if lines == [] then ""
    else
      var prev := ScanSerial(lines[..|lines| - 1], v, infoCmd, prompt);
      var line := lines[|lines| - 1];
      if SkipsInfo(line, infoCmd, prompt) then prev else SerialAfter(prev, TrimSpace(line), v)
  }

  /** The fields after scanning the lines in order. */
  function ScanInfo(lines: seq<string>, v: Variant, infoCmd: string, prompt: string): DeviceInfo {
    DeviceInfo(ScanModel(lines, v, infoCmd, prompt), ScanFirmware(lines, v, infoCmd, prompt),
      ScanSerial(lines, v, infoCmd, prompt))
  }

  /** A model that is empty or only the variant's name becomes "<name> (detected)". */
  function Finish(info: DeviceInfo, v: Variant): (r: DeviceInfo)
    ensures r.model != "" && r.model != VariantName(v)
    ensures r.firmware == info.firmware && r.serialNum == info.serialNum
    ensures info.model != "" && info.model != VariantName(v) ==> r == info
  {
    if info.model == "" || info.model == VariantName(v) then info.(model := VariantName(v) + " (detected)")
    else info
  }

  /** A retained line that yields a firmware token outside the V2 family. */
  predicate VersionLine(line: string, infoCmd: string, prompt: string) {
    var t := TrimSpace(line);
    !SkipsInfo(line, infoCmd, prompt) && Contains(t, "v") && FirstVersionToken(Fields(t)).Some?
  }

  /** Outside the V2 family, lines without a version token leave the firmware empty. */
  lemma {:induction false} FirmwareEmptyBefore(lines: seq<string>, v: Variant, infoCmd: string, prompt: string)
    requires !IsV2Family(v)
    requires forall j :: 0 <= j < |lines| ==> !VersionLine(lines[j], infoCmd, prompt)
    ensures ScanFirmware(lines, v, infoCmd, prompt) == ""
  {
    if lines != [] {
      var prefix := lines[..|lines| - 1];
      assert forall j :: 0 <= j < |prefix| ==> prefix[j] == lines[j];
      FirmwareEmptyBefore(prefix, v, infoCmd, prompt);
    }
  }

  /** Outside the V2 family, a firmware once found is never replaced. */
  lemma {:induction false} FirmwareSticks(lines: seq<string>, k: nat, v: Variant, infoCmd: string, prompt: string)
    requires !IsV2Family(v) && k <= |lines|
    requires ScanFirmware(lines[..k], v, infoCmd, prompt) != ""
    ensures ScanFirmware(lines, v, infoCmd, prompt) == ScanFirmware(lines[..k], v, infoCmd, prompt)
    decreases |lines| - k
  {
    if k < |lines| {
      var next := lines[..k + 1];
      assert next[..k] == lines[..k];
      FirmwareSticks(lines, k + 1, v, infoCmd, prompt);
    } else {
      assert lines[..k] == lines;
    }
  }

  /**
   * Outside the V2 family, the firmware is the first "v..." field of the
   * first retained line that has one.
   */
  lemma FirmwareFromFirstVersionLine(lines: seq<string>, i: nat, v: Variant, infoCmd: string, prompt: string)
    requires !IsV2Family(v) && i < |lines|
    requires forall j :: 0 <= j < i ==> !VersionLine(lines[j], infoCmd, prompt)
    requires VersionLine(lines[i], infoCmd, prompt)
    ensures ScanFirmware(lines, v, infoCmd, prompt) == FirstVersionToken(Fields(TrimSpace(lines[i]))).value
  {
    var first := lines[..i + 1];
    assert first[..i] == lines[..i] && first[i] == lines[i];
    FirmwareEmptyBefore(lines[..i], v, infoCmd, prompt);
    FirmwareSticks(lines, i + 1, v, infoCmd, prompt);
  }

  /** `GetInfo`'s parse of an "info" answer. */
  function ParseInfo(resp: string, v: Variant, hw: HardwareInfo): DeviceInfo {
    Finish(ScanInfo(Split(resp, '\n'), v, hw.commands.info, hw.commands.prompt), v)
  }

  /** Index of the last set flag, if any. */
  function Last(flags: seq<bool>): (k: Option<nat>)
    ensures k.None? <==> forall i :: 0 <= i < |flags| ==> !flags[i]
    ensures k.Some? ==> k.value < |flags| && flags[k.value] && forall j :: k.value < j < |flags| ==> !flags[j]
  {
    if flags == [] then None
    else if flags[|flags| - 1] then Some(|flags| - 1)
    else Last(flags[..|flags| - 1])
  }

  /** A retained line that sets the firmware of a V2-family device. */
  predicate FirmwareLine(line: string, infoCmd: string, prompt: string) {
    !SkipsInfo(line, infoCmd, prompt) && NamesFirmware(TrimSpace(line)) && |Split(TrimSpace(line), ':')| >= 2
  }

  /** Which lines are firmware lines. */
  function FirmwareFlags(lines: seq<string>, infoCmd: string, prompt: string): (flags: seq<bool>)
    ensures |flags| == |lines|
    ensures forall i :: 0 <= i < |lines| ==> flags[i] == FirmwareLine(lines[i], infoCmd, prompt)
  {
    seq(|lines|, i requires 0 <= i < |lines| => FirmwareLine(lines[i], infoCmd, prompt))
  }

  /** Index of the last firmware line, if any. */
  function LastFirmwareLine(lines: seq<string>, infoCmd: string, prompt: string): (k: Option<nat>)
    ensures k.None? <==> forall i :: 0 <= i < |lines| ==> !FirmwareLine(lines[i], infoCmd, prompt)
    ensures k.Some? ==>
      && k.value < |lines| && FirmwareLine(lines[k.value], infoCmd, prompt)
      && forall j :: k.value < j < |lines| ==> !FirmwareLine(lines[j], infoCmd, prompt)
  {
    Last(FirmwareFlags(lines, infoCmd, prompt))
  }

  /**
   * For the V2 family the firmware is the text between the first and second
   * colon of the last firmware or version line, or empty when there is none.
   */
  lemma {:induction false} V2FirmwareFromLastLine(lines: seq<string>, v: Variant, infoCmd: string, prompt: string)
    requires IsV2Family(v)
    ensures ScanFirmware(lines, v, infoCmd, prompt)
         == match LastFirmwareLine(lines, infoCmd, prompt)
            case None => ""
            case Some(k) => ColonField(TrimSpace(lines[k]))
  {
    if lines != [] {
      var prefix := lines[..|lines| - 1];
      var last := lines[|lines| - 1];
      V2FirmwareFromLastLine(prefix, v, infoCmd, prompt);
      var prev := ScanFirmware(prefix, v, infoCmd, prompt);
      var fw := ScanFirmware(lines, v, infoCmd, prompt);
      if FirmwareLine(last, infoCmd, prompt) {
        assert LastFirmwareLine(lines, infoCmd, prompt) == Some(|lines| - 1);
        assert fw == FirmwareAfter(prev, TrimSpace(last), v) == ColonField(TrimSpace(last));
      } else {
        assert FirmwareFlags(lines, infoCmd, prompt)[..|lines| - 1] == FirmwareFlags(prefix, infoCmd, prompt);
        assert LastFirmwareLine(lines, infoCmd, prompt) == LastFirmwareLine(prefix, infoCmd, prompt);
        if SkipsInfo(last, infoCmd, prompt) {
          assert fw == prev;
        } else {
          assert fw == FirmwareAfter(prev, TrimSpace(last), v) == prev;
        }
        assert forall i :: 0 <= i < |prefix| ==> prefix[i] == lines[i];
      }
    }
  }

  /** A retained line that names the model of a V2-family device. */
  predicate ModelLine(line: string, infoCmd: string, prompt: string) {
    !SkipsInfo(line, infoCmd, prompt) && NamesModel(TrimSpace(line))
  }

  /** Which lines are model lines. */
  function ModelFlags(lines: seq<string>, infoCmd: string, prompt: string): (flags: seq<bool>)
    ensures |flags| == |lines|
    ensures forall i :: 0 <= i < |lines| ==> flags[i] == ModelLine(lines[i], infoCmd, prompt)
  {
    seq(|lines|, i requires 0 <= i < |lines| => ModelLine(lines[i], infoCmd, prompt))
  }

  /** Index of the last model line, if any. */
  function LastModelLine(lines: seq<string>, infoCmd: string, prompt: string): (k: Option<nat>)
    ensures k.None? <==> forall i :: 0 <= i < |lines| ==> !ModelLine(lines[i], infoCmd, prompt)
    ensures k.Some? ==>
      && k.value < |lines| && ModelLine(lines[k.value], infoCmd, prompt)
      && forall j :: k.value < j < |lines| ==> !ModelLine(lines[j], infoCmd, prompt)
  {
    Last(ModelFlags(lines, infoCmd, prompt))
  }

  /**
   * For the V2 family the model is the last line naming "nanovna" or "saa2"
   * in any case, or the variant's name when there is none.
   */
  lemma {:induction false} V2ModelFromLastLine(lines: seq<string>, v: Variant, infoCmd: string, prompt: string)
    requires IsV2Family(v)
    ensures ScanModel(lines, v, infoCmd, prompt)
         == match LastModelLine(lines, infoCmd, prompt)
            case None => VariantName(v)
            case Some(k) => TrimSpace(lines[k])
  {
    if lines != [] {
      var prefix := lines[..|lines| - 1];
      var last := lines[|lines| - 1];
      V2ModelFromLastLine(prefix, v, infoCmd, prompt);
      var prev := ScanModel(prefix, v, infoCmd, prompt);
      var model := ScanModel(lines, v, infoCmd, prompt);
      if ModelLine(last, infoCmd, prompt) {
        assert LastModelLine(lines, infoCmd, prompt) == Some(|lines| - 1);
        assert model == ModelAfter(prev, TrimSpace(last), v) == TrimSpace(last);
      } else {
        assert ModelFlags(lines, infoCmd, prompt)[..|lines| - 1] == ModelFlags(prefix, infoCmd, prompt);
        assert LastModelLine(lines, infoCmd, prompt) == LastModelLine(prefix, infoCmd, prompt);
        if SkipsInfo(last, infoCmd, prompt) {
          assert model == prev;
        } else {
          assert model == ModelAfter(prev, TrimSpace(last), v) == prev;
        }
        assert forall i :: 0 <= i < |prefix| ==> prefix[i] == lines[i];
      }
    }
  }

  /** A retained line that sets the serial number of a variant outside the V2 family. */
  predicate SerialLine(line: string, infoCmd: string, prompt: string) {
    !SkipsInfo(line, infoCmd, prompt) && HasPrefix(ToLower(TrimSpace(line)), "serial")
  }

  /** Which lines are serial lines. */
  function SerialFlags(lines: seq<string>, infoCmd: string, prompt: string): (flags: seq<bool>)
    ensures |flags| == |lines|
    ensures forall i :: 0 <= i < |lines| ==> flags[i] == SerialLine(lines[i], infoCmd, prompt)
  {
    seq(|lines|, i requires 0 <= i < |lines| => SerialLine(lines[i], infoCmd, prompt))
  }

  /** Index of the last serial line, if any. */
  function LastSerialLine(lines: seq<string>, infoCmd: string, prompt: string): (k: Option<nat>)
    ensures k.None? <==> forall i :: 0 <= i < |lines| ==> !SerialLine(lines[i], infoCmd, prompt)
    ensures k.Some? ==>
      && k.value < |lines| && SerialLine(lines[k.value], infoCmd, prompt)
      && forall j :: k.value < j < |lines| ==> !SerialLine(lines[j], infoCmd, prompt)
  {
    Last(SerialFlags(lines, infoCmd, prompt))
  }

  /**
   * Outside the V2 family the serial number comes from the last line that
   * starts with "serial" in any case, with a literal "Serial:" stripped, and
   * is empty when there is none.
   */
  lemma {:induction false} SerialFromLastLine(lines: seq<string>, v: Variant, infoCmd: string, prompt: string)
    requires !IsV2Family(v)
    ensures ScanSerial(lines, v, infoCmd, prompt)
         == match LastSerialLine(lines, infoCmd, prompt)
            case None => ""
            case Some(k) => TrimSpace(TrimPrefix(TrimSpace(lines[k]), "Serial:"))
  {
    if lines != [] {
      var prefix := lines[..|lines| - 1];
      var last := lines[|lines| - 1];
      SerialFromLastLine(prefix, v, infoCmd, prompt);
      var prev := ScanSerial(prefix, v, infoCmd, prompt);
      var sn := ScanSerial(lines, v, infoCmd, prompt);
      if SerialLine(last, infoCmd, prompt) {
        assert LastSerialLine(lines, infoCmd, prompt) == Some(|lines| - 1);
        assert sn == SerialAfter(prev, TrimSpace(last), v) == TrimSpace(TrimPrefix(TrimSpace(last), "Serial:"));
      } else {
        assert SerialFlags(lines, infoCmd, prompt)[..|lines| - 1] == SerialFlags(prefix, infoCmd, prompt);
        assert LastSerialLine(lines, infoCmd, prompt) == LastSerialLine(prefix, infoCmd, prompt);
        if SkipsInfo(last, infoCmd, prompt) {
          assert sn == prev;
        } else {
          assert sn == SerialAfter(prev, TrimSpace(last), v) == prev;
        }
        assert forall i :: 0 <= i < |prefix| ==> prefix[i] == lines[i];
      }
    }
  }

  /** Before the first retained line, the model is still the variant's name. */
  lemma {:induction false} ModelBeforeFirstLine(lines: seq<string>, v: Variant, infoCmd: string, prompt: string)
    requires forall j :: 0 <= j < |lines| ==> SkipsInfo(lines[j], infoCmd, prompt)
    ensures ScanModel(lines, v, infoCmd, prompt) == VariantName(v)
  {
    if lines != [] {
      var prefix := lines[..|lines| - 1];
      assert forall j :: 0 <= j < |prefix| ==> prefix[j] == lines[j];
      ModelBeforeFirstLine(prefix, v, infoCmd, prompt);
    }
  }

  /** Outside the V2 family, once the model differs from the variant's name it stays. */
  lemma {:induction false} ModelSticks(lines: seq<string>, k: nat, v: Variant, infoCmd: string, prompt: string)
    requires !IsV2Family(v) && k <= |lines|
    requires ScanModel(lines[..k], v, infoCmd, prompt) != VariantName(v)
    ensures ScanModel(lines, v, infoCmd, prompt) == ScanModel(lines[..k], v, infoCmd, prompt)
    decreases |lines| - k
  {
    if k < |lines| {
      var next := lines[..k + 1];
      assert next[..k] == lines[..k];
      assert ScanModel(next, v, infoCmd, prompt) == ScanModel(lines[..k], v, infoCmd, prompt);
      ModelSticks(lines, k + 1, v, infoCmd, prompt);
    } else {
      assert lines[..k] == lines;
    }
  }

  /** Outside the V2 family, the first retained line replaces the variant's name. */
  lemma ModelAtFirstLine(lines: seq<string>, i: nat, v: Variant, infoCmd: string, prompt: string)
    requires !IsV2Family(v) && i < |lines|
    requires forall j :: 0 <= j < i ==> SkipsInfo(lines[j], infoCmd, prompt)
    requires !SkipsInfo(lines[i], infoCmd, prompt)
    ensures ScanModel(lines[..i + 1], v, infoCmd, prompt) == TrimSpace(lines[i])
  {
    var first := lines[..i + 1];
    assert first[..i] == lines[..i] && first[i] == lines[i];
    ModelBeforeFirstLine(lines[..i], v, infoCmd, prompt);
  }

  /**
   * Outside the V2 family the model is the first retained line, unless that
   * line is just the variant's name.
   */
  lemma ModelFromFirstLine(lines: seq<string>, i: nat, v: Variant, hw: HardwareInfo)
    requires !IsV2Family(v) && i < |lines|
    requires forall j :: 0 <= j < i ==> SkipsInfo(lines[j], hw.commands.info, hw.commands.prompt)
    requires !SkipsInfo(lines[i], hw.commands.info, hw.commands.prompt)
    requires TrimSpace(lines[i]) != VariantName(v)
    ensures ScanModel(lines, v, hw.commands.info, hw.commands.prompt) == TrimSpace(lines[i])
  {
    ModelAtFirstLine(lines, i, v, hw.commands.info, hw.commands.prompt);
    ModelSticks(lines, i + 1, v, hw.commands.info, hw.commands.prompt);
  }

  /** Hence the reported model is that line too. */
  lemma ReportedModelIsFirstLine(lines: seq<string>, i: nat, v: Variant, hw: HardwareInfo)
    requires !IsV2Family(v) && i < |lines|
    requires forall j :: 0 <= j < i ==> SkipsInfo(lines[j], hw.commands.info, hw.commands.prompt)
    requires !SkipsInfo(lines[i], hw.commands.info, hw.commands.prompt)
    requires TrimSpace(lines[i]) != VariantName(v)
    ensures Finish(ScanInfo(lines, v, hw.commands.info, hw.commands.prompt), v).model == TrimSpace(lines[i])
  {
    ModelFromFirstLine(lines, i, v, hw);
  }
}
