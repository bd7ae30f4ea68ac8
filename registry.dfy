/**
 * The capability registry: hardware variants, their display names, the
 * per-variant hardware record, and the version label a forced variant gets.
 */
module Registry {

  /** The closed set of hardware variants, in declaration order. */
  datatype Variant = Unknown | V1 | VH | V2 | V2Plus | V2Plus4 | SAA2 | TinySA | LiteVNA

  /** Frequency bounds in Hz; every bound the registry holds is integral. */
  datatype FrequencyRange = FrequencyRange(minHz: int, maxHz: int)

  /** Command templates (`%d` marks an integer argument) and the prompt marker. */
  datatype CommandSet = CommandSet(
    sweep: string,
    freq: string,
    data: string,
    info: string,
    version: string,
    calibrationSave: string,
    calibrationLoad: string,
    prompt: string)

  datatype Capabilities = Capabilities(
    hasS21: bool,
    hasTimeDomain: bool,
    hasCalibration: bool,
    hasMultiplePorts: bool,
    hasGenerator: bool,
    hasSpectrumMode: bool)

  datatype HardwareInfo = HardwareInfo(
    variant: Variant,
    range: FrequencyRange,
    maxSweepPoints: int,
    supportedPorts: seq<string>,
    commands: CommandSet,
    capabilities: Capabilities)

  /** `HardwareVariant.String`. */
  function VariantName(v: Variant): (name: string)
    ensures |name| > 0
  {
    match v
    case V1 => "NanoVNA v1"
    case VH => "NanoVNA-H"
    case V2 => "NanoVNA v2"
    case V2Plus => "NanoVNA v2 Plus"
    case V2Plus4 => "NanoVNA v2 Plus4"
    case SAA2 => "SAA2"
    case TinySA => "TinySA"
    case LiteVNA => "LiteVNA"
    case Unknown => "Unknown"
  }

  /** Different variants have different display names. */
  lemma VariantNamesDistinct(v: Variant, w: Variant)
    requires v != w
    ensures VariantName(v) != VariantName(w)
  {
    match v {
      case V1 => assert VariantName(v)[9] == '1';
      case VH => assert VariantName(v)[8] == 'H';
      case V2 => assert VariantName(v)[9] == '2';
      case V2Plus => assert |VariantName(v)| == 15;
      case V2Plus4 => assert |VariantName(v)| == 16;
      case SAA2 => assert VariantName(v)[0] == 'S';
      case TinySA => assert VariantName(v)[0] == 'T';
      case LiteVNA => assert VariantName(v)[0] == 'L';
      case Unknown => assert VariantName(v)[0] == 'U';
    }
  }

  /** The variants the V2 branches of SetSweepConfig treat alike. */
  predicate IsV2Sweeper(v: Variant) {
    v == V2 || v == V2Plus || v == V2Plus4
  }

  /** The variants the V2 branch of GetInfo treats alike (SAA2 included). */
  predicate IsV2Family(v: Variant) {
    IsV2Sweeper(v) || v == SAA2
  }

  /** Commands of the "ch>"-prompted firmware. */
  const ChCommands := CommandSet(
    "sweep %d %d %d", "frequencies", "data %d", "info", "version", "save %d", "recall %d", "ch>")

  /** Commands of the "2>"-prompted V2 firmware. */
  const V2Commands := CommandSet(
    "sweep %d %d %d", "freq", "data %d", "info", "version", "save %d", "recall %d", "2>")

  /** The record every variant without a record of its own gets. */
  const Conservative := HardwareInfo(
    Unknown, FrequencyRange(50000, 900000000), 101, ["S11"], ChCommands,
    Capabilities(false, false, true, false, false, false))

  /** `getHardwareInfo`: the hardware record of a variant. */
  function Lookup(v: Variant): (info: HardwareInfo)
    ensures 0 < info.range.minHz <= info.range.maxHz
    ensures info.maxSweepPoints > 0
    ensures |info.supportedPorts| > 0 && info.supportedPorts[0] == "S11"
    ensures info.variant == v || info == Conservative
    ensures info.capabilities.hasS21 ==> "S21" in info.supportedPorts
    ensures info.commands.prompt == (if IsV2Sweeper(v) then "2>" else "ch>")
  {
    match v
    case V1 =>
      HardwareInfo(V1, FrequencyRange(50000, 900000000), 101, ["S11", "S21"], ChCommands,
        Capabilities(true, false, true, false, false, false))
    case VH =>
      HardwareInfo(VH, FrequencyRange(50000, 1500000000), 201, ["S11", "S21"], ChCommands,
        Capabilities(true, true, true, false, true, false))
    case V2 =>
      HardwareInfo(V2, FrequencyRange(50000, 3000000000), 4000, ["S11", "S21"], V2Commands,
        Capabilities(true, true, true, false, true, true))
    case V2Plus =>
      HardwareInfo(V2Plus, FrequencyRange(50000, 6000000000), 4000, ["S11", "S21"], V2Commands,
        Capabilities(true, true, true, false, true, true))
    case V2Plus4 =>
      HardwareInfo(V2Plus4, FrequencyRange(50000, 6000000000), 4000, ["S11", "S21", "S12", "S22"],
        V2Commands, Capabilities(true, true, true, true, true, true))
    case TinySA =>
      HardwareInfo(TinySA, FrequencyRange(100000, 960000000), 500, ["S11"], ChCommands,
        Capabilities(false, false, true, false, true, true))
    case _ => Conservative
  }

  /** SAA2, LiteVNA and Unknown have no record of their own. */
  lemma DefaultRecord(v: Variant)
    ensures Lookup(v) == Conservative <==> v == SAA2 || v == LiteVNA || v == Unknown
    ensures Lookup(v) == Conservative ==>
      Lookup(v).variant == Unknown && Lookup(v).supportedPorts == ["S11"] && !Lookup(v).capabilities.hasS21
  {
  }

  /** The conservative record has the lowest top frequency and the smallest point count. */
  lemma ConservativeIsSmallest(v: Variant)
    ensures Conservative.range.maxHz <= Lookup(v).range.maxHz
    ensures Conservative.maxSweepPoints <= Lookup(v).maxSweepPoints
    ensures Conservative.capabilities.hasCalibration
  {
  }

  /** Only the four-port V2 Plus4 reports multiple ports, and it has all four S-parameters. */
  lemma Plus4Ports(v: Variant)
    ensures Lookup(v).capabilities.hasMultiplePorts <==> v == V2Plus4
    ensures Lookup(V2Plus4).supportedPorts == ["S11", "S21", "S12", "S22"]
    ensures |Lookup(v).supportedPorts| == 4 <==> v == V2Plus4
  {
  }

  /** The version label `OpenWithVariant` stores for a forced variant. */
  function VersionLabel(v: Variant): (tag: string)
    ensures tag == "v2" <==> IsV2Family(v)
    ensures tag == "unknown" <==> v == Unknown
  {
    match v
    case V1 => "v1"
    case VH => "vh"
    case V2 | V2Plus | V2Plus4 | SAA2 => "v2"
    case TinySA => "tinysa"
    case LiteVNA => "litevna"
    case Unknown => "unknown"
  }
}
