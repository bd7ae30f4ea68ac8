# NanoVNA protocol client, modelled in Dafny

This project models the protocol-client core of the Go `nanovna` package. That core is everything between "a duplex byte port exists" and "structured measurement data comes back":

- **Capability registry.** It maps each hardware variant to its constant record: frequency range, sweep points, S-parameter ports, command templates, prompt and capability flags. It also holds the variant's display name.
- **Variant detector.** It runs a carriage-return probe, one raw read and a best-effort `info` query. It then classifies the variant with ordered prefix and substring rules.
- **Command channel (`sendCommand`).** It does a draining read and writes the command with `\r`. It then makes up to ten reads and stops early on a chunk that contains `ch>`.
- **Sweep configurator.** It checks the request against the record's bounds in a fixed order. It then sends the variant's sweep command and, while each one fails, up to three alternatives.
- **Sweep runner.** It sends the frequency, S11 and (optionally) S21 queries and filters and parses their lines. It then pads S21 and truncates all arrays to a common length.
- **Device-info parser.** It picks the model, firmware and serial number out of the `info` answer with variant-dependent line heuristics.
- **The port.** It is the repository's own in-memory serial-port double: a write buffer that records everything written, and a read buffer with a cursor that reports a timeout once exhausted.

## How the model is organised

Go strings are byte strings. They are modelled as `seq<char>` with one character per byte. Port buffers are `seq<byte>`, and `Text`/`Wire` convert between the two.

Each operation that talks to the port has two parts:
- a pure function over a value snapshot of the port (`PortState`), such as `Exchange`, `Configure`, `Sweep`, `Probe` and `ParseInfo`;
- a method on the `Device` class, whose postcondition states that it leaves the port in that function's state and returns that function's result.

The properties are proved as lemmas about the functions:
- bounds;
- when an exchange fails;
- which bytes are written;
- first-violation reporting;
- array lengths;
- which line supplies a field.

Modules:

| file | module | contents |
|---|---|---|
| wrappers.dfy | `Wrappers` | `Option`, `Result` |
| errors.dfy | `Errors` | error kinds |
| strings.dfy | `Strings` | bytes, prefix/substring, lower-casing, trimming, splitting |
| numbers.dfy | `Numbers` | decimal formatting, `%d` templates, decimal number parsing |
| registry.dfy | `Registry` | variants, hardware records, version labels |
| mock_port.dfy | `MockPort` | the port double and its state functions |
| channel.dfy | `Channel` | the command channel |
| detection.dfy | `Detection` | probe and classification |
| sweep_config.dfy | `SweepConfig` | bounds and fallback chain |
| sweep_parse.dfy | `SweepParse` | line parsing and array reconciliation |
| info_parse.dfy | `InfoParse` | device-info heuristics |
| device.dfy | `Nanovna` | the `Device` class and the parsing loops |

Four behaviours of the code are easy to misread, and the model keeps them as written:
- **End of answer.** The channel stops on a chunk that contains the hard-coded `ch>`, never on the variant's own prompt. It tests each chunk separately, not the accumulated text. A V2 answer ending in `2>` is therefore read until the input is exhausted or ten buffers have been read (`Channel.ExchangeWithoutMarker`).
- **V2 firmware.** For the V2 family the firmware is the text between the first and the second colon of the last firmware or version line, not everything after the first colon.
- **Version label after refinement.** Detection keeps the version label `v1` or `vh` of the prompt rule even when the info text refines the variant to TinySA, LiteVNA or V1.
- **Default record.** SAA2 and LiteVNA get the conservative default record, whose variant field is Unknown.

## Model

| member | source | states |
|---|---|---|
| Registry.VariantName | nanovna.go:30-51 | every variant has a non-empty display name |
| Registry.VariantNamesDistinct | nanovna.go:30-51 | different variants have different display names |
| Registry.Lookup | nanovna.go:92-270 | every record has 0 < MinHz <= MaxHz, positive sweep points, and a port list that is non-empty and starts with S11. The record is the variant's own or the conservative default. HasS21 implies S21 is listed. The prompt is `2>` exactly for V2, V2 Plus and V2 Plus4 |
| Registry.DefaultRecord | nanovna.go:244-269 | SAA2, LiteVNA and Unknown, and only they, get the default record: variant Unknown, ports `["S11"]`, no S21 |
| Registry.ConservativeIsSmallest | nanovna.go:244-269 | the default record has the lowest top frequency and the fewest sweep points of all records |
| Registry.Plus4Ports | nanovna.go:194-218 | only V2 Plus4 has multiple ports; its ports are S11, S21, S12, S22, and it alone has four |
| Registry.VersionLabel | nanovna.go:437-450 | the forced version label is `v2` exactly for the V2 family (SAA2 included) and `unknown` exactly for Unknown |
| Nanovna.Device.OpenWithVariant | nanovna.go:426-453 | the device keeps the port, takes the forced variant, that variant's record and its version label |
| Nanovna.Device.Open | nanovna.go:456-494 | a device opened on a custom port uses it, with variant Unknown and the default record |
| Nanovna.Device.SetPortHandle | nanovna.go:300-302 | replaces the port and nothing else |
| Nanovna.Device.IsPortSupported | nanovna.go:355-362 | true exactly when the name is in the record's port list |
| MockPort.MockSerialPort.constructor | nanovna_test.go:9-14 | a fresh mock: empty write buffer, the given input, cursor at 0, open |
| MockPort.MockSerialPort.Write | nanovna_test.go:16-19 | appends the bytes to the write buffer, reports their count and no error, and changes nothing else |
| MockPort.MockSerialPort.Read | nanovna_test.go:21-28 | with nothing pending, reports a timeout and changes nothing. Otherwise it copies min(buffer size, pending) bytes from the cursor into the buffer, leaves the rest of the buffer untouched and advances the cursor by the count. The cursor stays within the input |
| MockPort.MockSerialPort.Close | nanovna_test.go:30-33 | marks the mock closed and reports no error |
| MockPort.ReadKeepsValid | nanovna_test.go:21-28 | a read keeps the cursor within the input and reduces the pending count by the bytes handed out |
| Channel.Exchange | nanovna.go:680-727 | the defining function of `sendCommand` on an open mock: drain, write the command with `\r`, then `Channel.Collect`. `Nanovna.Device.SendCommand`'s ensures refer to it |
| Channel.Collect | nanovna.go:699-726 | the defining function of the read loop: up to ten reads, a timeout tolerated once data has accumulated, a stop on a chunk holding `ch>`. `Nanovna.ReadAnswer`'s ensures refer to it |
| Nanovna.Device.SendCommand | nanovna.go:680-727 | with no port: "not open". Otherwise the mock ends in the state `Channel.Exchange` describes, and the answer or error is the one it describes |
| Nanovna.ReadAnswer | nanovna.go:699-726 | the read loop leaves the mock in the state `Channel.Collect` describes from an empty accumulator, and returns the answer, or the timeout error with an empty answer, that it describes |
| Channel.CollectReadsWindow | nanovna.go:703-726 | the read loop only advances the cursor, by at most one buffer per remaining attempt. A successful answer is the accumulated text followed by exactly the bytes passed over |
| Channel.CollectWithDataSucceeds | nanovna.go:705-709 | once data has accumulated, a timeout ends the loop with success |
| Channel.CollectFailsIff | nanovna.go:703-710 | the loop fails exactly when its first read times out, and then reports the timeout without moving the cursor |
| Channel.CollectWithoutMarker | nanovna.go:712-719 | without `ch>` in the input, the loop reads ten buffers or to the end of the input |
| Channel.CollectStopsAtMarker | nanovna.go:712-719 | when the first `ch>` lies in chunk k, exactly k+1 chunks are read |
| Channel.ExchangeFacts | nanovna.go:680-727 | one draining read, then the command with `\r` appended to the write buffer. The input and the closed flag are unchanged. The exchange fails with a timeout exactly when no more than 1024 bytes were pending, and then the input is exhausted. Otherwise the answer is the contiguous input read after the drain, at most ten buffers |
| Channel.FailureIsFinal | nanovna.go:685-710 | on the mock, once one exchange has failed, every later exchange fails with a timeout |
| Channel.ExchangeWithoutMarker | nanovna.go:703-724 | without `ch>` after the drain (a V2 answer, say), the exchange reads ten buffers or to the end |
| Detection.Classify | nanovna.go:829-858 | the answer is Unknown exactly when no prompt rule matches, and then the version is `unknown`. `ch> ` gives `v1` with V1, TinySA or LiteVNA. Otherwise `\r\nch> ` or `\r\n?\r\nch> ` gives `vh` with VH or V1. Otherwise a leading `2` or a `2>` gives `v2` with a V2-family variant |
| Detection.ClassifyTable | nanovna.go:829-858 | each variant as an if-and-only-if over all inputs. `ch> ` gives TinySA on `tinysa`, LiteVNA on `litevna` without `tinysa`, else V1. The -H prompts give V1 on `nanovna v1`, else VH. The V2 prompt gives V2 Plus4 on `plus4`, V2 Plus on `plus` without `plus4`, SAA2 on `saa2` without `plus`, else V2 |
| Detection.VersionIgnoresInfo | nanovna.go:829-858 | the version label depends on the raw answer alone |
| Detection.ClassifyIgnoresCase | nanovna.go:832-852 | the info text is compared case-insensitively |
| Detection.Plus4BeforePlus | nanovna.go:848-851 | a V2 answer whose info text names `plus4` is a V2 Plus4, although that text also contains `plus` |
| Detection.LiteVnaScenario | nanovna.go:829-836 | `ch> ` with `litevna` but not `tinysa` in the info text is a LiteVNA with version `v1` |
| Nanovna.Device.ProbePort | nanovna.go:806-826 | the port ends in the state `Detection.Probe` describes, and the raw answer and info text, or the error, are the ones it describes |
| Detection.Probe | nanovna.go:806-826 | the defining function of `DetectVersion`'s exchanges on an open mock: drain, `\r`, one raw read, then a best-effort `info` exchange. `Nanovna.Device.ProbePort`'s ensures refer to it |
| Detection.ProbeFacts | nanovna.go:806-826 | the probe fails with a timeout exactly when the draining read swallowed all pending input. Otherwise its raw answer is the next buffer of input, and `\r` then `info\r` are written |
| Nanovna.Device.DetectVersion | nanovna.go:801-868 | with no port: "not open", fields unchanged. On a failed raw read: that error, fields unchanged. Otherwise version and variant are those `Detection.Classify` gives for the probe's answer and info text, and the record is that variant's. An unrecognised answer reports `unknown` with the raw answer; a recognised one reports the version |
| SweepConfig.FirstViolation | nanovna.go:499-510 | no bound is reported exactly when none is broken. A reported bound is broken, and no bound checked earlier is |
| SweepConfig.V1Bounds | nanovna_test.go:119-133 | a V1 rejects the three out-of-range requests of the tests. A reversed range and a negative point count pass |
| SweepConfig.Alternates | nanovna.go:516-548 | three alternatives, each starting with `sweep ` exactly for V2, V2 Plus and V2 Plus4 |
| SweepConfig.Setting | nanovna.go:522-541 | an alternative command starts with `sweep ` exactly when it is scoped |
| SweepConfig.TryInOrder | nanovna.go:519-546 | the defining function of the fallback chain: each alternative is sent only if the previous one failed |
| SweepConfig.TryInOrderFacts | nanovna.go:519-532 | the chain sends a prefix of its commands and stops at the first success; it fails only after sending all of them. On the mock it succeeds exactly when more than one buffer was pending, and then after one command |
| SweepConfig.TryThree | nanovna.go:521-531 | the three-step chain written out: first success ends it |
| SweepConfig.ConfigureFacts | nanovna.go:497-549 | a request breaking a bound is rejected with the first bound it breaks, before anything is sent. Otherwise either the primary command succeeds and is all that is written, or all four commands are written and the primary command's timeout is reported |
| SweepConfig.Configure | nanovna.go:497-549 | the defining function of `SetSweepConfig` on an open mock: bounds, primary command, then `SweepConfig.TryInOrder` over the alternatives. `Nanovna.Device.SetSweepConfig`'s ensures refer to it |
| Nanovna.Device.SetSweepConfig | nanovna.go:497-549 | with no port: the first broken bound, else the primary command's "not open". Otherwise the mock state and the error are those `SweepConfig.Configure` describes |
| SweepParse.FrequencyOf | nanovna.go:565-576 | a skipped line (empty, the echoed command, the prompt, `?`) contributes no frequency |
| SweepParse.SampleOf | nanovna.go:588-604 | a skipped line (empty, `data...`, the prompt, `?`) contributes no sample |
| SweepParse.Frequencies | nanovna.go:564-577 | the defining function of the frequency parse: one value per line that is not skipped and parses, in order, so never more values than lines. `Nanovna.ParseFrequencyLines`'s ensures refer to it |
| SweepParse.Samples | nanovna.go:587-604 | the defining function of the sample parse, in the same sense. `Nanovna.ParseSampleLines`'s ensures refer to it |
| SweepParse.FrequenciesConcat | nanovna.go:564-577 | frequency parsing is line by line: the parse of a concatenation is the concatenation of the parses |
| SweepParse.SamplesConcat | nanovna.go:587-604 | sample parsing is line by line in the same sense |
| SweepParse.SkippedFrequencyLine | nanovna.go:567-571 | removing a skipped line does not change the frequencies |
| SweepParse.SkippedSampleLine | nanovna.go:590-594 | removing a skipped line does not change the samples |
| Nanovna.ParseFrequencyLines | nanovna.go:564-577 | the loop yields the frequencies of the answer's lines, in order |
| Nanovna.ParseSampleLines | nanovna.go:587-604 | the loop yields the samples of the answer's lines, in order |
| SweepParse.Reconcile | nanovna.go:638-665 | failure (no data) exactly when no frequency or no S11 sample was parsed. Otherwise, with m the smaller count, frequencies and S11 are the first m parsed values, and S21 has m entries: the parsed S21 value where there is one, else zero |
| Nanovna.ReconcileArrays | nanovna.go:638-665 | the padding loop, the no-data check and the truncation compute `SweepParse.Reconcile` |
| SweepParse.TruncateAndPadScenario | nanovna.go:638-665 | two frequencies and one S11 sample give one point, with a zero S21 placeholder |
| SweepParse.SweepFacts | nanovna.go:553-666 | after a successful sweep all three arrays have the same positive length, the smaller of the parsed counts. Frequencies and S11 are prefixes of the parsed lists. S21 is all zeros when the record lacks S21 or does not list it, or when the S21 query failed |
| SweepParse.NoS21MeansZeros | nanovna.go:607-613 | a record without S21 support (the default record, say) always yields zero S21 |
| SweepParse.Sweep | nanovna.go:553-666 | the defining function of `RunSweep` on an open mock: frequency, S11 and optional S21 exchanges, then `SweepParse.Reconcile`. `Nanovna.Device.RunSweep`'s ensures refer to it |
| Nanovna.Device.RunSweep | nanovna.go:553-666 | with no port: the frequency query's "not open". Otherwise the mock state and the result are those `SweepParse.Sweep` describes |
| InfoParse.ModelAfter | nanovna.go:753-772 | the defining function of the model update for one retained line. `Nanovna.InfoLineUpdate`'s ensures refer to it |
| InfoParse.FirmwareAfter | nanovna.go:753-788 | the defining function of the firmware update for one retained line. `Nanovna.InfoLineUpdate`'s ensures refer to it |
| InfoParse.SerialAfter | nanovna.go:767-777 | the defining function of the serial-number update for one retained line. `Nanovna.InfoLineUpdate`'s ensures refer to it |
| InfoParse.ScanInfo | nanovna.go:739-790 | the defining function of the line loop: the three fields scanned over the retained lines. `Nanovna.ScanInfoLines`'s ensures refer to it |
| InfoParse.ParseInfo | nanovna.go:738-795 | the defining function of `GetInfo`'s parse: `InfoParse.ScanInfo` of the answer's lines, then `InfoParse.Finish`. `Nanovna.Device.GetInfo`'s ensures refer to it |
| InfoParse.Finish | nanovna.go:792-795 | the final model is neither empty nor the bare variant name, and a real model is kept |
| InfoParse.FirstVersionToken | nanovna.go:781-786 | the token found is a field that starts with `v` and is longer than one character, and no earlier field is one; none is found exactly when no field is such a token |
| InfoParse.LastFirmwareLine | nanovna.go:760-765 | the index found is a retained firmware or version line with at least one colon, and no later line is one; none is found exactly when no line is one |
| InfoParse.V2FirmwareFromLastLine | nanovna.go:754-766 | for the V2 family, the scanned firmware is the text between the first and second colon of the last such line, or empty when there is none |
| InfoParse.FirmwareEmptyBefore | nanovna.go:745-788 | outside the V2 family, lines without a `v...` token leave the firmware empty |
| InfoParse.FirmwareSticks | nanovna.go:780 | outside the V2 family, a firmware once found is never replaced |
| InfoParse.FirmwareFromFirstVersionLine | nanovna.go:745-788 | outside the V2 family, the scanned firmware is the first `v...` field of the first retained line that has one |
| InfoParse.LastSerialLine | nanovna.go:774-777 | the index found is a retained line starting with `serial` in any case, and no later line is one; none is found exactly when no line is one |
| InfoParse.SerialFromLastLine | nanovna.go:767-777 | outside the V2 family, the scanned serial number comes from the last such line, with a literal `Serial:` removed; it is empty when there is none |
| InfoParse.ModelSticks | nanovna.go:770-772 | outside the V2 family, once the model differs from the variant's name, later lines do not change it |
| InfoParse.ModelBeforeFirstLine | nanovna.go:742-750 | while every line is skipped, the model stays the variant's name |
| InfoParse.ModelAtFirstLine | nanovna.go:742-772 | outside the V2 family, the first retained line becomes the model |
| InfoParse.ModelFromFirstLine | nanovna.go:742-772 | outside the V2 family, when the first retained line is not the bare variant name, the scanned model is that line whatever follows |
| InfoParse.ReportedModelIsFirstLine | nanovna.go:742-795 | outside the V2 family, the reported model is then that first retained line, with no `(detected)` suffix |
| InfoParse.LastModelLine | nanovna.go:756-759 | the index found is a retained line naming `nanovna` or `saa2` in any case, and no later line is one; none is found exactly when no line is one |
| InfoParse.V2ModelFromLastLine | nanovna.go:742-759 | for the V2 family, the scanned model is the last such line, or the variant's name when there is none |
| Nanovna.InfoLineUpdate | nanovna.go:752-789 | one retained line updates the model, firmware and serial number as the per-field rules `InfoParse.ModelAfter`, `InfoParse.FirmwareAfter` and `InfoParse.SerialAfter` state, the inner loop picking the first `v...` field |
| Nanovna.FirstVersionField | nanovna.go:781-787 | the inner loop yields `InfoParse.FirstVersionToken` of the fields: the first field starting with `v` that is longer than one character |
| Nanovna.ScanInfoLines | nanovna.go:739-790 | the loop over the answer's lines yields `InfoParse.ScanInfo`: the variant's name, no firmware and no serial number to start, updated by every retained line in order |
| Nanovna.Device.GetInfo | nanovna.go:730-798 | with no port: "not open". Otherwise the mock state is that of the `info` exchange, whose error is passed on unchanged; on success the result is `InfoParse.ParseInfo` of the answer |
| Nanovna.Device.Close | nanovna.go:668-676 | the port is closed and forgotten, without error, and the other fields are unchanged |
| Numbers.ParseFormatInt | nanovna.go:573 | the number parser reads back every decimal integer the formatter writes |
| Strings.ToLowerIdempotent | nanovna.go:832 | lower-casing twice is lower-casing once |
| Strings.ContainsInSlice | nanovna.go:717 | a substring of a slice is a substring of the whole |

## Left out

- `ListDevices` and `AutoDetect` probe operating-system serial devices. That is I/O outside the protocol logic.
- `Open` without a custom port opens a real serial port through a foreign library. `PortConfig` and `GetPortConfig` exist only for that path, and `GetPortDetails` formats that configuration (on the custom-port path it reports only the port name). The model keeps only the custom-port path. The `SerialPort` interface is replaced by the in-memory port double itself.
- The `time.Sleep` delays in `sendCommand` and `DetectVersion` have no effect on the data.
- Nanovna.Device.SendCommand: the failed-write branch is not modelled, because the port double's `Write` never fails. The timeout tolerance tests for the error kind `Timeout` rather than searching the error text for "timeout". The port double's only read error is a timeout.
- Nanovna.Device.OpenWithVariant: the code calls `Open(port)` without a custom port, so it opens a real serial port and fails when that fails. The model's constructor takes the port double instead and cannot fail.
- Nanovna.Device.DetectVersion: the failed-write branch is not modelled, for the same reason.
- Numbers.ParseNum: it models `strconv.ParseFloat` only on decimal text (sign, digits, a fraction, an exponent) into exact reals. Hexadecimal forms, `inf`, `nan`, underscores, float64 rounding and range errors are not modelled. The record bounds (float64 in the code, all whole numbers) and the requested start and stop frequencies are integers; parsed frequencies are exact reals, and `complex128` is a pair of reals.
- Numbers.FormatTemplate: only `%d` is rendered. A missing argument is rendered as Go does, but surplus arguments are dropped without Go's `%!(EXTRA ...)` suffix; the record templates never have surplus arguments. Error messages are error kinds rather than formatted text.
- Strings.ToLower, Strings.TrimSpace and Strings.Fields work on ASCII bytes; Unicode case mapping and Unicode white space are not modelled.
- The calibration stubs and the one-line getters (`GetVersion`, `GetHardwareVariant`, `GetHardwareInfo`, `GetFrequencyRange`, `GetMaxSweepPoints`, `GetSupportedPorts`, `GetCapabilities`, `GetPortHandle`) return a field or a constant. The model reads the fields directly.
- The console example program is not part of this model.
