# TDS 5xx oscilloscope and Yokogawa 7651 drivers, modelled in Dafny

This project models two InstrumentKit drivers as command-trace machines. Each
driver operation is a pure function. It takes the instrument it talks to and
returns a result (a value or a typed error) together with the instrument
afterwards, whose log holds every command written, every query asked and every
block read, in order.

- **Tektronix TDS 5xx** (`tektds5xx.py`). The instrument is modelled as a
  register file. A command `H V` stores `V` under `H`. A query `H?` answers
  with what `H` holds, or with nothing if it holds nothing. The instrument
  keeps one waveform memory per data source. `CURVE?` answers with the
  comma-joined memory of the source the `DAT:SOU` register selects, and a binary
  block read returns that memory. Neither answers when the selected source has
  no memory. The model covers:
  - the scoped data-source selector (`__enter__`/`__exit__`, equality by name);
  - `read_waveform` in both encodings;
  - `sources`, `data_source` and `data_width`;
  - the enumeration tables and every enum-checked setter and getter;
  - the measurement-slot properties and the on/off flags;
  - `force_trigger`;
  - the index-to-name mapping of the `channel`, `math`, `ref` and
    `measurement` lists.
- **Yokogawa 7651** (`yokogawa7651.py`). The supply has a staged
  configuration and a configuration in effect. The `F<n>;`, `SA<v>;` and
  `O1;`/`O0;` commands change the staged one. The trigger `E;` puts it into
  effect. Nothing can be read back.

Errors are mapped as follows:

| raised in Python | modelled as |
|---|---|
| `TypeError`, `ValueError` or the `KeyError` of a setter's enumeration lookup | `InvalidArgument` |
| `NotImplementedError` | `NotSupported` |
| `int()`, `float()` or enumeration lookup failing on a reply | `ProtocolError` |
| no reply to a query | `TransferError` |
| `AttributeError` | `MissingAttribute` |
| `IndexError` from a `SEL?` reply with fewer than 11 fields | `ProtocolError` |
| `IndexError` from indexing the `channel`, `math`, `ref` or `measurement` list out of range | `InvalidArgument` |

Modules, in dependency order:
- `Wrappers`: Option and Result.
- `Text`: split and join.
- `Decimal`: `int()`, `float()` and `str()` on decimal text.
- `Transport`: the instrument, the log, and send and query.
- `TekEnums`, `TekHandles`, `TekSource`, `TekSettings`, `TekScope`, `TekWaveform`: the TDS 5xx driver.
- `Yokogawa`: the Yokogawa 7651 driver.

## Model

| member | source | states |
|---|---|---|
| TekEnums.CouplingFromCode | python/src/instruments/tektronix/tektds5xx.py:440-446 | a reply decodes to a coupling exactly when it is that coupling's code (AC, DC, GND), so the codes are distinct |
| TekEnums.BandwidthFromCode | python/src/instruments/tektronix/tektds5xx.py:448-455 | a reply decodes to a bandwidth exactly when it is that member's code (TWE, HUN, TWO, FUL) |
| TekEnums.ImpedanceFromCode | python/src/instruments/tektronix/tektds5xx.py:457-462 | a reply decodes to an impedance exactly when it is its code (FIF, MEG) |
| TekEnums.EdgeFromCode | python/src/instruments/tektronix/tektds5xx.py:464-469 | a reply decodes to an edge exactly when it is its code (RIS, FALL) |
| TekEnums.TriggerFromCode | python/src/instruments/tektronix/tektds5xx.py:471-481 | a reply decodes to a trigger source exactly when it is its code (CH1 to CH4, AUX, LINE) |
| TekEnums.SourceFromCode | python/src/instruments/tektronix/tektds5xx.py:483-497 | a reply decodes to a data source exactly when it is its code (CH1 to CH4, MATH1 to MATH3, REF1 to REF4) |
| TekEnums.MeasurementFromCode | python/src/instruments/tektronix/tektds5xx.py:499-527 | a reply decodes to one of the 25 measurement types exactly when it is that type's code |
| TekEnums.DirectionFromCode | python/src/instruments/tektronix/tektds5xx.py:529-535 | a reply decodes to a direction exactly when it is its code (BAC, FORW) |
| TekHandles.ChannelAt | python/src/instruments/tektronix/tektds5xx.py:548-561 | `channel[i]` exists for i in 0..3 only, and its name is the Source code of the i-th table entry (`CH<i+1>`) |
| TekHandles.MathAt | python/src/instruments/tektronix/tektds5xx.py:580-589 | `math[i]` exists for i in 0..2 only and is named as Source entries 4 to 6 (`MATH<i+1>`) |
| TekHandles.RefAt | python/src/instruments/tektronix/tektds5xx.py:563-578 | `ref[i]` exists for i in 0..3 only and is named as Source entries 7 to 10 (`REF<i+1>`) |
| TekHandles.MeasurementAt | python/src/instruments/tektronix/tektds5xx.py:537-545 | `measurement[i]` exists for i in 0..3 only, and its slot number is i + 1 |
| TekHandles.Handle | python/src/instruments/tektronix/tektds5xx.py:340-342 | the handle of a Source member is named by that member's code, and it is a channel handle of index k exactly for the first four entries |
| TekSource.SourceFromReply | python/src/instruments/tektronix/tektds5xx.py:620-624 | a `DAT:SOU?` reply starting with CH gives the channel whose number follows, minus one; a reply without that number is a protocol error; any other reply gives a trace of that name |
| TekSource.ChannelReplyKeepsName | python/src/instruments/tektronix/tektds5xx.py:620-624 | a `CH<n>` reply gives channel n-1, whose name is the reply itself |
| TekSource.SourceReplyRoundTrip | python/src/instruments/tektronix/tektds5xx.py:620-624 | reading back any Source code gives the handle the driver makes for that member |
| TekSource.GetDataSource | python/src/instruments/tektronix/tektds5xx.py:612-624 | the getter sends one `DAT:SOU?`; no reply is a transfer error; otherwise the result is the decoded reply |
| TekSource.SourceOf | python/src/instruments/tektronix/tektds5xx.py:626-632 | a setter argument stands for a Source member when it is one, or when it is a handle whose name is some member's code; nothing else does |
| TekSource.SetDataSource | python/src/instruments/tektronix/tektds5xx.py:626-636 | the setter succeeds exactly when the argument stands for a Source member; a refusal sends nothing; a success sends exactly `DAT:SOU <code>` and makes that code the active source |
| TekSource.DataSourceRoundTrip | python/src/instruments/tektronix/tektds5xx.py:612-635 | setting a Source member and reading it back gives that member's handle |
| TekSource.GetDataWidth | python/src/instruments/tektronix/tektds5xx.py:638-645 | one `DATA:WIDTH?` query; the result is `int()` of the reply, a protocol error if it is not an integer, a transfer error if there is none |
| TekSource.SetDataWidth | python/src/instruments/tektronix/tektds5xx.py:646-651 | succeeds exactly when `int()` of the argument is 1 or 2; a refusal sends nothing; a success sends exactly `DATA:WIDTH <argument as written>` |
| TekSource.DataWidthRoundTrip | python/src/instruments/tektronix/tektds5xx.py:638-651 | an accepted integer width reads back unchanged |
| TekSource.DataWidthTextRoundTrip | python/src/instruments/tektronix/tektds5xx.py:646-651 | a numeral string is accepted by its integer, written as given, and reads back as that integer |
| TekSource.DataWidthTrueIsWord | python/src/instruments/tektronix/tektds5xx.py:646-651 | `True` passes the check as 1 but goes out as the word `True`, which the getter cannot read back |
| TekSource.SelectionFlags | python/src/instruments/tektronix/tektds5xx.py:599 | a `SEL?` reply is read exactly when it has at least 11 `;`-separated fields and the first 11 are integers, and then the flags are those integers |
| TekSource.ExtraFieldsIgnored | python/src/instruments/tektronix/tektds5xx.py:599 | fields after the eleventh do not change the flags |
| TekSource.SelectedInOrder | python/src/instruments/tektronix/tektds5xx.py:600-610 | the selected handles have strictly increasing Source-table rank: channels, then math, then references, with no repeats |
| TekSource.SelectedExactly | python/src/instruments/tektronix/tektds5xx.py:600-610 | a source's handle is listed exactly when its flag is non-zero |
| TekSource.SelectionHandle | python/src/instruments/tektronix/tektds5xx.py:600-609 | flag position k yields channel k, `MATH<k-3>` or `REF<k-6>`, which is the handle of the k-th Source member |
| TekSource.DecodeSelection | python/src/instruments/tektronix/tektds5xx.py:598-610 | the three loops build exactly the selected handles of the reference definition |
| TekSource.Sources | python/src/instruments/tektronix/tektds5xx.py:591-610 | one `SEL?` query; a malformed reply is a protocol error; otherwise the result is the selected handles in table order |
| TekSettings.CodeOf | python/src/instruments/tektronix/tektds5xx.py:354-361 | an enum-checked setter has a code to send exactly when the value is a member of the setting's enumeration |
| TekSettings.DecodeInverse | python/src/instruments/tektronix/tektds5xx.py:344-353 | a getter's reply decodes to a value exactly when the reply is the code a setter sends for that value |
| TekSettings.SetProperty | python/src/instruments/tektronix/tektds5xx.py:354-399 | the setter succeeds exactly when the value is in the setting's enumeration; a refusal sends nothing; a success sends exactly `<header> <code>` |
| TekSettings.GetProperty | python/src/instruments/tektronix/tektds5xx.py:73-81 | the getter sends `<header>?`; no reply is a transfer error; a reply that is no code of the enumeration is a protocol error |
| TekSettings.PropertyRoundTrip | python/src/instruments/tektronix/tektds5xx.py:344-399 | every channel, measurement and trigger setting reads back as the member that was set |
| TekSettings.PropertyReads | python/src/instruments/tektronix/tektds5xx.py:690-743 | a getter yields v exactly when the register holds v's code |
| TekSettings.PropertyFrame | python/src/instruments/tektronix/tektds5xx.py:73-209 | setting one property leaves every other property's reading unchanged, across channels, slots and fields |
| TekSettings.HeadersDistinct | python/src/instruments/tektronix/tektds5xx.py:69-91 | different settings never share a register: `CH<i+1>:…` and `MEASU:MEAS<id>:…` headers differ when index or field differs |
| TekSettings.NumberedInjective | python/src/instruments/tektronix/tektds5xx.py:340-342 | a numbered header determines its number and its mnemonic |
| TekSettings.SetFlag | python/src/instruments/tektronix/tektds5xx.py:183-188 | a flag setter refuses anything but a bool with nothing sent, and sends `1` or `0` for a bool |
| TekSettings.GetFlag | python/src/instruments/tektronix/tektds5xx.py:173-181 | a flag reads as `bool(int(reply))`: on for any non-zero integer, a protocol error for a non-integer |
| TekSettings.FlagRoundTrip | python/src/instruments/tektronix/tektds5xx.py:762-777 | a flag that was set reads back as set |
| TekSettings.GetUnits | python/src/instruments/tektronix/tektds5xx.py:211-219 | units are the `MEASU:MEAS<n>:UNITS?` reply, passed on unchanged |
| TekSettings.GetReading | python/src/instruments/tektronix/tektds5xx.py:221-229 | the measured value is `float()` of the reply, a protocol error if it is not a number |
| TekSettings.ResultsPerSlot | python/src/instruments/tektronix/tektds5xx.py:211-229 | a slot's units and value never depend on another slot's registers |
| TekSettings.ReadingOfNumeral | python/src/instruments/tektronix/tektds5xx.py:228-229 | an integer numeral reply reads as that number |
| TekSettings.ForceTrigger | python/src/instruments/tektronix/tektds5xx.py:653-655 | `force_trigger` fails as not supported and sends nothing |
| TekScope.Enter | python/src/instruments/tektronix/tektds5xx.py:255-262 | entering reads the active source; if its name is the target's, nothing is sent and nothing will be restored; otherwise the target is set and the old source kept for restoring, or the target is refused with nothing sent |
| TekScope.Exit | python/src/instruments/tektronix/tektds5xx.py:264-266 | leaving sets back the kept source, if any, through the setter |
| TekScope.ScopeKeepsSource | python/src/instruments/tektronix/tektds5xx.py:255-266 | when the target is already active, the scope adds only the opening query, sending no `DAT:SOU` |
| TekScope.ScopeSwitchesAndRestores | python/src/instruments/tektronix/tektds5xx.py:255-266 | otherwise entry sends `DAT:SOU <target>`, the body runs, and exit sends `DAT:SOU <previous>` whether or not the body failed |
| TekScope.ScopeRefusesUnknownTarget | python/src/instruments/tektronix/tektds5xx.py:626-632 | a target whose name is not in the Source table is refused on entry and the body never runs |
| TekScope.ScopeRestoreFailureWins | python/src/instruments/tektronix/tektds5xx.py:264-266 | an error while restoring replaces the body's result |
| TekScope.ScopeRestoresActiveSource | python/src/instruments/tektronix/tektds5xx.py:255-266 | for a body that leaves `DAT:SOU` alone, the active source after the scope is the one before it |
| TekScope.EnterAsWritten | python/src/instruments/tektronix/tektds5xx.py:257 | as evaluated under Python 2, entering always sets the target and keeps the old source |
| TekScope.EnterAsWrittenSwitchesNeedlessly | python/src/instruments/tektronix/tektds5xx.py:255-262 | with CH1 active, entering for channel 0 as written sends a redundant `DAT:SOU CH1`, where the name comparison sends nothing |
| TekWaveform.FetchBinaryTrace | python/src/instruments/tektronix/tektds5xx.py:302-309 | the binary transfer succeeds exactly when the width reads and the selected source has a memory, and then sends `DAT:ENC RIB`, asks `DATA:WIDTH?`, sends `CURVE?`, reads a block at that width and flushes |
| TekWaveform.FetchBinaryMatches | python/src/instruments/tektronix/tektds5xx.py:302-309 | the binary transfer yields the block the read returns, which is the selected source's memory, unless the width is missing or not an integer or there is no such memory |
| TekWaveform.FetchAscii | python/src/instruments/tektronix/tektds5xx.py:294-300 | the ASCII transfer sends `DAT:ENC ASCI` and asks `CURVE?`, nothing else |
| TekWaveform.FetchAsciiMatches | python/src/instruments/tektronix/tektds5xx.py:294-300 | the ASCII transfer yields the selected source's memory unless there is none or it is empty |
| TekWaveform.AsciiCurveReply | python/src/instruments/tektronix/tektds5xx.py:297-299 | splitting the `CURVE?` reply at commas and converting each field gives the memory back, or fails on the empty reply |
| TekWaveform.CalibrateTrace | python/src/instruments/tektronix/tektds5xx.py:311-323 | a successful calibration asks YOF, YMU, YZE, XIN and NR_P in that order and nothing else |
| TekWaveform.CalibrateStopsOnBadFactor | python/src/instruments/tektronix/tektds5xx.py:311-321 | a vertical factor that is not a number stops the transfer after the three vertical queries, before XIN is asked |
| TekWaveform.TransferMatches | python/src/instruments/tektronix/tektds5xx.py:292-328 | the transfer's result is the selected source's memory calibrated by the named source's preamble replies |
| TekWaveform.TransferShape | python/src/instruments/tektronix/tektds5xx.py:318-325 | a transfer with no selection step reads whichever source `DAT:SOU` selects; amplitudes are `(raw - yoff) * ymult + yzero` per sample; times are `k * xincr` for as many k as `arange(NR_P)` yields |
| TekWaveform.ArangeLength | python/src/instruments/tektronix/tektds5xx.py:325 | `arange(p)` has no element for p <= 0 and otherwise the least n with p <= n |
| TekWaveform.LengthsNotReconciled | python/src/instruments/tektronix/tektds5xx.py:318-325 | nothing ties the time axis to the amplitudes: three samples with a point count of 5 give five times |
| TekWaveform.AsciiBinaryAgree | python/src/instruments/tektronix/tektds5xx.py:292-309 | binary and ASCII transfers of a non-empty memory give the same waveform |
| TekWaveform.BinaryTrace | python/src/instruments/tektronix/tektds5xx.py:302-323 | the full command order of a successful binary transfer |
| TekWaveform.AsciiTrace | python/src/instruments/tektronix/tektds5xx.py:294-323 | the full command order of a successful ASCII transfer |
| TekWaveform.ReadWaveformRestoresSource | python/src/instruments/tektronix/tektds5xx.py:274-292 | `read_waveform` leaves the previously active source active, whether or not it had to switch and whether or not the transfer failed |
| TekWaveform.ReadWaveformResult | python/src/instruments/tektronix/tektds5xx.py:274-328 | `read_waveform` gives the transfer with the named source selected, whatever source was active before: that source's own memory, calibrated by its own preamble, and a failure when it has no memory |
| TekWaveform.SelectedTransferResult | python/src/instruments/tektronix/tektds5xx.py:292-328 | with a source selected, the transfer's reference result is that source's memory calibrated by its preamble, and an error when it has none |
| TekWaveform.SelectionMatters | python/src/instruments/tektronix/tektds5xx.py:292 | when the active and the named source's memories differ in length, running the transfer without the selector gives a different result from `read_waveform` |
| Yokogawa.DecodeEncode | python/src/instruments/yokogawa/yokogawa7651.py:78-141 | every command the driver writes reads back as the order it encodes |
| Yokogawa.Trigger | python/src/instruments/yokogawa/yokogawa7651.py:210-217 | `trigger()` sends `E;` and puts everything staged into effect |
| Yokogawa.TriggerIdempotent | python/src/instruments/yokogawa/yokogawa7651.py:210-217 | triggering twice leaves the same configuration as triggering once |
| Yokogawa.ModeMember | python/src/instruments/yokogawa/yokogawa7651.py:98 | `Mode.voltage` / `Mode.current` resolve exactly when `Mode` is the enumeration class, and otherwise fail as a missing attribute |
| Yokogawa.SetChannelModeUnder | python/src/instruments/yokogawa/yokogawa7651.py:72-79 | for either binding of `Mode`, the mode setter succeeds exactly when the value passes the type check, sending `F<value>;` then `E;`; otherwise it sends nothing |
| Yokogawa.SetLevelUnder | python/src/instruments/yokogawa/yokogawa7651.py:95-121 | for either binding of `Mode`, the voltage or current setter succeeds exactly when `Mode` is the enumeration, and then sends the mode, `E;`, `SA<v>;`, `E;` |
| Yokogawa.SetChannelMode | python/src/instruments/yokogawa/yokogawa7651.py:72-79 | the mode setter refuses anything but a mode with nothing sent; a mode goes out as `F<value>;` then `E;` and is in effect |
| Yokogawa.SetChannelVoltage | python/src/instruments/yokogawa/yokogawa7651.py:95-100 | the voltage setter sends `F1;`, `E;`, `SA<v>;`, `E;`, leaving voltage mode and the set point in effect, nothing pending |
| Yokogawa.SetChannelCurrent | python/src/instruments/yokogawa/yokogawa7651.py:116-121 | the current setter sends `F5;`, `E;`, `SA<v>;`, `E;`, leaving current mode and the set point in effect |
| Yokogawa.SetChannelOutput | python/src/instruments/yokogawa/yokogawa7651.py:135-142 | `O1;` then `E;` only for the value `True` itself; any other value gives `O0;` then `E;` |
| Yokogawa.OneIsNotTrue | python/src/instruments/yokogawa/yokogawa7651.py:137 | the integer 1 switches the output off |
| Yokogawa.OutputKeepsSetPoint | python/src/instruments/yokogawa/yokogawa7651.py:135-142 | switching the output leaves mode and set point as they were |
| Yokogawa.LastSetterWins | python/src/instruments/yokogawa/yokogawa7651.py:95-121 | a current set after a voltage leaves current mode and the current's set point in effect |
| Yokogawa.Read | python/src/instruments/yokogawa/yokogawa7651.py:60-71 | every getter fails as not supported and sends nothing |
| Yokogawa.ChannelAt | python/src/instruments/yokogawa/yokogawa7651.py:158-172 | the channel list holds index 0 only |
| Yokogawa.SetVoltage | python/src/instruments/yokogawa/yokogawa7651.py:187-189 | the instrument's voltage setter produces channel 0's trace and effect |
| Yokogawa.SetCurrent | python/src/instruments/yokogawa/yokogawa7651.py:204-206 | the instrument's current setter produces channel 0's trace and effect |
| Yokogawa.SetChannelModeAsWritten | python/src/instruments/yokogawa/yokogawa7651.py:72-79 | the mode setter with `Mode` bound to a method, as `def` makes it, refuses every value |
| Yokogawa.SetLevelAsWritten | python/src/instruments/yokogawa/yokogawa7651.py:95-121 | the voltage and current setters with `Mode` bound to a method fail on the missing `Mode.voltage` / `Mode.current` attribute before sending anything |
| Yokogawa.ModeIsNotAnEnum | python/src/instruments/yokogawa/yokogawa7651.py:152-154 | as written no mode, voltage or current reaches the instrument, while with `Mode` an enumeration each setter takes effect |

## Left out

- Sleeps (the 10 ms pause after `DAT:SOU`), the serial/GPIB transport, and the `OscilloscopeDataSource`, `SCPIInstrument` and `ProxyList` base classes are not part of this model. List indexing is modelled as an index-range check.
- `flufl.enum` is not part of this model. An enumeration lookup `Enum[reply]` is taken to find the member whose value is the reply.
- Float-valued settings are left out: channel `scale`, `horizontal_scale` and `trigger_level` (`.3E` formatting and read-back comparison), and channel `probe` (`round(1/float(...))`).
- `clock` (`datetime` formatting and parsing) and `get_hardcopy` (BMP header arithmetic over a raw byte read) are left out.
- The unit handling of the Yokogawa setters (`assume_units`, `rescale`, `float`) is left out. The set point is the text the driver formats, taken as given.
- `int()` and `float()` accept optional sign, digits, a decimal point and an exponent. Surrounding whitespace, `inf`, `nan` and digit separators are not modelled.
- Waveform arithmetic is exact over `real`, not IEEE double. The binary block's byte decoding is not modelled: a block read at any width returns the selected memory's samples.
- TekSource.SetDataWidth: a float argument (`int(1.5)` is 1) is not modelled. Arguments are integers, numeral strings, booleans or other values.
- TekSource.SourceOf: a handle whose name is not a Source code makes the driver raise the lookup's `KeyError`, modelled as the same refusal as a `TypeError`.
- TekHandles.SameSource: `__eq__` returns `NotImplemented` when the other operand is not an instance of the same class. The model compares names only, which is what the method returns in every other case.
- TekSettings.Decode: a reply is only ever decoded as the setting's own enumeration. Lookups by member name are not modelled.

## Findings

| source | as written | input that shows it | evidently intended | confidence | as-written member | corrected member |
|---|---|---|---|---|---|---|
| python/src/instruments/yokogawa/yokogawa7651.py:152 | `def Mode(Enum):` defines a method, not an enumeration class, so the mode setter's check rejects every value and the voltage and current setters fail looking up `Mode.voltage` / `Mode.current` | any mode, voltage or current assignment, e.g. `channel[0].voltage = 1` | `class Mode(Enum)` with members voltage = 1 and current = 5 | high, not executed | Yokogawa.SetChannelModeAsWritten, Yokogawa.SetLevelAsWritten, Yokogawa.ModeIsNotAnEnum | Yokogawa.SetChannelMode, Yokogawa.SetChannelVoltage, Yokogawa.SetChannelCurrent |
| python/src/instruments/tektronix/tektds5xx.py:257 | the file is Python 2 code, and the class defines `__eq__` but no `__ne__`, so `!=` compares identity and the freshly built handle of the active source is never the target | CH1 active and `channel[0].read_waveform()`: a redundant `DAT:SOU CH1` is sent and restored | compare by name, sending nothing when the target is already active | medium (the base class is not part of this model), not executed | TekScope.EnterAsWritten, TekScope.EnterAsWrittenSwitchesNeedlessly | TekScope.Enter |
