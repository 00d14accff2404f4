/** The enum-checked settings of the TDS 5xx: the coupling, bandwidth and
    impedance of a channel, the delay direction, edges, sources and type of a
    measurement slot, and the coupling, slope and source of the main trigger.
    Every one is set by `<header> <code>` after a check that the value belongs
    to the setting's enumeration, and read by `<header>?` followed by a lookup
    of the reply in that enumeration. Alongside them sit the two on/off flags
    (a measurement's state and the display clock), the measurement's units and
    value, and `force_trigger`.
 */
module TekSettings {
  import opened Wrappers
  import opened Decimal
  import opened Transport
  import opened TekEnums
  import opened TekHandles

  // ---------------------------------------------------------------------------
  // Enumerations as run-time kinds

  /** The enumeration a setting takes its values from. */
  datatype Kind =
    | CouplingKind
    | BandwidthKind
    | ImpedanceKind
    | EdgeKind
    | TriggerKind
    | SourceKind
    | MeasurementKind
    | DirectionKind

  /** The enumeration a value is a member of, if any. */
  function KindOfValue(v: Value): Option<Kind> {
    match v
    case CouplingValue(_) => Some(CouplingKind)
    case BandwidthValue(_) => Some(BandwidthKind)
    case ImpedanceValue(_) => Some(ImpedanceKind)
    case EdgeValue(_) => Some(EdgeKind)
    case TriggerValue(_) => Some(TriggerKind)
    case SourceValue(_) => Some(SourceKind)
    case MeasurementValue(_) => Some(MeasurementKind)
    case DirectionValue(_) => Some(DirectionKind)
    case _ => None
  }

  /** The code a setter of `kind` sends for `v`: None when `v` is not a member
      of that enumeration, which is the setters' type check. */
  function CodeOf(kind: Kind, v: Value): (r: Option<string>)
    ensures r.Some? <==> KindOfValue(v) == Some(kind)
  {
    match v
    case CouplingValue(x) => if kind == CouplingKind then Some(CouplingCode(x)) else None
    case BandwidthValue(x) => if kind == BandwidthKind then Some(BandwidthCode(x)) else None
    case ImpedanceValue(x) => if kind == ImpedanceKind then Some(ImpedanceCode(x)) else None
    case EdgeValue(x) => if kind == EdgeKind then Some(EdgeCode(x)) else None
    case TriggerValue(x) => if kind == TriggerKind then Some(TriggerCode(x)) else None
    case SourceValue(x) => if kind == SourceKind then Some(SourceCode(x)) else None
    case MeasurementValue(x) => if kind == MeasurementKind then Some(MeasurementCode(x)) else None
    case DirectionValue(x) => if kind == DirectionKind then Some(DirectionCode(x)) else None
    case _ => None
  }

  /** `Enum[reply]`: the member of `kind` whose code the reply is. */
  function Decode(kind: Kind, reply: string): (r: Option<Value>)
    ensures r.Some? ==> KindOfValue(r.value) == Some(kind)
  {
    match kind
    case CouplingKind =>
      (match CouplingFromCode(reply) case None => None case Some(x) => Some(CouplingValue(x)))
    case BandwidthKind =>
      (match BandwidthFromCode(reply) case None => None case Some(x) => Some(BandwidthValue(x)))
    case ImpedanceKind =>
      (match ImpedanceFromCode(reply) case None => None case Some(x) => Some(ImpedanceValue(x)))
    case EdgeKind =>
      (match EdgeFromCode(reply) case None => None case Some(x) => Some(EdgeValue(x)))
    case TriggerKind =>
      (match TriggerFromCode(reply) case None => None case Some(x) => Some(TriggerValue(x)))
    case SourceKind =>
      (match SourceFromCode(reply) case None => None case Some(x) => Some(SourceValue(x)))
    case MeasurementKind =>
      (match MeasurementFromCode(reply) case None => None case Some(x) => Some(MeasurementValue(x)))
    case DirectionKind =>
      (match DirectionFromCode(reply) case None => None case Some(x) => Some(DirectionValue(x)))
  }

  /** Decoding is exactly the inverse of encoding: a reply decodes to `v` if and
      only if it is the code the setter sends for `v`. */
  lemma DecodeInverse(kind: Kind, reply: string, v: Value)
    ensures Decode(kind, reply) == Some(v) <==> CodeOf(kind, v) == Some(reply)
  {
    match v
    case CouplingValue(x) => assert CouplingCode(x) == reply <==> CouplingFromCode(reply) == Some(x);
    case BandwidthValue(x) => assert BandwidthCode(x) == reply <==> BandwidthFromCode(reply) == Some(x);
    case ImpedanceValue(x) => assert ImpedanceCode(x) == reply <==> ImpedanceFromCode(reply) == Some(x);
    case EdgeValue(x) => assert EdgeCode(x) == reply <==> EdgeFromCode(reply) == Some(x);
    case TriggerValue(x) => assert TriggerCode(x) == reply <==> TriggerFromCode(reply) == Some(x);
    case SourceValue(x) => assert SourceCode(x) == reply <==> SourceFromCode(reply) == Some(x);
    case MeasurementValue(x) => assert MeasurementCode(x) == reply <==> MeasurementFromCode(reply) == Some(x);
    case DirectionValue(x) => assert DirectionCode(x) == reply <==> DirectionFromCode(reply) == Some(x);
    case _ =>
  }

  // ---------------------------------------------------------------------------
  // The settings and their headers

  /** The enum-checked settings of a channel. */
  datatype ChannelField = ChannelCoupling | ChannelBandwidth | ChannelImpedance

  /** The enum-checked settings of a measurement slot. */
  datatype MeasurementField =
    | DelayDirection
    | DelayEdge1
    | DelayEdge2
    | MeasuredSource
    | MeasuredSource2
    | MeasuredType

  /** The enum-checked settings of the main edge trigger. */
  datatype TriggerField = TriggerCoupling | TriggerSlope | TriggerSource

  /** One enum-checked setting: of the channel with zero-based index `channel`,
      of a measurement slot, or of the trigger. */
  datatype Property =
    | OfChannel(channel: int, cf: ChannelField)
    | OfMeasurement(slot: MeasurementSlot, mf: MeasurementField)
    | OfTrigger(tf: TriggerField)

  function ChannelMnemonic(f: ChannelField): string {
    match f
    case ChannelCoupling => "COUPL"
    case ChannelBandwidth => "BAND"
    case ChannelImpedance => "IMP"
  }

  function MeasurementMnemonic(f: MeasurementField): string {
    match f
    case DelayDirection => "DEL:DIRE"
    case DelayEdge1 => "DEL:EDGE1"
    case DelayEdge2 => "DEL:EDGE2"
    case MeasuredSource => "SOURCE"
    case MeasuredSource2 => "SOURCE2"
    case MeasuredType => "TYPE"
  }

  function TriggerMnemonic(f: TriggerField): string {
    match f
    case TriggerCoupling => "COUP"
    case TriggerSlope => "SLO"
    case TriggerSource => "SOU"
  }

  /** The header of a numbered register: `<prefix><n>:<mnemonic>`. */
  function Numbered(prefix: string, n: int, mnemonic: string): string {
    prefix + IntToString(n) + ":" + mnemonic
  }

  /** `MEASU:MEAS<n>:<mnemonic>`: a register of measurement slot n. */
  function MeasurementHeader(slot: MeasurementSlot, mnemonic: string): string {
    Numbered("MEASU:MEAS", slot.number, mnemonic)
  }

  /** The register a setting is stored under. A channel's registers are
      numbered from 1, so channel index i uses `CH<i+1>`, the channel's name. */
  function Header(p: Property): (h: string)
    ensures p.OfChannel? ==> h == Name(Channel(p.channel)) + ":" + ChannelMnemonic(p.cf)
  {
    match p
    case OfChannel(i, f) => Numbered("CH", i + 1, ChannelMnemonic(f))
    case OfMeasurement(slot, f) => MeasurementHeader(slot, MeasurementMnemonic(f))
    case OfTrigger(f) => "TRIG:MAI:EDGE:" + TriggerMnemonic(f)
  }

  /** The enumeration each setting takes its values from. */
  function KindOf(p: Property): Kind {
    match p
    case OfChannel(_, ChannelCoupling) => CouplingKind
    case OfChannel(_, ChannelBandwidth) => BandwidthKind
    case OfChannel(_, ChannelImpedance) => ImpedanceKind
    case OfMeasurement(_, DelayDirection) => DirectionKind
    case OfMeasurement(_, DelayEdge1) => EdgeKind
    case OfMeasurement(_, DelayEdge2) => EdgeKind
    case OfMeasurement(_, MeasuredSource) => SourceKind
    case OfMeasurement(_, MeasuredSource2) => SourceKind
    case OfMeasurement(_, MeasuredType) => MeasurementKind
    case OfTrigger(TriggerCoupling) => CouplingKind
    case OfTrigger(TriggerSlope) => EdgeKind
    case OfTrigger(TriggerSource) => TriggerKind
  }

  // ---------------------------------------------------------------------------
  // Distinct settings live in distinct registers

  lemma SuffixAfter(a: string, x: string)
    ensures (a + x)[|a|..] == x
  {
  }

  lemma ColonAfter(a: string, x: string, f: string)
    ensures (a + x + ":" + f)[|a| + |x|] == ':'
  {
  }

  /** Text that holds no `:` and is followed by one is recovered from the
      string it is part of. */
  lemma ColonSplit(a: string, x: string, y: string, f: string, g: string)
    requires ':' !in x && ':' !in y
    requires a + x + ":" + f == a + y + ":" + g
    ensures x == y && f == g
  {
    var h := a + x + ":" + f;
    var h' := a + y + ":" + g;
    if |x| < |y| {
      ColonAfter(a, x, f);
      assert false;
    } else if |y| < |x| {
      ColonAfter(a, y, g);
      assert false;
    }
    assert x == h[|a|..|a| + |x|];
    assert y == h'[|a|..|a| + |y|];
    assert f == h[|a| + |x| + 1..];
    assert g == h'[|a| + |y| + 1..];
  }

  /** A numeral holds digits and at most a minus sign, never a `:`. */
  lemma NoColonInNumeral(n: int)
    ensures ':' !in IntToString(n)
  {
    var s := IntToString(n);
    forall k | 0 <= k < |s| ensures s[k] != ':' {
      assert IsDigit(s[k]) || s[k] == '-';
    }
  }

  /** A numbered header determines its number and its mnemonic: the number
      ends at the first `:` after the prefix. */
  lemma NumberedInjective(prefix: string, m: int, n: int, f: string, g: string)
    requires Numbered(prefix, m, f) == Numbered(prefix, n, g)
    ensures m == n && f == g
  {
    NoColonInNumeral(m);
    NoColonInNumeral(n);
    ColonSplit(prefix, IntToString(m), IntToString(n), f, g);
    assert Some(m) == ParseInt(IntToString(m)) == ParseInt(IntToString(n)) == Some(n);
  }

  lemma ChannelHeadersDistinct(i: int, j: int, f: ChannelField, g: ChannelField)
    requires i != j || f != g
    ensures Numbered("CH", i, ChannelMnemonic(f)) != Numbered("CH", j, ChannelMnemonic(g))
  {
    if Numbered("CH", i, ChannelMnemonic(f)) == Numbered("CH", j, ChannelMnemonic(g)) {
      NumberedInjective("CH", i, j, ChannelMnemonic(f), ChannelMnemonic(g));
    }
  }

  lemma MeasurementHeadersDistinct(m: int, n: int, f: MeasurementField, g: MeasurementField)
    requires m != n || f != g
    ensures Numbered("MEASU:MEAS", m, MeasurementMnemonic(f)) != Numbered("MEASU:MEAS", n, MeasurementMnemonic(g))
  {
    var x, y := MeasurementMnemonic(f), MeasurementMnemonic(g);
    if Numbered("MEASU:MEAS", m, x) == Numbered("MEASU:MEAS", n, y) {
      NumberedInjective("MEASU:MEAS", m, n, x, y);
    }
  }

  lemma TriggerHeadersDistinct(f: TriggerField, g: TriggerField)
    requires f != g
    ensures "TRIG:MAI:EDGE:" + TriggerMnemonic(f) != "TRIG:MAI:EDGE:" + TriggerMnemonic(g)
  {
    SuffixAfter("TRIG:MAI:EDGE:", TriggerMnemonic(f));
    SuffixAfter("TRIG:MAI:EDGE:", TriggerMnemonic(g));
  }

  /** The first letter of a header names its group. */
  function Group(p: Property): char {
    match p
    case OfChannel(_, _) => 'C'
    case OfMeasurement(_, _) => 'M'
    case OfTrigger(_) => 'T'
  }

  lemma HeaderGroup(p: Property)
    ensures |Header(p)| > 5 && Header(p)[0] == Group(p)
  {
  }

  /** Two different settings never share a register, so setting one leaves
      every other readable as it was: different channels or slots differ in the
      number, different fields in the mnemonic, and the three groups in the
      leading letter. */
  lemma HeadersDistinct(p: Property, q: Property)
    requires p != q
    ensures Header(p) != Header(q)
  {
    HeaderGroup(p);
    HeaderGroup(q);
    if p.OfChannel? && q.OfChannel? {
      ChannelHeadersDistinct(p.channel + 1, q.channel + 1, p.cf, q.cf);
    } else if p.OfMeasurement? && q.OfMeasurement? {
      MeasurementHeadersDistinct(p.slot.number, q.slot.number, p.mf, q.mf);
    } else if p.OfTrigger? && q.OfTrigger? {
      TriggerHeadersDistinct(p.tf, q.tf);
    }
  }

  // ---------------------------------------------------------------------------
  // Setting and reading

  /** `query("<header>?")` of a register: the reply is what the register holds,
      and there is none when it holds nothing. */
  function ReadRegister(t: Instrument, header: string): (r: Run<string>)
    requires header != "CURVE"
    ensures r.after == t.(log := t.log + [Ask(header + "?")])
    ensures r.result.Ok? <==> header in t.device.settings
    ensures r.result.Ok? ==> r.result.value == t.device.settings[header]
    ensures r.result.Err? ==> r.result.error == TransferError
  {
    assert (header + "?")[..|header|] == header;
    Query(t, header + "?")
  }

  lemma HeaderNotCurve(p: Property)
    ensures Header(p) != "CURVE"
  {
    HeaderGroup(p);
  }

  /** An enum-checked setter: a value outside the setting's enumeration is
      refused with nothing sent; a member goes out as `<header> <code>`. */
  function SetProperty(t: Instrument, p: Property, v: Value): (r: Run<()>)
    ensures r.result.Ok? <==> KindOfValue(v) == Some(KindOf(p))
    ensures r.result.Err? ==> r.result.error == InvalidArgument && r.after == t
    ensures r.result.Ok? ==> r.after == SendSetting(t, Header(p), CodeOf(KindOf(p), v).value)
  {
    match CodeOf(KindOf(p), v)
    case None => Run(Err(InvalidArgument), t)
    case Some(code) => Run(Ok(()), SendSetting(t, Header(p), code))
  }

  /** An enum-checked getter: the query goes out; a missing reply is a transfer
      error and a reply that is no code of the enumeration a protocol error. */
  function GetProperty(t: Instrument, p: Property): (r: Run<Value>)
    ensures r.after == t.(log := t.log + [Ask(Header(p) + "?")])
    ensures Header(p) !in t.device.settings ==> r.result == Err(TransferError)
    ensures Header(p) in t.device.settings ==>
      && (r.result.Ok? <==> Decode(KindOf(p), t.device.settings[Header(p)]).Some?)
      && (r.result.Ok? ==> Some(r.result.value) == Decode(KindOf(p), t.device.settings[Header(p)]))
      && (r.result.Err? ==> r.result.error == ProtocolError)
  {
    HeaderNotCurve(p);
    var reply := ReadRegister(t, Header(p));
    match reply.result
    case Err(e) => Run(Err(e), reply.after)
    case Ok(text) =>
      match Decode(KindOf(p), text)
      case None => Run(Err(ProtocolError), reply.after)
      case Some(v) => Run(Ok(v), reply.after)
  }

  /** What a setter accepted reads back as the same member. */
  lemma PropertyRoundTrip(t: Instrument, p: Property, v: Value)
    requires KindOfValue(v) == Some(KindOf(p))
    ensures GetProperty(SetProperty(t, p, v).after, p).result == Ok(v)
  {
    DecodeInverse(KindOf(p), CodeOf(KindOf(p), v).value, v);
  }

  /** The getter yields `v` exactly when the register holds `v`'s code. */
  lemma PropertyReads(t: Instrument, p: Property, v: Value)
    ensures GetProperty(t, p).result == Ok(v) <==>
      Header(p) in t.device.settings && CodeOf(KindOf(p), v) == Some(t.device.settings[Header(p)])
  {
    if Header(p) in t.device.settings {
      DecodeInverse(KindOf(p), t.device.settings[Header(p)], v);
    }
  }

  /** Setting one property leaves what any other property reads unchanged. */
  lemma PropertyFrame(t: Instrument, p: Property, q: Property, v: Value)
    requires p != q
    ensures GetProperty(SetProperty(t, p, v).after, q).result == GetProperty(t, q).result
  {
    HeadersDistinct(p, q);
  }

  // ---------------------------------------------------------------------------
  // On/off flags

  /** The settings that take a `bool`. */
  datatype Flag = MeasurementState(slot: MeasurementSlot) | DisplayClock

  function FlagHeader(f: Flag): string {
    match f
    case MeasurementState(slot) => MeasurementHeader(slot, "STATE")
    case DisplayClock => "DISPLAY:CLOCK"
  }

  /** `int(b)` of a `bool`, as the flag setters write it. */
  function BoolNumeral(b: bool): string {
    if b then "1" else "0"
  }

  /** A flag setter: anything but a `bool` is refused with nothing sent;
      a `bool` goes out as `1` or `0`. */
  function SetFlag(t: Instrument, f: Flag, v: Value): (r: Run<()>)
    ensures r.result.Ok? <==> v.BoolValue?
    ensures r.result.Err? ==> r.result.error == InvalidArgument && r.after == t
    ensures r.result.Ok? ==> r.after == SendSetting(t, FlagHeader(f), BoolNumeral(v.b))
  {
    match v
    case BoolValue(b) => Run(Ok(()), SendSetting(t, FlagHeader(f), BoolNumeral(b)))
    case _ => Run(Err(InvalidArgument), t)
  }

  /** A flag getter, `bool(int(reply))`: any integer reply other than zero
      reads as on; a reply that is no integer is a protocol error. */
  function GetFlag(t: Instrument, f: Flag): (r: Run<bool>)
    ensures r.after == t.(log := t.log + [Ask(FlagHeader(f) + "?")])
    ensures FlagHeader(f) !in t.device.settings ==> r.result == Err(TransferError)
    ensures FlagHeader(f) in t.device.settings ==>
      && (r.result.Ok? <==> ParseInt(t.device.settings[FlagHeader(f)]).Some?)
      && (r.result.Ok? ==> r.result.value == (ParseInt(t.device.settings[FlagHeader(f)]).value != 0))
      && (r.result.Err? ==> r.result.error == ProtocolError)
  {
    assert FlagHeader(f)[0] != 'C';
    var reply := ReadRegister(t, FlagHeader(f));
    match reply.result
    case Err(e) => Run(Err(e), reply.after)
    case Ok(text) =>
      match ParseInt(text)
      case None => Run(Err(ProtocolError), reply.after)
      case Some(n) => Run(Ok(n != 0), reply.after)
  }

  /** A flag that was set reads back as set. */
  lemma FlagRoundTrip(t: Instrument, f: Flag, b: bool)
    ensures GetFlag(SetFlag(t, f, BoolValue(b)).after, f).result == Ok(b)
  {
    assert ParseInt(BoolNumeral(b)) == Some(if b then 1 else 0) by {
      assert DigitsValue(BoolNumeral(b)) == DigitValue(BoolNumeral(b)[0]);
    }
  }

  // ---------------------------------------------------------------------------
  // Measurement results and force_trigger

  /** `units`: the reply to `MEASU:MEAS<n>:UNITS?`, passed on as it came. */
  function GetUnits(t: Instrument, slot: MeasurementSlot): (r: Run<string>)
    ensures r.after == t.(log := t.log + [Ask(MeasurementHeader(slot, "UNITS") + "?")])
    ensures r.result.Ok? <==> MeasurementHeader(slot, "UNITS") in t.device.settings
    ensures r.result.Ok? ==> r.result.value == t.device.settings[MeasurementHeader(slot, "UNITS")]
    ensures r.result.Err? ==> r.result.error == TransferError
  {
    ReadRegister(t, MeasurementHeader(slot, "UNITS"))
  }

  /** `value`: `float()` of the reply to `MEASU:MEAS<n>:VALUE?`. */
  function GetReading(t: Instrument, slot: MeasurementSlot): (r: Run<real>)
    ensures r.after == t.(log := t.log + [Ask(MeasurementHeader(slot, "VALUE") + "?")])
    ensures MeasurementHeader(slot, "VALUE") !in t.device.settings ==> r.result == Err(TransferError)
    ensures MeasurementHeader(slot, "VALUE") in t.device.settings ==>
      && (r.result.Ok? <==> ParseReal(t.device.settings[MeasurementHeader(slot, "VALUE")]).Some?)
      && (r.result.Ok? ==> Some(r.result.value) == ParseReal(t.device.settings[MeasurementHeader(slot, "VALUE")]))
      && (r.result.Err? ==> r.result.error == ProtocolError)
  {
    var reply := ReadRegister(t, MeasurementHeader(slot, "VALUE"));
    match reply.result
    case Err(e) => Run(Err(e), reply.after)
    case Ok(text) =>
      match ParseReal(text)
      case None => Run(Err(ProtocolError), reply.after)
      case Some(x) => Run(Ok(x), reply.after)
  }

  /** Units and value are read from the slot's own registers: different slots
      never read each other's results. */
  lemma ResultsPerSlot(t: Instrument, s: MeasurementSlot, other: MeasurementSlot, text: string)
    requires s != other
    ensures GetUnits(SendSetting(t, MeasurementHeader(other, "UNITS"), text), s).result == GetUnits(t, s).result
    ensures GetReading(SendSetting(t, MeasurementHeader(other, "VALUE"), text), s).result == GetReading(t, s).result
  {
    if MeasurementHeader(other, "UNITS") == MeasurementHeader(s, "UNITS") {
      NumberedInjective("MEASU:MEAS", other.number, s.number, "UNITS", "UNITS");
    }
    if MeasurementHeader(other, "VALUE") == MeasurementHeader(s, "VALUE") {
      NumberedInjective("MEASU:MEAS", other.number, s.number, "VALUE", "VALUE");
    }
  }

  /** A value register holding an integer numeral reads as that number. */
  lemma ReadingOfNumeral(t: Instrument, slot: MeasurementSlot, n: int)
    requires MeasurementHeader(slot, "VALUE") in t.device.settings
    requires t.device.settings[MeasurementHeader(slot, "VALUE")] == IntToString(n)
    ensures GetReading(t, slot).result == Ok(n as real)
  {
  }

  /** `force_trigger` is not supported: it fails and sends nothing. */
  function ForceTrigger(t: Instrument): (r: Run<()>)
    ensures r.result.Err? && r.result.error == NotSupported
    ensures r.after == t
  {
    Run(Err(NotSupported), t)
  }
}
