/** The TDS 5xx enumerations: each setting's closed set of values and the short
    code the instrument uses for each. `XCode` is what a setter sends; `XFromCode`
    is the lookup a getter applies to a reply, and it is exactly the inverse of
    `XCode`: a reply decodes to x if and only if it is x's code, so the codes of
    one enumeration are pairwise distinct.
 */
module TekEnums {
  import opened Wrappers

  /** Available coupling options for input sources and trigger. */
  datatype Coupling =
    | AC
    | DC
    | Ground

  function CouplingCode(x: Coupling): string {
    match x
    case AC => "AC"
    case DC => "DC"
    case Ground => "GND"
  }

  function CouplingFromCode(code: string): (r: Option<Coupling>)
    ensures forall x :: CouplingCode(x) == code <==> r == Some(x)
  {
    match code
    case "AC" => Some(Coupling.AC)
    case "DC" => Some(Coupling.DC)
    case "GND" => Some(Coupling.Ground)
    case _ => None
  }

  /** Input bandwidth limits, in MHz. */
  datatype Bandwidth =
    | Twenty
    | OneHundred
    | TwoHundred
    | Full

  function BandwidthCode(x: Bandwidth): string {
    match x
    case Twenty => "TWE"
    case OneHundred => "HUN"
    case TwoHundred => "TWO"
    case Full => "FUL"
  }

  function BandwidthFromCode(code: string): (r: Option<Bandwidth>)
    ensures forall x :: BandwidthCode(x) == code <==> r == Some(x)
  {
    match code
    case "TWE" => Some(Bandwidth.Twenty)
    case "HUN" => Some(Bandwidth.OneHundred)
    case "TWO" => Some(Bandwidth.TwoHundred)
    case "FUL" => Some(Bandwidth.Full)
    case _ => None
  }

  /** Input source impedance. */
  datatype Impedance =
    | Fifty
    | OneMeg

  function ImpedanceCode(x: Impedance): string {
    match x
    case Fifty => "FIF"
    case OneMeg => "MEG"
  }

  function ImpedanceFromCode(code: string): (r: Option<Impedance>)
    ensures forall x :: ImpedanceCode(x) == code <==> r == Some(x)
  {
    match code
    case "FIF" => Some(Impedance.Fifty)
    case "MEG" => Some(Impedance.OneMeg)
    case _ => None
  }

  /** Trigger and measurement slopes. */
  datatype Edge =
    | Rising
    | Falling

  function EdgeCode(x: Edge): string {
    match x
    case Rising => "RIS"
    case Falling => "FALL"
  }

  function EdgeFromCode(code: string): (r: Option<Edge>)
    ensures forall x :: EdgeCode(x) == code <==> r == Some(x)
  {
    match code
    case "RIS" => Some(Edge.Rising)
    case "FALL" => Some(Edge.Falling)
    case _ => None
  }

  /** Trigger sources (AUX is absent on some models). */
  datatype Trigger =
    | CH1
    | CH2
    | CH3
    | CH4
    | Aux
    | Line

  function TriggerCode(x: Trigger): string {
    match x
    case CH1 => "CH1"
    case CH2 => "CH2"
    case CH3 => "CH3"
    case CH4 => "CH4"
    case Aux => "AUX"
    case Line => "LINE"
  }

  function TriggerFromCode(code: string): (r: Option<Trigger>)
    ensures forall x :: TriggerCode(x) == code <==> r == Some(x)
  {
    match code
    case "CH1" => Some(Trigger.CH1)
    case "CH2" => Some(Trigger.CH2)
    case "CH3" => Some(Trigger.CH3)
    case "CH4" => Some(Trigger.CH4)
    case "AUX" => Some(Trigger.Aux)
    case "LINE" => Some(Trigger.Line)
    case _ => None
  }

  /** Data sources for waveform transfer and measurements, in the order the `SEL?` reply lists them. */
  datatype Source =
    | CH1
    | CH2
    | CH3
    | CH4
    | Math1
    | Math2
    | Math3
    | Ref1
    | Ref2
    | Ref3
    | Ref4

  function SourceCode(x: Source): string {
    match x
    case CH1 => "CH1"
    case CH2 => "CH2"
    case CH3 => "CH3"
    case CH4 => "CH4"
    case Math1 => "MATH1"
    case Math2 => "MATH2"
    case Math3 => "MATH3"
    case Ref1 => "REF1"
    case Ref2 => "REF2"
    case Ref3 => "REF3"
    case Ref4 => "REF4"
  }

  function SourceFromCode(code: string): (r: Option<Source>)
    ensures forall x :: SourceCode(x) == code <==> r == Some(x)
  {
    match code
    case "CH1" => Some(Source.CH1)
    case "CH2" => Some(Source.CH2)
    case "CH3" => Some(Source.CH3)
    case "CH4" => Some(Source.CH4)
    case "MATH1" => Some(Source.Math1)
    case "MATH2" => Some(Source.Math2)
    case "MATH3" => Some(Source.Math3)
    case "REF1" => Some(Source.Ref1)
    case "REF2" => Some(Source.Ref2)
    case "REF3" => Some(Source.Ref3)
    case "REF4" => Some(Source.Ref4)
    case _ => None
  }

  /** Measurement types. */
  datatype Measurement =
    | Amplitude
    | Area
    | Burst
    | Carea
    | Cmean
    | Crms
    | Delay
    | Fall
    | Frequency
    | High
    | Low
    | Maximum
    | Mean
    | Minimum
    | Nduty
    | Novershoot
    | Nwidth
    | Pduty
    | Period
    | Phase
    | Pk2pk
    | Povershoot
    | Pwidth
    | Rise
    | Rms

  function MeasurementCode(x: Measurement): string {
    match x
    case Amplitude => "AMP"
    case Area => "ARE"
    case Burst => "BUR"
    case Carea => "CAR"
    case Cmean => "CME"
    case Crms => "CRM"
    case Delay => "DEL"
    case Fall => "FALL"
    case Frequency => "FREQ"
    case High => "HIGH"
    case Low => "LOW"
    case Maximum => "MAX"
    case Mean => "MEAN"
    case Minimum => "MINI"
    case Nduty => "NDU"
    case Novershoot => "NOV"
    case Nwidth => "NWI"
    case Pduty => "PDU"
    case Period => "PERI"
    case Phase => "PHA"
    case Pk2pk => "PK2"
    case Povershoot => "POV"
    case Pwidth => "PWI"
    case Rise => "RIS"
    case Rms => "RMS"
  }

  function MeasurementFromCode(code: string): (r: Option<Measurement>)
    ensures forall x :: MeasurementCode(x) == code <==> r == Some(x)
  {
    match code
    case "AMP" => Some(Measurement.Amplitude)
    case "ARE" => Some(Measurement.Area)
    case "BUR" => Some(Measurement.Burst)
    case "CAR" => Some(Measurement.Carea)
    case "CME" => Some(Measurement.Cmean)
    case "CRM" => Some(Measurement.Crms)
    case "DEL" => Some(Measurement.Delay)
    case "FALL" => Some(Measurement.Fall)
    case "FREQ" => Some(Measurement.Frequency)
    case "HIGH" => Some(Measurement.High)
    case "LOW" => Some(Measurement.Low)
    case "MAX" => Some(Measurement.Maximum)
    case "MEAN" => Some(Measurement.Mean)
    case "MINI" => Some(Measurement.Minimum)
    case "NDU" => Some(Measurement.Nduty)
    case "NOV" => Some(Measurement.Novershoot)
    case "NWI" => Some(Measurement.Nwidth)
    case "PDU" => Some(Measurement.Pduty)
    case "PERI" => Some(Measurement.Period)
    case "PHA" => Some(Measurement.Phase)
    case "PK2" => Some(Measurement.Pk2pk)
    case "POV" => Some(Measurement.Povershoot)
    case "PWI" => Some(Measurement.Pwidth)
    case "RIS" => Some(Measurement.Rise)
    case "RMS" => Some(Measurement.Rms)
    case _ => None
  }

  /** Measurement delay directions. */
  datatype Direction =
    | Backwards
    | Forwards

  function DirectionCode(x: Direction): string {
    match x
    case Backwards => "BAC"
    case Forwards => "FORW"
  }

  function DirectionFromCode(code: string): (r: Option<Direction>)
    ensures forall x :: DirectionCode(x) == code <==> r == Some(x)
  {
    match code
    case "BAC" => Some(Direction.Backwards)
    case "FORW" => Some(Direction.Forwards)
    case _ => None
  }

  /** The position of each source in the `SEL?` flag list, which follows the
      order of the Source table. */
  const SelectionOrder: seq<Source> :=
    [Source.CH1, Source.CH2, Source.CH3, Source.CH4, Math1, Math2, Math3, Ref1, Ref2, Ref3, Ref4]

  function Position(s: Source): (k: nat)
    ensures k < |SelectionOrder| && SelectionOrder[k] == s
  {
    match s
    case CH1 => 0
    case CH2 => 1
    case CH3 => 2
    case CH4 => 3
    case Math1 => 4
    case Math2 => 5
    case Math3 => 6
    case Ref1 => 7
    case Ref2 => 8
    case Ref3 => 9
    case Ref4 => 10
  }
}
