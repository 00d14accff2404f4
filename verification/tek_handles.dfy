/** The handles the TDS 5xx driver hands out: data sources (channels, math and
    reference traces) and measurement slots, the index-to-name mapping of the
    instrument's `channel`, `ref`, `math` and `measurement` lists, and the values a
    caller may pass to a setter.
 */
module TekHandles {
  import opened Wrappers
  import opened Decimal
  import opened TekEnums

  /** A data source: a channel knows its zero-based index and derives its name
      from it; a math or reference trace is known by its name alone. */
  datatype DataSource = Channel(index: int) | Trace(name: string)

  /** The name the instrument knows the source by. */
  function Name(d: DataSource): string {
    match d
    case Channel(i) => "CH" + IntToString(i + 1)
    case Trace(n) => n
  }

  /** Source equality compares names only: a channel handle and a trace handle
      with the same name are the same source. */
  predicate SameSource(a: DataSource, b: DataSource) {
    Name(a) == Name(b)
  }

  /** The handle the driver makes for a member of the Source table: channels
      come back as channel handles, the rest as named traces. */
  function Handle(s: Source): (d: DataSource)
    ensures Name(d) == SourceCode(s)
    ensures d.Channel? <==> Position(s) < 4
    ensures d.Channel? ==> d.index == Position(s)
  {
    match s
    case CH1 => Channel(0)
    case CH2 => Channel(1)
    case CH3 => Channel(2)
    case CH4 => Channel(3)
    case Math1 => Trace("MATH1")
    case Math2 => Trace("MATH2")
    case Math3 => Trace("MATH3")
    case Ref1 => Trace("REF1")
    case Ref2 => Trace("REF2")
    case Ref3 => Trace("REF3")
    case Ref4 => Trace("REF4")
  }

  /** `channel[i]`: the list holds indices 0 to 3; the handle's name is the
      Source-table code of the i-th channel. */
  function ChannelAt(i: int): (r: Result<DataSource>)
    ensures r.Ok? <==> 0 <= i < 4
    ensures r.Ok? ==> r.value.Channel? && SourceFromCode(Name(r.value)) == Some(SelectionOrder[i])
    ensures r.Err? ==> r.error == InvalidArgument
  {
    if 0 <= i < 4 then Ok(Channel(i)) else Err(InvalidArgument)
  }

  /** `math[i]`: the list holds indices 0 to 2, named `MATH1` to `MATH3`. */
  function MathAt(i: int): (r: Result<DataSource>)
    ensures r.Ok? <==> 0 <= i < 3
    ensures r.Ok? ==> SourceFromCode(Name(r.value)) == Some(SelectionOrder[4 + i])
    ensures r.Err? ==> r.error == InvalidArgument
  {
    if 0 <= i < 3 then Ok(Trace("MATH" + IntToString(i + 1))) else Err(InvalidArgument)
  }

  /** `ref[i]`: the list holds indices 0 to 3, named `REF1` to `REF4`. */
  function RefAt(i: int): (r: Result<DataSource>)
    ensures r.Ok? <==> 0 <= i < 4
    ensures r.Ok? ==> SourceFromCode(Name(r.value)) == Some(SelectionOrder[7 + i])
    ensures r.Err? ==> r.error == InvalidArgument
  {
    if 0 <= i < 4 then Ok(Trace("REF" + IntToString(i + 1))) else Err(InvalidArgument)
  }

  /** A measurement slot, numbered from 1 as the `MEASU:MEAS<n>` headers are. */
  datatype MeasurementSlot = MeasurementSlot(number: int)

  /** `measurement[i]`: the list holds indices 0 to 3; slot i is numbered i + 1,
      so distinct indices address distinct slots. */
  function MeasurementAt(i: int): (r: Result<MeasurementSlot>)
    ensures r.Ok? <==> 0 <= i < 4
    ensures r.Ok? ==> 1 <= r.value.number <= 4 && r.value.number - 1 == i
    ensures r.Err? ==> r.error == InvalidArgument
  {
    if 0 <= i < 4 then Ok(MeasurementSlot(i + 1)) else Err(InvalidArgument)
  }

  /** A value a caller may hand to a setter. The driver checks its kind at run
      time, so a setter can be given a value of any of these kinds. */
  datatype Value =
    | CouplingValue(coupling: Coupling)
    | BandwidthValue(bandwidth: Bandwidth)
    | ImpedanceValue(impedance: Impedance)
    | EdgeValue(edge: Edge)
    | TriggerValue(trigger: Trigger)
    | SourceValue(source: Source)
    | MeasurementValue(measurement: Measurement)
    | DirectionValue(direction: Direction)
    | HandleValue(handle: DataSource)
    | BoolValue(b: bool)
    | IntValue(i: int)
    | TextValue(text: string)
    | OtherValue
}
