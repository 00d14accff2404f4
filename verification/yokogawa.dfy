/** The Yokogawa 7651 programmable DC source: a single channel that is driven
    by write-only commands (`F<n>;` selects the mode, `SA<v>;` the set point,
    `O1;`/`O0;` the output) and takes none of them into effect until it is
    triggered with `E;`. Nothing can be read back.

    The supply is modelled as two configurations, the one the commands have
    staged and the one in effect, together with the log of commands sent.
 */
module Yokogawa {
  import opened Wrappers

  // ---------------------------------------------------------------------------
  // Commands

  /** Output mode: constant voltage or constant current. */
  datatype Mode = Voltage | Current

  /** The number the instrument knows a mode by. */
  function ModeNumber(m: Mode): int {
    match m
    case Voltage => 1
    case Current => 5
  }

  /** What one command asks of the instrument. The set point is carried as the
      text the driver formats it to. */
  datatype Order =
    | SelectMode(mode: Mode)
    | SetPoint(token: string)
    | SwitchOutput(on: bool)
    | Fire

  /** The command text of an order. */
  function Encode(o: Order): string {
    match o
    case SelectMode(Voltage) => "F1;"
    case SelectMode(Current) => "F5;"
    case SetPoint(v) => "SA" + v + ";"
    case SwitchOutput(on) => if on then "O1;" else "O0;"
    case Fire => "E;"
  }

  /** How the instrument reads a command: the fixed commands by their text, and
      any other text between `SA` and `;` as a set point. */
  function DecodeCommand(cmd: string): Option<Order> {
    if cmd == "E;" then Some(Fire)
    else if cmd == "F1;" then Some(SelectMode(Voltage))
    else if cmd == "F5;" then Some(SelectMode(Current))
    else if cmd == "O1;" then Some(SwitchOutput(true))
    else if cmd == "O0;" then Some(SwitchOutput(false))
    else if |cmd| >= 3 && cmd[..2] == "SA" && cmd[|cmd| - 1] == ';' then Some(SetPoint(cmd[2..|cmd| - 1]))
    else None
  }

  /** Every command the driver writes is read back as the order it encodes, so
      distinct orders have distinct command texts. */
  lemma DecodeEncode(o: Order)
    ensures DecodeCommand(Encode(o)) == Some(o)
  {
    if o.SetPoint? {
      var cmd := Encode(o);
      assert cmd[0] == 'S';
      assert cmd[..2] == "SA";
      assert cmd[2..|cmd| - 1] == o.token;
    }
  }

  /** The mode code follows the mode's number: `F{value};`. */
  lemma ModeCommandNumber(m: Mode)
    ensures Encode(SelectMode(m)) == "F" + [(48 + ModeNumber(m)) as char] + ";"
  {
  }

  // ---------------------------------------------------------------------------
  // The supply

  /** A configuration: each part is None until a command has set it. */
  datatype Config = Config(mode: Option<Mode>, level: Option<string>, output: Option<bool>)

  /** The staged configuration, the configuration in effect, and every command
      sent so far. */
  datatype Supply = Supply(staged: Config, active: Config, log: seq<string>)

  /** What an order other than the trigger does to the staged configuration. */
  function Stage(c: Config, o: Order): (c': Config)
    ensures o.SelectMode? ==> c' == c.(mode := Some(o.mode))
    ensures o.SetPoint? ==> c' == c.(level := Some(o.token))
    ensures o.SwitchOutput? ==> c' == c.(output := Some(o.on))
    ensures o.Fire? ==> c' == c
  {
    match o
    case SelectMode(m) => c.(mode := Some(m))
    case SetPoint(v) => c.(level := Some(v))
    case SwitchOutput(on) => c.(output := Some(on))
    case Fire => c
  }

  /** `sendcmd(cmd)`: the trigger puts the staged configuration into effect;
      any other order changes only the staged one; text the instrument does not
      read changes nothing. */
  function Send(s: Supply, cmd: string): (s': Supply)
    ensures s'.log == s.log + [cmd]
  {
    match DecodeCommand(cmd)
    case None => s.(log := s.log + [cmd])
    case Some(Fire) => Supply(s.staged, s.staged, s.log + [cmd])
    case Some(o) => Supply(Stage(s.staged, o), s.active, s.log + [cmd])
  }

  /** Nothing is staged that is not in effect. */
  predicate Settled(s: Supply) {
    s.staged == s.active
  }

  /** `trigger()`: sends `E;`, which puts everything staged into effect. */
  function Trigger(s: Supply): (s': Supply)
    ensures s'.log == s.log + ["E;"]
    ensures s'.active == s.staged && Settled(s')
  {
    DecodeEncode(Fire);
    Send(s, Encode(Fire))
  }

  /** Triggering a settled supply changes nothing but the log. */
  lemma TriggerIdempotent(s: Supply)
    ensures Trigger(Trigger(s)).staged == Trigger(s).staged
    ensures Trigger(Trigger(s)).active == Trigger(s).active
  {
  }

  /** Sends an order and then triggers: what every setter does. */
  function SendAndFire(s: Supply, o: Order): (s': Supply)
    requires !o.Fire?
    ensures s'.log == s.log + [Encode(o), "E;"]
    ensures s'.active == Stage(s.staged, o) && Settled(s')
  {
    DecodeEncode(o);
    Trigger(Send(s, Encode(o)))
  }

  // ---------------------------------------------------------------------------
  // Channel setters

  /** What a caller may hand to a setter: a member of `Mode`, a `bool`, an
      integer, or anything else. */
  datatype Arg = ModeArg(mode: Mode) | BoolArg(b: bool) | IntArg(i: int) | OtherArg

  /** What the name `Yokogawa7651.Mode` is bound to: the enumeration class the
      setters are written against, or a plain method taking one argument, which
      is what `def Mode(Enum)` binds it to. */
  datatype ModeBinding = EnumClass | PlainMethod

  /** `Mode.voltage` / `Mode.current`: an attribute of the enumeration class; a
      method has no such attribute. */
  function ModeMember(b: ModeBinding, m: Mode): (r: Result<Mode>)
    ensures r.Ok? <==> b == EnumClass
    ensures r.Ok? ==> r.value == m
    ensures r.Err? ==> r.error == MissingAttribute
  {
    match b
    case EnumClass => Ok(m)
    case PlainMethod => Err(MissingAttribute)
  }

  /** The setter's type check: the value is an enumeration member whose
      enumeration is what `Mode` is bound to. Every member's enumeration is a
      class, so none passes when `Mode` is bound to a method. */
  predicate IsModeMember(b: ModeBinding, a: Arg) {
    a.ModeArg? && b == EnumClass
  }

  /** The channel's `mode` setter, for either binding of `Mode`: a value that
      fails the type check is refused with nothing sent; a mode is selected with
      `F<n>;` and put into effect. */
  function SetChannelModeUnder(b: ModeBinding, s: Supply, a: Arg): (r: Result<Supply>)
    ensures r.Ok? <==> IsModeMember(b, a)
    ensures r.Err? ==> r.error == InvalidArgument
    ensures r.Ok? ==>
      && r.value.log == s.log + ["F" + [(48 + ModeNumber(a.mode)) as char] + ";", "E;"]
      && r.value.active == s.staged.(mode := Some(a.mode))
      && Settled(r.value)
  {
    if IsModeMember(b, a) then
      ModeCommandNumber(a.mode);
      Ok(SendAndFire(s, SelectMode(a.mode)))
    else Err(InvalidArgument)
  }

  /** The channel's `voltage` (mode Voltage) or `current` (mode Current) setter,
      for either binding of `Mode`: the mode is looked up on `Mode`, selected and
      put into effect, then the set point is sent and put into effect. */
  function SetLevelUnder(b: ModeBinding, s: Supply, m: Mode, token: string): (r: Result<Supply>)
    ensures r.Ok? <==> b == EnumClass
    ensures r.Err? ==> r.error == MissingAttribute && b == PlainMethod
    ensures r.Ok? ==>
      && r.value.log == s.log + [Encode(SelectMode(m)), "E;", "SA" + token + ";", "E;"]
      && r.value.active == s.staged.(mode := Some(m), level := Some(token))
      && Settled(r.value)
  {
    match ModeMember(b, m)
    case Err(e) => Err(e)
    case Ok(member) =>
      ModeCommandNumber(member);
      var moded := SetChannelModeUnder(b, s, ModeArg(member)).value;
      Ok(SendAndFire(moded, SetPoint(token)))
  }

  /** The channel's `mode` setter with `Mode` the enumeration: anything but a
      `Mode` is refused with nothing sent; a mode is selected with `F<n>;` and
      put into effect. */
  function SetChannelMode(s: Supply, a: Arg): (r: Result<Supply>)
    ensures r.Ok? <==> a.ModeArg?
    ensures r.Err? ==> r.error == InvalidArgument
    ensures r.Ok? ==>
      && r.value.log == s.log + ["F" + [(48 + ModeNumber(a.mode)) as char] + ";", "E;"]
      && r.value.active == s.staged.(mode := Some(a.mode))
      && Settled(r.value)
  {
    SetChannelModeUnder(EnumClass, s, a)
  }

  /** The channel's `voltage` setter: voltage mode is selected and put into
      effect, then the set point is sent and put into effect. */
  function SetChannelVoltage(s: Supply, token: string): (s': Supply)
    ensures s'.log == s.log + ["F1;", "E;", "SA" + token + ";", "E;"]
    ensures s'.active == s.staged.(mode := Some(Voltage), level := Some(token)) && Settled(s')
  {
    SetLevelUnder(EnumClass, s, Voltage, token).value
  }

  /** The channel's `current` setter: as the voltage setter, in current mode. */
  function SetChannelCurrent(s: Supply, token: string): (s': Supply)
    ensures s'.log == s.log + ["F5;", "E;", "SA" + token + ";", "E;"]
    ensures s'.active == s.staged.(mode := Some(Current), level := Some(token)) && Settled(s')
  {
    SetLevelUnder(EnumClass, s, Current, token).value
  }

  /** The channel's `output` setter: the output is switched on only for the
      value `True` itself; every other value, including the integer 1, switches
      it off. */
  function SetChannelOutput(s: Supply, a: Arg): (s': Supply)
    ensures s'.log == s.log + [if a == BoolArg(true) then "O1;" else "O0;", "E;"]
    ensures s'.active == s.staged.(output := Some(a == BoolArg(true))) && Settled(s')
  {
    SendAndFire(s, SwitchOutput(a == BoolArg(true)))
  }

  /** The settings the channel has no query for. */
  datatype Reading = ModeReading | VoltageReading | CurrentReading | OutputReading

  /** Every getter fails without sending anything. */
  function Read(s: Supply, what: Reading): (r: (Result<string>, Supply))
    ensures r.0.Err? && r.0.error == NotSupported
    ensures r.1 == s
  {
    (Err(NotSupported), s)
  }

  // ---------------------------------------------------------------------------
  // The instrument

  /** `channel[i]`: the supply has the one channel, index 0. */
  function ChannelAt(i: int): (r: Result<nat>)
    ensures r.Ok? <==> i == 0
    ensures r.Ok? ==> r.value == 0
    ensures r.Err? ==> r.error == InvalidArgument
  {
    if i == 0 then Ok(0) else Err(InvalidArgument)
  }

  /** The instrument's `voltage` setter sets channel 0's. */
  function SetVoltage(s: Supply, token: string): (s': Supply)
    ensures s'.log == s.log + ["F1;", "E;", "SA" + token + ";", "E;"]
    ensures s'.active == s.staged.(mode := Some(Voltage), level := Some(token)) && Settled(s')
  {
    var _ := ChannelAt(0).value;
    SetChannelVoltage(s, token)
  }

  /** The instrument's `current` setter sets channel 0's. */
  function SetCurrent(s: Supply, token: string): (s': Supply)
    ensures s'.log == s.log + ["F5;", "E;", "SA" + token + ";", "E;"]
    ensures s'.active == s.staged.(mode := Some(Current), level := Some(token)) && Settled(s')
  {
    var _ := ChannelAt(0).value;
    SetChannelCurrent(s, token)
  }

  // ---------------------------------------------------------------------------
  // Properties across setters

  /** A set point is taken in the mode selected with it: setting a current after
      a voltage leaves current mode and the current's set point in effect, with
      the output untouched. */
  lemma LastSetterWins(s: Supply, v: string, c: string)
    ensures SetChannelCurrent(SetChannelVoltage(s, v), c).active ==
      Config(Some(Current), Some(c), s.staged.output)
  {
  }

  /** Switching the output does not disturb mode or set point. */
  lemma OutputKeepsSetPoint(s: Supply, a: Arg)
    requires Settled(s)
    ensures SetChannelOutput(s, a).active.mode == s.active.mode
    ensures SetChannelOutput(s, a).active.level == s.active.level
  {
  }

  /** The integer 1 is not `True`: it switches the output off. */
  lemma OneIsNotTrue(s: Supply)
    ensures SetChannelOutput(s, IntArg(1)).log == s.log + ["O0;", "E;"]
    ensures SetChannelOutput(s, IntArg(1)).active.output == Some(false)
  {
  }

  // ---------------------------------------------------------------------------
  // The driver as written

  /** The mode setter as written, with `Mode` bound to a method: the type
      check fails for every value, so everything is refused and nothing sent. */
  function SetChannelModeAsWritten(s: Supply, a: Arg): (r: Result<Supply>)
    ensures r.Err? && r.error == InvalidArgument
  {
    SetChannelModeUnder(PlainMethod, s, a)
  }

  /** The voltage and current setters as written: looking up `Mode.voltage` or
      `Mode.current` on the method fails before anything is sent. */
  function SetLevelAsWritten(s: Supply, m: Mode, token: string): (r: Result<Supply>)
    ensures r.Err? && r.error == MissingAttribute
  {
    SetLevelUnder(PlainMethod, s, m, token)
  }

  /** As written, no mode, voltage or current ever reaches the instrument,
      where with `Mode` an enumeration each setter puts its setting into
      effect. */
  lemma ModeIsNotAnEnum(s: Supply, m: Mode, token: string)
    ensures SetChannelModeAsWritten(s, ModeArg(m)).Err?
    ensures SetChannelMode(s, ModeArg(m)).Ok? && SetChannelMode(s, ModeArg(m)).value.active.mode == Some(m)
    ensures SetLevelAsWritten(s, Voltage, token).Err?
    ensures SetChannelVoltage(s, token).active.level == Some(token)
    ensures SetLevelAsWritten(s, Current, token).Err?
    ensures SetChannelCurrent(s, token).active.level == Some(token)
  {
  }
}
