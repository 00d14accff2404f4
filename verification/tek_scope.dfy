/** The scoped data-source selector of a TDS 5xx data source: entering the scope
    makes the source the instrument's transfer source if it is not already, and
    leaving it puts back the source that was active before.
 */
module TekScope {
  import opened Wrappers
  import opened Decimal
  import opened Transport
  import opened TekEnums
  import opened TekHandles
  import opened TekSource

  /** What the instrument reports as its active transfer source. */
  function ActiveSource(d: Device): (r: Result<DataSource>)
    ensures "DAT:SOU" !in d.settings ==> r == Err(TransferError)
    ensures "DAT:SOU" in d.settings ==> r == SourceFromReply(d.settings["DAT:SOU"])
  {
    if "DAT:SOU" in d.settings then SourceFromReply(d.settings["DAT:SOU"]) else Err(TransferError)
  }

  /** The instrument after the `DAT:SOU?` query the selector starts with. */
  function Asked(t: Instrument): (t': Instrument)
    ensures t'.device == t.device && t'.log == t.log + [Ask("DAT:SOU?")]
  {
    t.(log := t.log + [Ask("DAT:SOU?")])
  }

  /** What entering leaves for leaving: the source to put back, if one was
      replaced. */
  datatype Guard = Guard(restore: Option<DataSource>)

  /** Entering the scope of `target`. The active source is read; if its name is
      the target's, nothing more is sent and nothing will be restored. Otherwise
      the target becomes the active source, which the data-source setter refuses
      (sending nothing) when the target's name is not in the Source table. */
  function Enter(t: Instrument, target: DataSource): (r: Run<Guard>)
    ensures ActiveSource(t.device).Err? ==> r == Run(Err(ActiveSource(t.device).error), Asked(t))
    ensures ActiveSource(t.device).Ok? && SameSource(ActiveSource(t.device).value, target) ==>
      r == Run(Ok(Guard(None)), Asked(t))
    ensures ActiveSource(t.device).Ok? && !SameSource(ActiveSource(t.device).value, target) ==>
      && (r.result.Ok? <==> SourceFromCode(Name(target)).Some?)
      && (r.result.Ok? ==>
            && r.result.value == Guard(Some(ActiveSource(t.device).value))
            && r.after == SendSetting(Asked(t), "DAT:SOU", Name(target)))
      && (r.result.Err? ==> r == Run(Err(InvalidArgument), Asked(t)))
  {
    var current := GetDataSource(t);
    match current.result
    case Err(e) => Run(Err(e), current.after)
    case Ok(active) =>
      if SameSource(active, target) then Run(Ok(Guard(None)), current.after)
      else
        var switch := SetDataSource(current.after, HandleValue(target));
        match switch.result
        case Err(e) => Run(Err(e), switch.after)
        case Ok(_) => Run(Ok(Guard(Some(active))), switch.after)
  }

  /** Leaving the scope: the replaced source, if any, is set back through the
      data-source setter, which refuses a name outside the Source table. */
  function Exit(t: Instrument, g: Guard): (r: Run<()>)
    ensures g.restore.None? ==> r == Run(Ok(()), t)
    ensures g.restore.Some? ==> (r.result.Ok? <==> SourceFromCode(Name(g.restore.value)).Some?)
    ensures g.restore.Some? && r.result.Ok? ==> r.after == SendSetting(t, "DAT:SOU", Name(g.restore.value))
    ensures r.result.Err? ==> r == Run(Err(InvalidArgument), t)
  {
    match g.restore
    case None => Run(Ok(()), t)
    case Some(previous) => SetDataSource(t, HandleValue(previous))
  }

  /** `with source: body`: the body runs only if entering succeeded; leaving
      runs whether the body succeeded or failed, and an error raised while
      leaving replaces the body's result. */
  function WithSource<T>(t: Instrument, target: DataSource, body: Instrument -> Run<T>): (r: Run<T>)
    ensures ActiveSource(t.device).Err? ==> r == Run(Err(ActiveSource(t.device).error), Asked(t))
  {
    var entered := Enter(t, target);
    match entered.result
    case Err(e) => Run(Err(e), entered.after)
    case Ok(g) =>
      var inner := body(entered.after);
      var left := Exit(inner.after, g);
      match left.result
      case Err(e) => Run(Err(e), left.after)
      case Ok(_) => Run(inner.result, left.after)
  }

  /** When the active source already has the target's name, the scope adds only
      the opening `DAT:SOU?` query to what the body does: no `DAT:SOU` command is
      sent on entry or on exit. */
  lemma ScopeKeepsSource<T>(t: Instrument, target: DataSource, body: Instrument -> Run<T>)
    requires ActiveSource(t.device).Ok?
    requires SameSource(ActiveSource(t.device).value, target)
    ensures WithSource(t, target, body) == body(Asked(t))
  {
  }

  /** When the names differ and both are in the Source table, entry sends exactly
      `DAT:SOU <target>`, the body runs against that, and exit sends exactly
      `DAT:SOU <previous>` whatever the body's result, which is passed through. */
  lemma ScopeSwitchesAndRestores<T>(t: Instrument, target: DataSource, body: Instrument -> Run<T>)
    requires ActiveSource(t.device).Ok?
    requires !SameSource(ActiveSource(t.device).value, target)
    requires SourceFromCode(Name(target)).Some?
    requires SourceFromCode(Name(ActiveSource(t.device).value)).Some?
    ensures var inner := body(SendSetting(Asked(t), "DAT:SOU", Name(target)));
      WithSource(t, target, body) ==
        Run(inner.result, SendSetting(inner.after, "DAT:SOU", Name(ActiveSource(t.device).value)))
  {
  }

  /** A target whose name is not in the Source table is refused on entry: the
      body never runs, and only the opening query was sent. */
  lemma ScopeRefusesUnknownTarget<T>(t: Instrument, target: DataSource, body: Instrument -> Run<T>)
    requires ActiveSource(t.device).Ok?
    requires !SameSource(ActiveSource(t.device).value, target)
    requires SourceFromCode(Name(target)).None?
    ensures WithSource(t, target, body) == Run(Err(InvalidArgument), Asked(t))
  {
  }

  /** When the instrument reports an active source the setter cannot put back,
      leaving fails, and that failure replaces the body's result. */
  lemma ScopeRestoreFailureWins<T>(t: Instrument, target: DataSource, body: Instrument -> Run<T>)
    requires ActiveSource(t.device).Ok?
    requires !SameSource(ActiveSource(t.device).value, target)
    requires SourceFromCode(Name(target)).Some?
    requires SourceFromCode(Name(ActiveSource(t.device).value)).None?
    ensures var inner := body(SendSetting(Asked(t), "DAT:SOU", Name(target)));
      WithSource(t, target, body) == Run(Err(InvalidArgument), inner.after)
  {
  }

  /** If the instrument reports its active source by a Source-table code and the
      body leaves `DAT:SOU` alone, the instrument's active source after the scope
      is the one before it, whether the body succeeded or failed, and whether or
      not the selector had to switch. */
  lemma ScopeRestoresActiveSource<T>(t: Instrument, target: DataSource, body: Instrument -> Run<T>)
    requires "DAT:SOU" in t.device.settings
    requires SourceFromCode(t.device.settings["DAT:SOU"]).Some?
    requires SourceFromCode(Name(target)).Some?
    requires forall u: Instrument ::
      ("DAT:SOU" in body(u).after.device.settings <==> "DAT:SOU" in u.device.settings) &&
      ("DAT:SOU" in u.device.settings ==>
         body(u).after.device.settings["DAT:SOU"] == u.device.settings["DAT:SOU"])
    ensures "DAT:SOU" in WithSource(t, target, body).after.device.settings
    ensures WithSource(t, target, body).after.device.settings["DAT:SOU"] == t.device.settings["DAT:SOU"]
  {
    var reply := t.device.settings["DAT:SOU"];
    var s := SourceFromCode(reply).value;
    SourceReplyRoundTrip(s);
    assert ActiveSource(t.device) == Ok(Handle(s));
    if SameSource(Handle(s), target) {
      ScopeKeepsSource(t, target, body);
    } else {
      ScopeSwitchesAndRestores(t, target, body);
    }
  }

  // ---------------------------------------------------------------------------
  // The comparison as the source file evaluates it

  /** Entering as the driver's Python 2 code behaves: the class defines `__eq__`
      but no `__ne__`, so `!=` falls back to identity, and the freshly built
      handle of the active source is never identical to the target. The selector
      therefore always switches, even to the source that is already active. */
  function EnterAsWritten(t: Instrument, target: DataSource): (r: Run<Guard>)
    ensures ActiveSource(t.device).Err? ==> r == Run(Err(ActiveSource(t.device).error), Asked(t))
    ensures ActiveSource(t.device).Ok? ==>
      && (r.result.Ok? <==> SourceFromCode(Name(target)).Some?)
      && (r.result.Ok? ==>
            && r.result.value == Guard(Some(ActiveSource(t.device).value))
            && r.after == SendSetting(Asked(t), "DAT:SOU", Name(target)))
  {
    var current := GetDataSource(t);
    match current.result
    case Err(e) => Run(Err(e), current.after)
    case Ok(active) =>
      var switch := SetDataSource(current.after, HandleValue(target));
      match switch.result
      case Err(e) => Run(Err(e), switch.after)
      case Ok(_) => Run(Ok(Guard(Some(active))), switch.after)
  }

  /** With `CH1` already active, entering the scope of channel 0 as written sends
      a redundant `DAT:SOU CH1` and arms a restore, where the name comparison
      sends nothing and arms none. */
  lemma EnterAsWrittenSwitchesNeedlessly()
    ensures var t := Instrument(Device(map["DAT:SOU" := "CH1"], map[]), []);
      && EnterAsWritten(t, Channel(0)).after.log == [Ask("DAT:SOU?"), Write(Command("DAT:SOU", "CH1"))]
      && EnterAsWritten(t, Channel(0)).result == Ok(Guard(Some(Channel(0))))
      && Enter(t, Channel(0)) == Run(Ok(Guard(None)), Instrument(t.device, [Ask("DAT:SOU?")]))
  {
    var t := Instrument(Device(map["DAT:SOU" := "CH1"], map[]), []);
    ChannelReplyKeepsName(1);
    assert "CH" + IntToString(1) == "CH1";
    assert ActiveSource(t.device) == Ok(Channel(0));
    assert Name(Channel(0)) == "CH1";
  }
}
