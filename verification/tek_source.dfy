/** The TDS 5xx waveform-transfer settings: which data source the instrument
    transfers (`DAT:SOU`), how wide each binary sample is (`DATA:WIDTH`), and which
    sources are displayed (`SEL?`).
 */
module TekSource {
  import opened Wrappers
  import opened Text
  import opened Decimal
  import opened Transport
  import opened TekEnums
  import opened TekHandles

  // ---------------------------------------------------------------------------
  // data_source

  predicate StartsWithCH(reply: string) {
    |reply| >= 2 && reply[..2] == "CH"
  }

  /** The handle the `data_source` getter makes from a `DAT:SOU?` reply: a reply
      starting with "CH" is the channel whose number follows, any other reply is a
      trace of that name. */
  function SourceFromReply(reply: string): (r: Result<DataSource>)
    ensures !StartsWithCH(reply) ==> r == Ok(Trace(reply))
    ensures StartsWithCH(reply) ==> (r.Ok? <==> ParseInt(reply[2..]).Some?)
    ensures StartsWithCH(reply) && r.Ok? ==>
      r.value.Channel? && ParseInt(reply[2..]) == Some(r.value.index + 1)
    ensures r.Err? ==> r.error == ProtocolError
  {
    if StartsWithCH(reply) then
      match ParseInt(reply[2..])
      case None => Err(ProtocolError)
      case Some(n) => Ok(Channel(n - 1))
    else Ok(Trace(reply))
  }

  /** A reply naming a channel as `CH<n>`, n written as `str` writes it, gives a
      channel handle whose name is the reply itself. */
  lemma {:induction false} ChannelReplyKeepsName(n: int)
    ensures SourceFromReply("CH" + IntToString(n)) == Ok(Channel(n - 1))
    ensures Name(SourceFromReply("CH" + IntToString(n)).value) == "CH" + IntToString(n)
  {
    var reply := "CH" + IntToString(n);
    assert reply[..2] == "CH";
    assert reply[2..] == IntToString(n);
  }

  /** Reading back the code of a Source-table member gives the handle the driver
      makes for that member, so the name survives the round trip. */
  lemma {:induction false} SourceReplyRoundTrip(s: Source)
    ensures SourceFromReply(SourceCode(s)) == Ok(Handle(s))
  {
    match s
    case CH1 => ChannelReplyKeepsName(1);
    case CH2 => ChannelReplyKeepsName(2);
    case CH3 => ChannelReplyKeepsName(3);
    case CH4 => ChannelReplyKeepsName(4);
    case _ => assert SourceCode(s)[0] != 'C';
  }

  /** The `data_source` getter: one `DAT:SOU?` query, decoded as above. */
  function GetDataSource(t: Instrument): (r: Run<DataSource>)
    ensures r.after == t.(log := t.log + [Ask("DAT:SOU?")])
    ensures "DAT:SOU" !in t.device.settings ==> r.result == Err(TransferError)
    ensures "DAT:SOU" in t.device.settings ==> r.result == SourceFromReply(t.device.settings["DAT:SOU"])
  {
    var reply := Query(t, "DAT:SOU?");
    assert "DAT:SOU?"[..7] == "DAT:SOU";
    match reply.result
    case Err(e) => Run(Err(e), reply.after)
    case Ok(name) => Run(SourceFromReply(name), reply.after)
  }

  /** The Source-table member a `data_source` argument stands for: a member
      itself, or a handle whose name is a member's code. */
  function SourceOf(v: Value): (r: Option<Source>)
    ensures v.SourceValue? ==> r == Some(v.source)
    ensures v.HandleValue? ==> (r.Some? <==> exists s :: SourceCode(s) == Name(v.handle))
    ensures v.HandleValue? && r.Some? ==> SourceCode(r.value) == Name(v.handle)
    ensures !v.SourceValue? && !v.HandleValue? ==> r.None?
  {
    match v
    case SourceValue(s) => Some(s)
    case HandleValue(d) => SourceFromCode(Name(d))
    case _ => None
  }

  /** The `data_source` setter: anything that is not a Source member, or a handle
      whose name is not in the Source table, is refused before anything is sent;
      otherwise exactly one `DAT:SOU <code>` goes out and the instrument's active
      source becomes that code. */
  function SetDataSource(t: Instrument, v: Value): (r: Run<()>)
    ensures r.result.Ok? <==> SourceOf(v).Some?
    ensures r.result.Err? ==> r.result.error == InvalidArgument && r.after == t
    ensures r.result.Ok? ==>
      && r.after.log == t.log + [Write(Command("DAT:SOU", SourceCode(SourceOf(v).value)))]
      && r.after.device == t.device.(settings := t.device.settings["DAT:SOU" := SourceCode(SourceOf(v).value)])
  {
    match SourceOf(v)
    case None => Run(Err(InvalidArgument), t)
    case Some(s) =>
      Run(Ok(()), SendSetting(t, "DAT:SOU", SourceCode(s)))
  }

  /** Setting a source and reading it back gives the driver's handle for it. */
  lemma DataSourceRoundTrip(t: Instrument, s: Source)
    ensures GetDataSource(SetDataSource(t, SourceValue(s)).after).result == Ok(Handle(s))
  {
    SourceReplyRoundTrip(s);
  }

  // ---------------------------------------------------------------------------
  // data_width

  /** The `data_width` getter: `int()` of the `DATA:WIDTH?` reply. */
  function GetDataWidth(t: Instrument): (r: Run<int>)
    ensures r.after == t.(log := t.log + [Ask("DATA:WIDTH?")])
    ensures "DATA:WIDTH" !in t.device.settings ==> r.result == Err(TransferError)
    ensures "DATA:WIDTH" in t.device.settings ==>
      && (r.result.Ok? <==> ParseInt(t.device.settings["DATA:WIDTH"]).Some?)
      && (r.result.Ok? ==> Some(r.result.value) == ParseInt(t.device.settings["DATA:WIDTH"]))
      && (r.result.Err? ==> r.result.error == ProtocolError)
  {
    var reply := Query(t, "DATA:WIDTH?");
    assert "DATA:WIDTH?"[..10] == "DATA:WIDTH";
    match reply.result
    case Err(e) => Run(Err(e), reply.after)
    case Ok(text) =>
      match ParseInt(text)
      case None => Run(Err(ProtocolError), reply.after)
      case Some(n) => Run(Ok(n), reply.after)
  }

  /** What the `data_width` setter makes of its argument: the integer `int()`
      gives, and the text `format()` writes into the command. A bool is an
      integer (True is 1) but is written as a word; a string is parsed but
      written as given; any other kind has no `int()`. */
  function WidthArgument(v: Value): (r: Option<(int, string)>)
    ensures v.IntValue? ==> r == Some((v.i, IntToString(v.i)))
    ensures v.TextValue? ==> (r.Some? <==> ParseInt(v.text).Some?)
    ensures v.TextValue? && r.Some? ==> r.value == (ParseInt(v.text).value, v.text)
    ensures v.BoolValue? ==> r == Some(if v.b then (1, "True") else (0, "False"))
    ensures !v.IntValue? && !v.TextValue? && !v.BoolValue? ==> r.None?
  {
    match v
    case IntValue(n) => Some((n, IntToString(n)))
    case TextValue(text) =>
      (match ParseInt(text)
       case None => None
       case Some(n) => Some((n, text)))
    case BoolValue(b) => Some(if b then (1, "True") else (0, "False"))
    case _ => None
  }

  /** The `data_width` setter: an argument whose integer is not one or two is
      refused with nothing sent; otherwise exactly `DATA:WIDTH <argument>` goes
      out, the argument written as given. */
  function SetDataWidth(t: Instrument, v: Value): (r: Run<()>)
    ensures r.result.Ok? <==> WidthArgument(v).Some? && WidthArgument(v).value.0 in {1, 2}
    ensures r.result.Err? ==> r.result.error == InvalidArgument && r.after == t
    ensures r.result.Ok? ==>
      && r.after.log == t.log + [Write(Command("DATA:WIDTH", WidthArgument(v).value.1))]
      && r.after.device == t.device.(settings := t.device.settings["DATA:WIDTH" := WidthArgument(v).value.1])
  {
    match WidthArgument(v)
    case None => Run(Err(InvalidArgument), t)
    case Some((n, text)) =>
      if n != 1 && n != 2 then Run(Err(InvalidArgument), t)
      else Run(Ok(()), SendSetting(t, "DATA:WIDTH", text))
  }

  /** An integer width that was accepted reads back unchanged. */
  lemma DataWidthRoundTrip(t: Instrument, n: int)
    requires n == 1 || n == 2
    ensures GetDataWidth(SetDataWidth(t, IntValue(n)).after).result == Ok(n)
  {
  }

  /** A numeral string is written as given, and reads back as its integer. */
  lemma DataWidthTextRoundTrip(t: Instrument, text: string)
    requires ParseInt(text) == Some(1) || ParseInt(text) == Some(2)
    ensures SetDataWidth(t, TextValue(text)).after.log == t.log + [Write(Command("DATA:WIDTH", text))]
    ensures GetDataWidth(SetDataWidth(t, TextValue(text)).after).result == Ok(ParseInt(text).value)
  {
  }

  /** `True` passes the width check as the integer 1 but goes out as the word
      `True`, which the width getter cannot read back. */
  lemma DataWidthTrueIsWord(t: Instrument)
    ensures SetDataWidth(t, BoolValue(true)).after.log == t.log + [Write(Command("DATA:WIDTH", "True"))]
    ensures GetDataWidth(SetDataWidth(t, BoolValue(true)).after).result == Err(ProtocolError)
  {
  }

  // ---------------------------------------------------------------------------
  // sources

  /** `int()` of every field, or None if any field is not an integer. */
  function ParseAll(fields: seq<string>): (r: Option<seq<int>>)
    ensures r.Some? <==> forall i :: 0 <= i < |fields| ==> ParseInt(fields[i]).Some?
    ensures r.Some? ==> |r.value| == |fields|
    ensures r.Some? ==> forall i :: 0 <= i < |fields| ==> Some(r.value[i]) == ParseInt(fields[i])
    decreases |fields|
  {
    if |fields| == 0 then Some([])
    else
      match (ParseInt(fields[0]), ParseAll(fields[1..]))
      case (Some(x), Some(xs)) =>
        assert forall i :: 1 <= i < |fields| ==> fields[i] == fields[1..][i - 1];
        Some([x] + xs)
      case (None, _) => None
      case (_, None) =>
        assert forall i :: 0 <= i < |fields| - 1 ==> fields[1..][i] == fields[i + 1];
        None
  }

  function Min(a: int, b: int): int {
    if a <= b then a else b
  }

  /** The eleven display flags of a `SEL?` reply: its first eleven
      semicolon-separated fields as integers. A reply with fewer fields, or with a
      non-integer among the first eleven, is malformed; later fields are not read. */
  function SelectionFlags(reply: string): (r: Result<seq<int>>)
    ensures r.Ok? <==>
      && |Split(reply, ';')| >= 11
      && forall i :: 0 <= i < 11 ==> ParseInt(Split(reply, ';')[i]).Some?
    ensures r.Ok? ==> |r.value| == 11
    ensures r.Ok? ==> forall i :: 0 <= i < 11 ==> Some(r.value[i]) == ParseInt(Split(reply, ';')[i])
    ensures r.Err? ==> r.error == ProtocolError
  {
    var fields := Split(reply, ';');
    var head := fields[..Min(11, |fields|)];
    match ParseAll(head)
    case None => Err(ProtocolError)
    case Some(flags) => if |flags| < 11 then Err(ProtocolError) else Ok(flags)
  }

  /** Fields after the eleventh make no difference. */
  lemma ExtraFieldsIgnored(reply: string, extra: string)
    requires |Split(reply, ';')| >= 11
    ensures SelectionFlags(reply + ";" + extra) == SelectionFlags(reply)
  {
    SplitAround(reply, extra, ';');
    assert reply + ";" + extra == reply + [';'] + extra;
    var longer := Split(reply + ";" + extra, ';');
    assert longer[..11] == Split(reply, ';')[..11];
  }

  /** The sources whose flags among the first n are set, in Source-table order:
      the reference the `sources` property is checked against. */
  function Selected(flags: seq<int>, n: nat): (active: seq<DataSource>)
    requires n <= |flags| && n <= |SelectionOrder|
    ensures |active| <= n
    decreases n
  {
    if n == 0 then []
    else Selected(flags, n - 1) + (if flags[n - 1] != 0 then [Handle(SelectionOrder[n - 1])] else [])
  }

  /** The handle `sources` builds at flag position k: channel k for the first
      four, then `MATH<k-3>`, then `REF<k-6>`. */
  lemma SelectionHandle(k: nat)
    requires k < |SelectionOrder|
    ensures Handle(SelectionOrder[k]) ==
      if k < 4 then Channel(k)
      else if k < 7 then Trace("MATH" + IntToString(k - 3))
      else Trace("REF" + IntToString(k - 6))
  {
    PositionInjective(k);
    if k >= 4 {
      var d := if k < 7 then k - 3 else k - 6;
      SmallNumeral(d);
      if k == 4 {
        assert "MATH" + [DigitChar(1)] == "MATH1";
      } else if k == 5 {
        assert "MATH" + [DigitChar(2)] == "MATH2";
      } else if k == 6 {
        assert "MATH" + [DigitChar(3)] == "MATH3";
      } else if k == 7 {
        assert "REF" + [DigitChar(1)] == "REF1";
      } else if k == 8 {
        assert "REF" + [DigitChar(2)] == "REF2";
      } else if k == 9 {
        assert "REF" + [DigitChar(3)] == "REF3";
      } else {
        assert "REF" + [DigitChar(4)] == "REF4";
      }
    }
  }

  lemma SmallNumeral(d: nat)
    requires d < 10
    ensures IntToString(d) == [DigitChar(d)]
  {
  }

  /** The rank of a handle in the Source table; -1 for names not in it. */
  function Rank(d: DataSource): int {
    match SourceFromCode(Name(d))
    case None => -1
    case Some(s) => Position(s)
  }

  lemma PositionInjective(k: nat)
    requires k < |SelectionOrder|
    ensures Position(SelectionOrder[k]) == k
  {
  }

  /** Every element of `xs` has a key in [0, n), and the keys strictly
      increase along `xs`. */
  predicate OrderedBy<T>(key: T -> int, xs: seq<T>, n: nat) {
    && (forall i :: 0 <= i < |xs| ==> 0 <= key(xs[i]) < n)
    && (forall i, j :: 0 <= i < j < |xs| ==> key(xs[i]) < key(xs[j]))
  }

  /** Every handle in `active` has a table rank below `n`, and the ranks
      strictly increase along the sequence. */
  predicate RankOrdered(active: seq<DataSource>, n: nat) {
    OrderedBy(Rank, active, n)
  }

  /** Appending an element whose key is the bound keeps the order. */
  lemma OrderedExtend<T>(key: T -> int, xs: seq<T>, n: nat, x: T)
    requires OrderedBy(key, xs, n) && key(x) == n
    ensures OrderedBy(key, xs + [x], n + 1)
  {
    var after := xs + [x];
    forall i | 0 <= i < |after|
      ensures 0 <= key(after[i]) < n + 1
    {
      if i < |xs| {
        assert after[i] == xs[i];
      }
    }
    forall i, j | 0 <= i < j < |after|
      ensures key(after[i]) < key(after[j])
    {
      assert after[i] == xs[i];
      if j < |xs| {
        assert after[j] == xs[j];
      }
    }
  }

  lemma OrderedWeaken<T>(key: T -> int, xs: seq<T>, n: nat)
    requires OrderedBy(key, xs, n)
    ensures OrderedBy(key, xs, n + 1)
  {
  }

  /** The selected handles appear once each, in strictly increasing table rank:
      channels, then math traces, then references. */
  lemma {:induction false} SelectedInOrder(flags: seq<int>, n: nat)
    requires n <= |flags| && n <= |SelectionOrder|
    ensures RankOrdered(Selected(flags, n), n)
    decreases n
  {
    if n > 0 {
      SelectedInOrder(flags, n - 1);
      SelectedStep(flags, n - 1);
      if flags[n - 1] != 0 {
        TableRank(n - 1);
        OrderedExtend(Rank, Selected(flags, n - 1), n - 1, Handle(SelectionOrder[n - 1]));
      } else {
        OrderedWeaken(Rank, Selected(flags, n - 1), n - 1);
      }
    }
  }

  /** The handle of the k-th table entry has rank k. */
  lemma TableRank(k: nat)
    requires k < |SelectionOrder|
    ensures Rank(Handle(SelectionOrder[k])) == k
  {
    PositionInjective(k);
    var s := SelectionOrder[k];
    assert SourceFromCode(Name(Handle(s))) == Some(s);
  }

  /** Distinct Source-table members get distinct handles. */
  lemma HandleInjective(a: Source, b: Source)
    requires Handle(a) == Handle(b)
    ensures a == b
  {
    assert SourceCode(a) == Name(Handle(b));
  }

  /** A source is selected exactly when its flag is set. */
  lemma {:induction false} SelectedMembers(flags: seq<int>, n: nat, s: Source)
    requires n <= |flags| && n <= |SelectionOrder|
    ensures Handle(s) in Selected(flags, n) <==> Position(s) < n && flags[Position(s)] != 0
    decreases n
  {
    if n > 0 {
      var before := Selected(flags, n - 1);
      var added := if flags[n - 1] != 0 then [Handle(SelectionOrder[n - 1])] else [];
      SelectedStep(flags, n - 1);
      SelectedMembers(flags, n - 1, s);
      AddedMember(flags, n - 1, s);
      var p := Position(s);
      StepMembership(Handle(s), before, added, p, n, p < n && flags[p] != 0);
    }
  }

  /** Membership after one more flag position: `x` is in the earlier entries
      when its position is below n - 1, in the added entry when its position is
      n - 1, and in either case only when it is selected. */
  lemma StepMembership<T>(x: T, before: seq<T>, added: seq<T>, p: nat, n: nat, selected: bool)
    requires n > 0
    requires x in before <==> p < n - 1 && selected
    requires x in added <==> p == n - 1 && selected
    requires selected ==> p < n
    ensures x in before + added <==> selected
  {
  }

  /** The entry one flag position adds holds a source exactly when the flag is
      set and the position is the source's. */
  lemma AddedMember(flags: seq<int>, k: nat, s: Source)
    requires k < |flags| && k < |SelectionOrder|
    ensures Handle(s) in (if flags[k] != 0 then [Handle(SelectionOrder[k])] else []) <==>
      Position(s) == k && flags[k] != 0
  {
    PositionInjective(k);
    if Handle(s) == Handle(SelectionOrder[k]) {
      HandleInjective(SelectionOrder[k], s);
    }
  }

  lemma SelectedStep(flags: seq<int>, n: nat)
    requires n < |flags| && n < |SelectionOrder|
    ensures Selected(flags, n + 1) ==
      Selected(flags, n) + if flags[n] != 0 then [Handle(SelectionOrder[n])] else []
  {
  }

  /** Over all eleven flags: a source is selected exactly when its flag is set. */
  lemma SelectedExactly(flags: seq<int>)
    requires |flags| == |SelectionOrder|
    ensures forall s :: Handle(s) in Selected(flags, 11) <==> flags[Position(s)] != 0
  {
    forall s | true
      ensures Handle(s) in Selected(flags, 11) <==> flags[Position(s)] != 0
    {
      SelectedMembers(flags, 11, s);
    }
  }

  /** The decoding loop of the `sources` property: channels 1-4 from flags 0-3,
      `MATH1`-`MATH3` from flags 4-6, `REF1`-`REF4` from flags 7-10. */
  method DecodeSelection(flags: seq<int>) returns (active: seq<DataSource>)
    requires |flags| == 11
    ensures active == Selected(flags, 11)
    ensures |active| <= 11
  {
    active := [];
    var idx := 0;
    while idx < 4
      invariant 0 <= idx <= 4
      invariant active == Selected(flags, idx)
    {
      SelectionHandle(idx);
      SelectedStep(flags, idx);
      if flags[idx] != 0 {
        active := active + [Channel(idx)];
      }
      idx := idx + 1;
    }
    while idx < 7
      invariant 4 <= idx <= 7
      invariant active == Selected(flags, idx)
    {
      SelectionHandle(idx);
      SelectedStep(flags, idx);
      if flags[idx] != 0 {
        active := active + [Trace("MATH" + IntToString(idx - 3))];
      }
      idx := idx + 1;
    }
    while idx < 11
      invariant 7 <= idx <= 11
      invariant active == Selected(flags, idx)
    {
      SelectionHandle(idx);
      SelectedStep(flags, idx);
      if flags[idx] != 0 {
        active := active + [Trace("REF" + IntToString(idx - 6))];
      }
      idx := idx + 1;
    }
  }

  /** The `sources` property: one `SEL?` query, then the selected handles. */
  method Sources(t: Instrument) returns (r: Run<seq<DataSource>>)
    ensures r.after == t.(log := t.log + [Ask("SEL?")])
    ensures "SEL" !in t.device.settings ==> r.result == Err(TransferError)
    ensures "SEL" in t.device.settings ==>
      && (r.result.Ok? <==> SelectionFlags(t.device.settings["SEL"]).Ok?)
      && (r.result.Ok? ==> r.result.value == Selected(SelectionFlags(t.device.settings["SEL"]).value, 11))
      && (r.result.Err? ==> r.result.error == ProtocolError)
  {
    var reply := Query(t, "SEL?");
    assert "SEL?"[..3] == "SEL";
    if reply.result.Err? {
      return Run(Err(reply.result.error), reply.after);
    }
    match SelectionFlags(reply.result.value) {
      case Err(e) =>
        r := Run(Err(e), reply.after);
      case Ok(flags) =>
        var active := DecodeSelection(flags);
        r := Run(Ok(active), reply.after);
    }
  }
}
