/** The command channel both drivers talk through, as a pure model.

    `sendcmd`, `query`, `binblockread` and `flush_input` become log entries on an
    `Instrument` value. The instrument at the other end is modelled as a SCPI-style
    register file: a command `HEADER VALUE` stores VALUE under HEADER, and a query
    `HEADER?` replies with what is stored there. It keeps one waveform memory per
    data source; the memory of the source `DAT:SOU` names answers `CURVE?` in ASCII
    (comma-separated integers) and the binary block read (one integer per sample).
    A query with nothing stored under its header gets no reply, and neither does
    a curve request when the active source has no memory.
 */
module Transport {
  import opened Wrappers
  import opened Text
  import opened Decimal

  /** One exchange on the line, in the order the driver makes it. */
  datatype Entry =
    | Write(command: string)
    | Ask(query: string)
    | ReadBlock(width: int)
    | Flush

  /** What the instrument holds: its register file and a waveform memory for
      each data source, by the source's name. */
  datatype Device = Device(settings: map<string, string>, curves: map<string, seq<int>>)

  /** The waveform memory of the source the `DAT:SOU` register selects, which is
      what a curve transfer returns; None when no source is selected or the
      selected one has no memory. */
  function ActiveMemory(d: Device): (r: Option<seq<int>>)
    ensures r.Some? <==> "DAT:SOU" in d.settings && d.settings["DAT:SOU"] in d.curves
    ensures r.Some? ==> r.value == d.curves[d.settings["DAT:SOU"]]
  {
    if "DAT:SOU" in d.settings && d.settings["DAT:SOU"] in d.curves then Some(d.curves[d.settings["DAT:SOU"]])
    else None
  }

  /** Storing under any register but `DAT:SOU` leaves the active memory alone. */
  lemma ActiveMemoryUnaffected(d: Device, header: string, value: string)
    requires header != "DAT:SOU"
    ensures ActiveMemory(d.(settings := d.settings[header := value])) == ActiveMemory(d)
  {
  }

  /** Storing a name under `DAT:SOU` makes that source's memory the active one. */
  lemma ActiveMemorySelected(d: Device, name: string)
    ensures ActiveMemory(d.(settings := d.settings["DAT:SOU" := name])) ==
      if name in d.curves then Some(d.curves[name]) else None
  {
  }

  /** The instrument as the driver leaves it, with everything sent to it so far. */
  datatype Instrument = Instrument(device: Device, log: seq<Entry>)

  /** What an operation returns: its result, and the instrument after it,
      whose log also holds what was sent before a failure. */
  datatype Run<+T> = Run(result: Result<T>, after: Instrument)

  /** The effect of a command on the register file: `H V` stores V under H
      (split at the first space); a command without a space stores nothing. */
  function Apply(settings: map<string, string>, command: string): map<string, string> {
    match FindChar(command, ' ')
    case None => settings
    case Some(i) => settings[command[..i] := command[i + 1..]]
  }

  lemma ApplyHeader(settings: map<string, string>, header: string, value: string)
    requires ' ' !in header
    ensures Apply(settings, header + " " + value) == settings[header := value]
  {
    var command := header + " " + value;
    assert command[|header|] == ' ';
    var i := FindChar(command, ' ').value;
    assert command[..|header|] == header;
    assert command[i + 1..] == value;
  }

  /** The ASCII rendering of a waveform memory: one integer numeral per sample. */
  function Numerals(samples: seq<int>): (texts: seq<string>)
    ensures |texts| == |samples|
    ensures forall i :: 0 <= i < |texts| ==> ParseReal(texts[i]) == Some(samples[i] as real)
    ensures forall i :: 0 <= i < |texts| ==> ',' !in texts[i]
  {
    var texts := seq(|samples|, i requires 0 <= i < |samples| => IntToString(samples[i]));
    assert forall i :: 0 <= i < |texts| ==> ',' !in texts[i] by {
      forall i | 0 <= i < |texts| ensures ',' !in texts[i] {
        var s := IntToString(samples[i]);
        assert forall k :: 0 <= k < |s| ==> s[k] != ',';
      }
    }
    texts
  }

  /** The reply the instrument gives to query `q`, if any. */
  function Answer(d: Device, q: string): Option<string> {
    if q == "CURVE?" then
      match ActiveMemory(d)
      case None => None
      case Some(samples) => Some(Join(Numerals(samples), ','))
    else if |q| > 0 && q[|q| - 1] == '?' && q[..|q| - 1] in d.settings then Some(d.settings[q[..|q| - 1]])
    else None
  }

  /** `sendcmd(command)`. */
  function Send(t: Instrument, command: string): (t': Instrument)
    ensures t'.log == t.log + [Write(command)]
    ensures t'.device.curves == t.device.curves
    ensures t'.device.settings == Apply(t.device.settings, command)
  {
    Instrument(t.device.(settings := Apply(t.device.settings, command)), t.log + [Write(command)])
  }

  /** The command that stores `value` under `header`. */
  function Command(header: string, value: string): string {
    header + " " + value
  }

  /** `sendcmd` of a setting command: the log gains exactly that command and the
      register file stores the value under the header, nothing else changing. */
  function SendSetting(t: Instrument, header: string, value: string): (t': Instrument)
    ensures t'.log == t.log + [Write(Command(header, value))]
    ensures t'.device == t.device.(settings := t.device.settings[header := value])
  {
    Instrument(t.device.(settings := t.device.settings[header := value]), t.log + [Write(Command(header, value))])
  }

  /** A setting command is an ordinary command: when the header has no space,
      sending it has the effect the instrument gives any command. */
  lemma SendSettingIsSend(t: Instrument, header: string, value: string)
    requires ' ' !in header
    ensures SendSetting(t, header, value) == Send(t, Command(header, value))
  {
    ApplyHeader(t.device.settings, header, value);
  }

  /** `query(q)`: the query goes out whether or not a reply comes back. */
  function Query(t: Instrument, q: string): (r: Run<string>)
    ensures r.after == t.(log := t.log + [Ask(q)])
    ensures r.result.Ok? <==> Answer(t.device, q).Some?
    ensures r.result.Ok? ==> r.result.value == Answer(t.device, q).value
    ensures r.result.Err? ==> r.result.error == TransferError
  {
    var t' := t.(log := t.log + [Ask(q)]);
    match Answer(t.device, q)
    case None => Run(Err(TransferError), t')
    case Some(reply) => Run(Ok(reply), t')
  }

  function Asks(qs: seq<string>): (entries: seq<Entry>)
    ensures |entries| == |qs|
    ensures forall i :: 0 <= i < |qs| ==> entries[i] == Ask(qs[i])
  {
    seq(|qs|, i requires 0 <= i < |qs| => Ask(qs[i]))
  }

  /** The position of the first false entry; |bs| if there is none. */
  function FirstFalse(bs: seq<bool>): (j: nat)
    ensures j <= |bs|
    ensures forall i :: 0 <= i < j ==> bs[i]
    ensures j < |bs| ==> !bs[j]
    decreases |bs|
  {
    if |bs| == 0 || !bs[0] then 0
    else
      var rest := FirstFalse(bs[1..]);
      assert forall i :: 0 < i <= rest ==> bs[i] == bs[1..][i - 1];
      1 + rest
  }

  /** The position of the first query in `qs` that gets no reply; |qs| if all do. */
  function Unanswered(d: Device, qs: seq<string>): (j: nat)
    ensures j <= |qs|
    ensures forall i :: 0 <= i < j ==> Answer(d, qs[i]).Some?
    ensures j < |qs| ==> Answer(d, qs[j]).None?
  {
    var answered := seq(|qs|, i requires 0 <= i < |qs| => Answer(d, qs[i]).Some?);
    var j := FirstFalse(answered);
    assert forall i :: 0 <= i < j ==> answered[i] && Answer(d, qs[i]).Some?;
    j
  }

  /** Queries `qs` in order, stopping after the first one that gets no reply. */
  function QueryAll(t: Instrument, qs: seq<string>): (r: Run<seq<string>>)
    ensures r.after.device == t.device
    ensures r.result.Ok? ==> |r.result.value| == |qs|
    ensures r.result.Err? ==> r.result.error == TransferError
    decreases |qs|
  {
    if |qs| == 0 then Run(Ok([]), t)
    else
      var first := Query(t, qs[0]);
      if first.result.Err? then Run(Err(first.result.error), first.after)
      else
        var rest := QueryAll(first.after, qs[1..]);
        if rest.result.Err? then Run(Err(rest.result.error), rest.after)
        else Run(Ok([first.result.value] + rest.result.value), rest.after)
  }

  /** A run of queries succeeds exactly when every query is answered. */
  lemma {:induction false} QueryAllSucceeds(t: Instrument, qs: seq<string>)
    ensures QueryAll(t, qs).result.Ok? <==> Unanswered(t.device, qs) == |qs|
    decreases |qs|
  {
    if |qs| > 0 {
      var first := Query(t, qs[0]);
      if first.result.Ok? {
        QueryAllSucceeds(first.after, qs[1..]);
      }
    }
  }

  /** A successful run of queries asks each query once, in order. */
  lemma {:induction false} QueryAllLog(t: Instrument, qs: seq<string>)
    ensures QueryAll(t, qs).result.Ok? ==> QueryAll(t, qs).after.log == t.log + Asks(qs)
    decreases |qs|
  {
    if |qs| > 0 {
      var first := Query(t, qs[0]);
      if first.result.Ok? {
        var rest := QueryAll(first.after, qs[1..]);
        QueryAllLog(first.after, qs[1..]);
        if rest.result.Ok? {
          assert QueryAll(t, qs).after == rest.after;
          AsksCons(qs[0], qs[1..]);
          assert [qs[0]] + qs[1..] == qs;
          assert rest.after.log == first.after.log + Asks(qs[1..]);
        }
      }
    }
  }

  /** A failed run of queries stops right after the first unanswered query. */
  lemma {:induction false} QueryAllStops(t: Instrument, qs: seq<string>)
    ensures QueryAll(t, qs).result.Err? ==>
      && Unanswered(t.device, qs) < |qs|
      && QueryAll(t, qs).after.log == t.log + Asks(qs[..Unanswered(t.device, qs) + 1])
    decreases |qs|
  {
    if |qs| > 0 {
      var first := Query(t, qs[0]);
      if first.result.Err? {
        assert qs[..1] == [qs[0]] + [];
        AsksCons(qs[0], []);
      } else {
        var rest := QueryAll(first.after, qs[1..]);
        QueryAllStops(first.after, qs[1..]);
        if rest.result.Err? {
          var j := Unanswered(t.device, qs[1..]);
          assert Unanswered(t.device, qs) == j + 1;
          assert [qs[0]] + qs[1..] == qs;
          AsksStep(t.log, qs[0], qs[1..], j);
        }
      }
    }
  }

  /** One more answered query in front of a stopped run. */
  lemma AsksStep(log: seq<Entry>, q: string, qs: seq<string>, j: nat)
    requires j < |qs|
    ensures log + [Ask(q)] + Asks(qs[..j + 1]) == log + Asks(([q] + qs)[..j + 2])
  {
    assert ([q] + qs)[..j + 2] == [q] + qs[..j + 1];
    AsksCons(q, qs[..j + 1]);
  }

  /** A successful run of queries returns the replies in query order. */
  lemma {:induction false} QueryAllReplies(t: Instrument, qs: seq<string>)
    ensures QueryAll(t, qs).result.Ok? ==>
      forall i :: 0 <= i < |qs| ==> Some(QueryAll(t, qs).result.value[i]) == Answer(t.device, qs[i])
    decreases |qs|
  {
    if |qs| > 0 {
      var first := Query(t, qs[0]);
      if first.result.Ok? {
        var rest := QueryAll(first.after, qs[1..]);
        QueryAllReplies(first.after, qs[1..]);
        if rest.result.Ok? {
          var values := [first.result.value] + rest.result.value;
          assert QueryAll(t, qs).result.value == values;
          assert forall i :: 1 <= i < |qs| ==> values[i] == rest.result.value[i - 1] && qs[i] == qs[1..][i - 1];
        }
      }
    }
  }

  /** Appending to a log piece by piece appends the pieces' concatenation. */
  lemma AppendPieces(log: seq<Entry>, a: seq<Entry>, b: seq<Entry>, c: seq<Entry>)
    ensures log + a + b + c == log + (a + b + c)
  {
  }

  lemma AsksCons(q: string, qs: seq<string>)
    ensures Asks([q] + qs) == [Ask(q)] + Asks(qs)
  {
  }

  /** `binblockread(width)` after `CURVE?`: the samples of the active source's
      waveform memory; no block comes when there is none. */
  function ReadBlockAt(t: Instrument, width: int): (r: Run<seq<int>>)
    ensures r.result.Ok? <==> ActiveMemory(t.device).Some?
    ensures r.result.Ok? ==> r.result.value == ActiveMemory(t.device).value
    ensures r.result.Err? ==> r.result.error == TransferError
    ensures r.after == t.(log := t.log + [ReadBlock(width)])
  {
    var t' := t.(log := t.log + [ReadBlock(width)]);
    match ActiveMemory(t.device)
    case None => Run(Err(TransferError), t')
    case Some(samples) => Run(Ok(samples), t')
  }

  /** `flush_input()`: discards whatever the instrument sent past the block. */
  function FlushInput(t: Instrument): (t': Instrument)
    ensures t' == t.(log := t.log + [Flush])
  {
    t.(log := t.log + [Flush])
  }
}
