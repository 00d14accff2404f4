/** `read_waveform` of a TDS 5xx data source: inside the scoped selector, the raw
    samples are transferred in binary or ASCII, then the vertical and horizontal
    scale factors are queried and the samples rescaled. Arithmetic is over exact
    reals.
 */
module TekWaveform {
  import opened Wrappers
  import opened Text
  import opened Decimal
  import opened Transport
  import opened TekEnums
  import opened TekHandles
  import opened TekSource
  import opened TekScope

  /** What `read_waveform` returns: the time axis and the rescaled amplitudes. */
  datatype Waveform = Waveform(times: seq<real>, amplitudes: seq<real>)

  /** The encoding `DAT:ENC` is set to: signed big-endian binary, or ASCII. */
  function Encoding(binary: bool): string {
    if binary then "RIB" else "ASCI"
  }

  /** `float()` of every field, or None if any field is not a number. */
  function ParseReals(fields: seq<string>): (r: Option<seq<real>>)
    ensures r.Some? <==> forall i :: 0 <= i < |fields| ==> ParseReal(fields[i]).Some?
    ensures r.Some? ==> |r.value| == |fields|
    ensures r.Some? ==> forall i :: 0 <= i < |fields| ==> Some(r.value[i]) == ParseReal(fields[i])
    decreases |fields|
  {
    if |fields| == 0 then Some([])
    else
      match (ParseReal(fields[0]), ParseReals(fields[1..]))
      case (Some(x), Some(xs)) =>
        assert forall i :: 1 <= i < |fields| ==> fields[i] == fields[1..][i - 1];
        Some([x] + xs)
      case (None, _) => None
      case (_, None) =>
        assert forall i :: 0 <= i < |fields| - 1 ==> fields[1..][i] == fields[i + 1];
        None
  }

  function Reals(xs: seq<int>): (ys: seq<real>)
    ensures |ys| == |xs| && forall i :: 0 <= i < |xs| ==> ys[i] == xs[i] as real
  {
    seq(|xs|, i requires 0 <= i < |xs| => xs[i] as real)
  }

  /** The ASCII `CURVE?` reply of a non-empty waveform memory parses back to
      the memory's samples. */
  lemma AsciiCurveParses(curve: seq<int>)
    requires |curve| > 0
    ensures ParseReals(Split(Join(Numerals(curve), ','), ',')) == Some(Reals(curve))
  {
    var texts := Numerals(curve);
    SplitJoin(texts, ',');
    var parsed := ParseReals(texts);
    assert parsed.Some?;
    assert parsed.value == Reals(curve);
  }

  /** The raw samples the instrument's state gives: the active source's waveform
      memory, unless the binary width reply is missing or not an integer, the
      active source has no memory, or an ASCII transfer finds the memory empty
      (the empty reply is not a number). */
  function RawSamples(d: Device, binary: bool): (r: Result<seq<real>>)
    ensures r.Ok? ==> ActiveMemory(d).Some? && r.value == Reals(ActiveMemory(d).value)
  {
    if binary then
      if "DATA:WIDTH" !in d.settings then Err(TransferError)
      else if ParseInt(d.settings["DATA:WIDTH"]).None? then Err(ProtocolError)
      else if ActiveMemory(d).None? then Err(TransferError)
      else Ok(Reals(ActiveMemory(d).value))
    else
      match ActiveMemory(d)
      case None => Err(TransferError)
      case Some(samples) => if |samples| == 0 then Err(ProtocolError) else Ok(Reals(samples))
  }

  /** The ASCII `CURVE?` reply parses back to the memory's samples, unless the
      memory is empty. */
  lemma AsciiCurveReply(curve: seq<int>)
    ensures ParseReals(Split(Join(Numerals(curve), ','), ',')) ==
      if |curve| == 0 then None else Some(Reals(curve))
  {
    if |curve| == 0 {
      EmptyCurveReply();
    } else {
      AsciiCurveParses(curve);
    }
  }

  lemma EmptyCurveReply()
    ensures ParseReals(Split(Join(Numerals([]), ','), ',')) == None
  {
    assert Split("", ',') == [""];
    assert ParseReal("").None? by {
      assert ParseMantissa("").None?;
    }
  }

  /** `CURVE?` sent, the block read at width `w`, and the input flushed. */
  function CurveEntries(w: int): seq<Entry> {
    [Write("CURVE?"), ReadBlock(w), Flush]
  }

  /** `sendcmd('CURVE?')`: a command without a value, which stores nothing. */
  function SendCurve(t: Instrument): (t': Instrument)
    ensures t'.device == t.device
    ensures t'.log == t.log + [Write("CURVE?")]
  {
    assert FindChar("CURVE?", ' ').None?;
    Send(t, "CURVE?")
  }

  /** The binary transfer: `DAT:ENC RIB`, the width query, then `CURVE?` and a
      block read at the width the instrument reported, then the flush. The
      samples are what the block read returns. */
  function FetchBinary(t: Instrument): (r: Run<seq<real>>)
    ensures r.after.device == t.device.(settings := t.device.settings["DAT:ENC" := "RIB"])
  {
    var width := GetDataWidth(SendSetting(t, "DAT:ENC", "RIB"));
    match width.result
    case Err(e) => Run(Err(e), width.after)
    case Ok(w) =>
      var block := ReadBlockAt(SendCurve(width.after), w);
      match block.result
      case Err(e) => Run(Err(e), block.after)
      case Ok(samples) => Run(Ok(Reals(samples)), FlushInput(block.after))
  }

  /** Selecting the encoding leaves the width reply as it was. */
  lemma WidthUnderEncoding(t: Instrument, encoding: string)
    ensures GetDataWidth(SendSetting(t, "DAT:ENC", encoding)).result == GetDataWidth(t).result
  {
    var encoded := SendSetting(t, "DAT:ENC", encoding);
    assert ("DATA:WIDTH" in encoded.device.settings <==> "DATA:WIDTH" in t.device.settings);
    assert "DATA:WIDTH" in t.device.settings ==> encoded.device.settings["DATA:WIDTH"] == t.device.settings["DATA:WIDTH"];
  }

  /** The binary transfer yields the active source's memory unless the width
      reply is missing or not an integer or there is no such memory. */
  lemma FetchBinaryMatches(t: Instrument)
    ensures FetchBinary(t).result == RawSamples(t.device, true)
  {
    WidthUnderEncoding(t, "RIB");
    ActiveMemoryUnaffected(t.device, "DAT:ENC", "RIB");
  }

  /** What a binary transfer at width `w` sends and reads. */
  function BinaryEntries(w: int): seq<Entry> {
    [Write(Command("DAT:ENC", "RIB")), Ask("DATA:WIDTH?")] + CurveEntries(w)
  }

  /** After the width reply, the binary transfer reads the curve at that width,
      and flushes only when a block came. */
  lemma FetchBinaryReads(t: Instrument)
    ensures var width := GetDataWidth(SendSetting(t, "DAT:ENC", "RIB"));
      && (width.result.Err? ==> FetchBinary(t).result.Err?)
      && (width.result.Ok? ==>
            var block := ReadBlockAt(SendCurve(width.after), width.result.value);
            && (FetchBinary(t).result.Ok? <==> block.result.Ok?)
            && (block.result.Ok? ==> FetchBinary(t).after == FlushInput(block.after)))
  {
  }

  /** The curve request, block read and flush add exactly their three entries. */
  lemma CurveLog(u: Instrument, w: int)
    ensures FlushInput(ReadBlockAt(SendCurve(u), w).after).log == u.log + CurveEntries(w)
  {
    var sent := SendCurve(u);
    var block := ReadBlockAt(sent, w);
    assert block.after.log == u.log + [Write("CURVE?")] + [ReadBlock(w)];
    assert FlushInput(block.after).log == u.log + [Write("CURVE?")] + [ReadBlock(w)] + [Flush];
    AppendThree(u.log, Write("CURVE?"), ReadBlock(w), Flush);
  }

  lemma AppendThree<T>(xs: seq<T>, a: T, b: T, c: T)
    ensures xs + [a] + [b] + [c] == xs + [a, b, c]
  {
  }

  lemma BinaryLog(log: seq<Entry>, w: int)
    ensures log + [Write(Command("DAT:ENC", "RIB"))] + [Ask("DATA:WIDTH?")] + CurveEntries(w) == log + BinaryEntries(w)
  {
  }

  /** A binary transfer succeeds exactly when the width query does and the
      active source has a memory, and then sends `DAT:ENC RIB`, asks
      `DATA:WIDTH?`, sends `CURVE?`, reads a block at the width the instrument
      reported, and flushes. */
  lemma FetchBinaryTrace(t: Instrument)
    ensures FetchBinary(t).result.Ok? <==> GetDataWidth(t).result.Ok? && ActiveMemory(t.device).Some?
    ensures FetchBinary(t).result.Ok? ==>
      FetchBinary(t).after.log == t.log + BinaryEntries(GetDataWidth(t).result.value)
  {
    var encoded := SendSetting(t, "DAT:ENC", "RIB");
    var width := GetDataWidth(encoded);
    WidthUnderEncoding(t, "RIB");
    ActiveMemoryUnaffected(t.device, "DAT:ENC", "RIB");
    FetchBinaryReads(t);
    if width.result.Ok? {
      var w := width.result.value;
      var block := ReadBlockAt(SendCurve(width.after), w);
      assert SendCurve(width.after).device == encoded.device;
      if block.result.Ok? {
        assert FetchBinary(t).after == FlushInput(block.after);
        CurveLog(width.after, w);
        assert width.after.log == t.log + [Write(Command("DAT:ENC", "RIB"))] + [Ask("DATA:WIDTH?")];
        BinaryLog(t.log, w);
      }
    }
  }

  /** The ASCII transfer: `DAT:ENC ASCI`, then `CURVE?` queried and every
      comma-separated field of the reply read as a number. */
  function FetchAscii(t: Instrument): (r: Run<seq<real>>)
    ensures r.after.device == t.device.(settings := t.device.settings["DAT:ENC" := "ASCI"])
    ensures r.after.log == t.log + [Write(Command("DAT:ENC", "ASCI")), Ask("CURVE?")]
  {
    var reply := Query(SendSetting(t, "DAT:ENC", "ASCI"), "CURVE?");
    match reply.result
    case Err(e) => Run(Err(e), reply.after)
    case Ok(text) =>
      match ParseReals(Split(text, ','))
      case None => Run(Err(ProtocolError), reply.after)
      case Some(raw) => Run(Ok(raw), reply.after)
  }

  /** The ASCII transfer yields the active source's memory unless there is none
      or it is empty. */
  lemma FetchAsciiMatches(t: Instrument)
    ensures FetchAscii(t).result == RawSamples(t.device, false)
  {
    ActiveMemoryUnaffected(t.device, "DAT:ENC", "ASCI");
    if ActiveMemory(t.device).Some? {
      AsciiCurveReply(ActiveMemory(t.device).value);
    }
  }

  /** The raw samples, in binary or ASCII. */
  function FetchRaw(t: Instrument, binary: bool): (r: Run<seq<real>>)
    ensures r.after.device == t.device.(settings := t.device.settings["DAT:ENC" := Encoding(binary)])
  {
    if binary then FetchBinary(t) else FetchAscii(t)
  }

  /** The query for one waveform preamble field of the source named `name`. */
  function Preamble(name: string, field: string): string {
    "WFMP:" + name + ":" + field + "?"
  }

  function VerticalQueries(name: string): seq<string> {
    [Preamble(name, "YOF"), Preamble(name, "YMU"), Preamble(name, "YZE")]
  }

  function HorizontalQueries(name: string): seq<string> {
    [Preamble(name, "XIN"), Preamble(name, "NR_P")]
  }

  /** `(raw - yoff) * ymult + yzero`, sample by sample. */
  function Rescale(raw: seq<real>, yoff: real, ymult: real, yzero: real): (y: seq<real>)
    ensures |y| == |raw|
    ensures forall i :: 0 <= i < |raw| ==> y[i] == (raw[i] - yoff) * ymult + yzero
  {
    seq(|raw|, i requires 0 <= i < |raw| => (raw[i] - yoff) * ymult + yzero)
  }

  /** The length of `np.arange(p)`: the number of k >= 0 with k < p. */
  function ArangeLength(p: real): (n: nat)
    ensures p <= 0.0 ==> n == 0
    ensures p > 0.0 ==> (n - 1) as real < p <= n as real
  {
    if p <= 0.0 then 0
    else if p.Floor as real == p then p.Floor
    else p.Floor + 1
  }

  /** `np.arange(count) * xincr`. */
  function TimeAxis(count: real, xincr: real): (x: seq<real>)
    ensures |x| == ArangeLength(count)
    ensures forall k :: 0 <= k < |x| ==> x[k] == k as real * xincr
  {
    seq(ArangeLength(count), k requires 0 <= k < ArangeLength(count) => k as real * xincr)
  }

  /** The calibration half of the body: the three vertical factors are all
      queried before any is converted, the amplitudes are computed, and only then
      are the horizontal factors queried. */
  function Calibrate(t: Instrument, name: string, samples: seq<real>): (r: Run<Waveform>)
    ensures r.after.device == t.device
  {
    var vertical := QueryAll(t, VerticalQueries(name));
    if vertical.result.Err? then Run(Err(vertical.result.error), vertical.after)
    else
      match ParseReals(vertical.result.value)
      case None => Run(Err(ProtocolError), vertical.after)
      case Some(v) =>
        var amplitudes := Rescale(samples, v[0], v[1], v[2]);
        var horizontal := QueryAll(vertical.after, HorizontalQueries(name));
        if horizontal.result.Err? then Run(Err(horizontal.result.error), horizontal.after)
        else
          match ParseReals(horizontal.result.value)
          case None => Run(Err(ProtocolError), horizontal.after)
          case Some(h) => Run(Ok(Waveform(TimeAxis(h[1], h[0]), amplitudes)), horizontal.after)
  }

  /** The body of `read_waveform` for the source named `name`. */
  function Transfer(t: Instrument, name: string, binary: bool): (r: Run<Waveform>)
    ensures r.after.device == t.device.(settings := t.device.settings["DAT:ENC" := Encoding(binary)])
  {
    var raw := FetchRaw(t, binary);
    if raw.result.Err? then Run(Err(raw.result.error), raw.after)
    else Calibrate(raw.after, name, raw.result.value)
  }

  /** The body `read_waveform` runs inside the selector. */
  function TransferOf(source: DataSource, binary: bool): Instrument -> Run<Waveform> {
    u => Transfer(u, Name(source), binary)
  }

  /** `read_waveform`: the transfer inside the scoped selector of `source`. */
  function ReadWaveform(t: Instrument, source: DataSource, binary: bool): Run<Waveform> {
    WithSource(t, source, TransferOf(source, binary))
  }

  // ---------------------------------------------------------------------------
  // What the instrument's state determines

  predicate AllAnswered(d: Device, qs: seq<string>) {
    forall i :: 0 <= i < |qs| ==> Answer(d, qs[i]).Some?
  }

  function Replies(d: Device, qs: seq<string>): (rs: seq<string>)
    requires AllAnswered(d, qs)
    ensures |rs| == |qs|
  {
    seq(|qs|, i requires 0 <= i < |qs| && Answer(d, qs[i]).Some? => Answer(d, qs[i]).value)
  }

  /** The numbers a run of preamble queries yields, read off the instrument: a
      transfer error if one goes unanswered, a protocol error if a reply is not a
      number. */
  function Factors(d: Device, qs: seq<string>): (r: Result<seq<real>>)
    ensures r.Ok? ==> |r.value| == |qs|
  {
    if !AllAnswered(d, qs) then Err(TransferError)
    else
      match ParseReals(Replies(d, qs))
      case None => Err(ProtocolError)
      case Some(xs) => Ok(xs)
  }

  /** A run of queries succeeds exactly when every query is answered, and then
      yields the replies. */
  lemma QueryAllAnswers(t: Instrument, qs: seq<string>)
    ensures QueryAll(t, qs).result.Ok? <==> AllAnswered(t.device, qs)
    ensures QueryAll(t, qs).result.Ok? ==> QueryAll(t, qs).result.value == Replies(t.device, qs)
  {
    QueryAllSucceeds(t, qs);
    QueryAllReplies(t, qs);
  }

  /** The reference for the calibration: the waveform the instrument's preamble
      replies give for the raw samples. */
  function Expected(d: Device, name: string, samples: seq<real>): (r: Result<Waveform>)
    ensures r.Ok? ==> |r.value.amplitudes| == |samples|
  {
    match Factors(d, VerticalQueries(name))
    case Err(e) => Err(e)
    case Ok(v) =>
      match Factors(d, HorizontalQueries(name))
      case Err(e) => Err(e)
      case Ok(h) => Ok(Waveform(TimeAxis(h[1], h[0]), Rescale(samples, v[0], v[1], v[2])))
  }

  /** The reference for the whole transfer: the instrument's raw samples,
      calibrated by its preamble replies. */
  function TransferResult(d: Device, name: string, binary: bool): Result<Waveform> {
    match RawSamples(d, binary)
    case Err(e) => Err(e)
    case Ok(raw) => Expected(d, name, raw)
  }

  /** The calibration yields what the instrument's preamble replies give. */
  lemma CalibrateMatches(t: Instrument, name: string, samples: seq<real>)
    ensures Calibrate(t, name, samples).result == Expected(t.device, name, samples)
  {
    QueryAllAnswers(t, VerticalQueries(name));
    var vertical := QueryAll(t, VerticalQueries(name));
    QueryAllAnswers(vertical.after, HorizontalQueries(name));
  }

  /** Storing under a header that does not start with 'W' changes no preamble
      reply. */
  lemma PreambleUnaffected(d: Device, header: string, value: string, name: string, field: string)
    requires |header| > 0 && header[0] != 'W'
    ensures Answer(d.(settings := d.settings[header := value]), Preamble(name, field)) == Answer(d, Preamble(name, field))
  {
    var q := Preamble(name, field);
    assert q[0] == 'W';
    assert q[..|q| - 1][0] == 'W';
  }

  lemma FactorsSameAnswers(d1: Device, d2: Device, qs: seq<string>)
    requires forall i :: 0 <= i < |qs| ==> Answer(d1, qs[i]) == Answer(d2, qs[i])
    ensures Factors(d1, qs) == Factors(d2, qs)
  {
    if AllAnswered(d1, qs) {
      assert Replies(d1, qs) == Replies(d2, qs);
    }
  }

  /** Storing under a header that does not start with 'W' leaves the preamble
      factors as they were. */
  lemma FactorsUnaffected(d: Device, header: string, value: string, name: string)
    requires |header| > 0 && header[0] != 'W'
    ensures Factors(d.(settings := d.settings[header := value]), VerticalQueries(name)) == Factors(d, VerticalQueries(name))
    ensures Factors(d.(settings := d.settings[header := value]), HorizontalQueries(name)) == Factors(d, HorizontalQueries(name))
  {
    var d' := d.(settings := d.settings[header := value]);
    PreambleUnaffected(d, header, value, name, "YOF");
    PreambleUnaffected(d, header, value, name, "YMU");
    PreambleUnaffected(d, header, value, name, "YZE");
    FactorsSameAnswers(d', d, VerticalQueries(name));
    PreambleUnaffected(d, header, value, name, "XIN");
    PreambleUnaffected(d, header, value, name, "NR_P");
    FactorsSameAnswers(d', d, HorizontalQueries(name));
  }

  /** The body's result read off the instrument: its raw samples calibrated by
      its preamble replies; neither depends on the encoding the body selects. */
  lemma TransferMatches(t: Instrument, name: string, binary: bool)
    ensures Transfer(t, name, binary).result == TransferResult(t.device, name, binary)
  {
    if binary { FetchBinaryMatches(t); } else { FetchAsciiMatches(t); }
    var raw := FetchRaw(t, binary);
    if raw.result.Ok? {
      CalibrateMatches(raw.after, name, raw.result.value);
      FactorsUnaffected(t.device, "DAT:ENC", Encoding(binary), name);
    }
  }

  /** Binary and ASCII transfers of a non-empty memory give the same waveform. */
  lemma AsciiBinaryAgree(t: Instrument, name: string)
    requires ActiveMemory(t.device).Some? && |ActiveMemory(t.device).value| > 0
    requires "DATA:WIDTH" in t.device.settings && ParseInt(t.device.settings["DATA:WIDTH"]).Some?
    ensures Transfer(t, name, true).result == Transfer(t, name, false).result
  {
    TransferMatches(t, name, true);
    TransferMatches(t, name, false);
  }

  /** `w` is the waveform the factors `v` (offset, multiplier, zero) and `h`
      (increment, point count) make of `samples`: one amplitude per sample,
      rescaled, and as many time points as the point count rounds up to, spaced
      by the increment. */
  predicate Calibrated(w: Waveform, samples: seq<real>, v: seq<real>, h: seq<real>) {
    && |v| == 3 && |h| == 2
    && |w.amplitudes| == |samples|
    && (forall i :: 0 <= i < |samples| ==> w.amplitudes[i] == (samples[i] - v[0]) * v[1] + v[2])
    && |w.times| == ArangeLength(h[1])
    && (forall k :: 0 <= k < |w.times| ==> w.times[k] == k as real * h[0])
  }

  lemma ExpectedShape(d: Device, name: string, samples: seq<real>)
    ensures Expected(d, name, samples).Ok? ==>
      && Factors(d, VerticalQueries(name)).Ok?
      && Factors(d, HorizontalQueries(name)).Ok?
      && Calibrated(Expected(d, name, samples).value, samples,
                    Factors(d, VerticalQueries(name)).value, Factors(d, HorizontalQueries(name)).value)
  {
  }

  /** A successful transfer returns the memory of whichever source is active,
      calibrated by the preamble replies for `name`: the amplitudes have that
      memory's length, the time axis the reported point count's. */
  lemma TransferShape(t: Instrument, name: string, binary: bool)
    ensures Transfer(t, name, binary).result.Ok? ==>
      && ActiveMemory(t.device).Some?
      && Factors(t.device, VerticalQueries(name)).Ok?
      && Factors(t.device, HorizontalQueries(name)).Ok?
      && Calibrated(Transfer(t, name, binary).result.value, Reals(ActiveMemory(t.device).value),
                    Factors(t.device, VerticalQueries(name)).value, Factors(t.device, HorizontalQueries(name)).value)
  {
    TransferMatches(t, name, binary);
    var r := Transfer(t, name, binary).result;
    if r.Ok? {
      var raw := RawSamples(t.device, binary);
      assert raw.Ok? && r == Expected(t.device, name, raw.value);
      ExpectedShape(t.device, name, raw.value);
    }
  }

  /** The time axis follows the reported point count and the amplitudes follow
      the memory, and nothing reconciles the two: with offset 0, multiplier 2,
      zero 1, increment 1 and a point count of 5, three samples come back with
      five time points. */
  lemma LengthsNotReconciled(w: Waveform)
    requires Calibrated(w, [1.0, 2.0, 3.0], [0.0, 2.0, 1.0], [1.0, 5.0])
    ensures w == Waveform([0.0, 1.0, 2.0, 3.0, 4.0], [3.0, 5.0, 7.0])
  {
    assert ArangeLength(5.0) == 5;
    assert w.times == [0.0, 1.0, 2.0, 3.0, 4.0];
    assert w.amplitudes == [3.0, 5.0, 7.0];
  }

  // ---------------------------------------------------------------------------
  // Command order

  /** A successful calibration asks the five preamble queries, in order, and
      nothing else. */
  lemma CalibrateTrace(t: Instrument, name: string, samples: seq<real>)
    ensures Calibrate(t, name, samples).result.Ok? ==>
      Calibrate(t, name, samples).after.log == t.log + Asks(VerticalQueries(name)) + Asks(HorizontalQueries(name))
  {
    QueryAllLog(t, VerticalQueries(name));
    var vertical := QueryAll(t, VerticalQueries(name));
    QueryAllLog(vertical.after, HorizontalQueries(name));
  }

  /** A vertical factor that is not a number stops the transfer with a protocol
      error before any horizontal query is sent. */
  lemma CalibrateStopsOnBadFactor(t: Instrument, name: string, samples: seq<real>)
    requires AllAnswered(t.device, VerticalQueries(name))
    requires ParseReals(Replies(t.device, VerticalQueries(name))).None?
    ensures Calibrate(t, name, samples) == Run(Err(ProtocolError), t.(log := t.log + Asks(VerticalQueries(name))))
  {
    QueryAllAnswers(t, VerticalQueries(name));
    QueryAllLog(t, VerticalQueries(name));
  }

  /** A successful binary transfer sends `DAT:ENC RIB`, asks `DATA:WIDTH?`,
      sends `CURVE?`, reads a block at the width the instrument reported,
      flushes, then asks the five preamble queries. */
  lemma BinaryTrace(t: Instrument, name: string)
    ensures Transfer(t, name, true).result.Ok? ==>
      && "DATA:WIDTH" in t.device.settings
      && ParseInt(t.device.settings["DATA:WIDTH"]).Some?
      && Transfer(t, name, true).after.log ==
           t.log + BinaryEntries(ParseInt(t.device.settings["DATA:WIDTH"]).value)
                 + Asks(VerticalQueries(name)) + Asks(HorizontalQueries(name))
  {
    var raw := FetchBinary(t);
    FetchBinaryTrace(t);
    if raw.result.Ok? {
      assert Some(GetDataWidth(t).result.value) == ParseInt(t.device.settings["DATA:WIDTH"]);
      assert Transfer(t, name, true) == Calibrate(raw.after, name, raw.result.value);
      CalibrateTrace(raw.after, name, raw.result.value);
    }
  }

  /** A successful ASCII transfer sends `DAT:ENC ASCI`, asks `CURVE?`, then asks
      the five preamble queries. */
  lemma AsciiTrace(t: Instrument, name: string)
    ensures Transfer(t, name, false).result.Ok? ==>
      Transfer(t, name, false).after.log ==
        t.log + [Write(Command("DAT:ENC", "ASCI")), Ask("CURVE?")]
              + Asks(VerticalQueries(name)) + Asks(HorizontalQueries(name))
  {
    var raw := FetchAscii(t);
    if raw.result.Ok? {
      assert Transfer(t, name, false) == Calibrate(raw.after, name, raw.result.value);
      CalibrateTrace(raw.after, name, raw.result.value);
    }
  }

  // ---------------------------------------------------------------------------
  // The whole of read_waveform

  /** The body run by `read_waveform` is the transfer of the source's name. */
  lemma TransferOfApplies(source: DataSource, binary: bool, u: Instrument)
    ensures TransferOf(source, binary)(u) == Transfer(u, Name(source), binary)
  {
  }

  /** The instrument reports the active source `s` of the Source table. */
  predicate ReportsSource(t: Instrument, s: Source) {
    "DAT:SOU" in t.device.settings && SourceFromCode(t.device.settings["DAT:SOU"]) == Some(s)
  }

  /** A Source-table code reported as the active source reads back as that
      source's handle, whose name is in the table. */
  lemma ReportedActive(t: Instrument, s: Source)
    requires ReportsSource(t, s)
    ensures ActiveSource(t.device) == Ok(Handle(s))
    ensures SourceFromCode(Name(Handle(s))) == Some(s)
  {
    SourceReplyRoundTrip(s);
  }

  /** When the target is already active, `read_waveform` leaves the active
      source as it found it. */
  lemma SameSourceKept(t: Instrument, s: Source, source: DataSource, binary: bool)
    requires ReportsSource(t, s)
    requires SameSource(Handle(s), source)
    ensures "DAT:SOU" in ReadWaveform(t, source, binary).after.device.settings
    ensures ReadWaveform(t, source, binary).after.device.settings["DAT:SOU"] == t.device.settings["DAT:SOU"]
  {
    SourceReplyRoundTrip(s);
    ScopeKeepsSource(t, source, TransferOf(source, binary));
    TransferOfApplies(source, binary, Asked(t));
    var after := Transfer(Asked(t), Name(source), binary).after;
    assert after.device.settings == t.device.settings["DAT:ENC" := Encoding(binary)];
  }

  /** When the selector switches, leaving sends the previous source back. */
  lemma SwitchedSourceRestored(t: Instrument, s: Source, source: DataSource, binary: bool)
    requires ReportsSource(t, s)
    requires !SameSource(Handle(s), source)
    requires SourceFromCode(Name(source)).Some?
    ensures "DAT:SOU" in ReadWaveform(t, source, binary).after.device.settings
    ensures ReadWaveform(t, source, binary).after.device.settings["DAT:SOU"] == t.device.settings["DAT:SOU"]
  {
    SourceReplyRoundTrip(s);
    assert SourceFromCode(Name(Handle(s))).Some?;
    ScopeSwitchesAndRestores(t, source, TransferOf(source, binary));
  }

  /** The transfer leaves the active source alone, so a `read_waveform` whose
      source and previous source are in the Source table ends with the previous
      source active again, whether the transfer succeeded or not. */
  lemma ReadWaveformRestoresSource(t: Instrument, source: DataSource, binary: bool)
    requires "DAT:SOU" in t.device.settings
    requires SourceFromCode(t.device.settings["DAT:SOU"]).Some?
    requires SourceFromCode(Name(source)).Some?
    ensures "DAT:SOU" in ReadWaveform(t, source, binary).after.device.settings
    ensures ReadWaveform(t, source, binary).after.device.settings["DAT:SOU"] == t.device.settings["DAT:SOU"]
  {
    var s := SourceFromCode(t.device.settings["DAT:SOU"]).value;
    if SameSource(Handle(s), source) {
      SameSourceKept(t, s, source, binary);
    } else {
      SwitchedSourceRestored(t, s, source, binary);
    }
  }

  /** The instrument with the source named `name` selected for transfer. */
  function Selecting(d: Device, name: string): (d': Device)
    ensures ActiveMemory(d') == if name in d.curves then Some(d.curves[name]) else None
  {
    ActiveMemorySelected(d, name);
    d.(settings := d.settings["DAT:SOU" := name])
  }

  /** With `name` selected, the transfer's reference result is that source's own
      memory calibrated by its own preamble replies, and a source without a
      memory gives no waveform. */
  lemma SelectedTransferResult(d: Device, name: string, binary: bool)
    ensures name !in d.curves ==> TransferResult(Selecting(d, name), name, binary).Err?
    ensures TransferResult(Selecting(d, name), name, binary).Ok? ==>
      && name in d.curves
      && Factors(d, VerticalQueries(name)).Ok?
      && Factors(d, HorizontalQueries(name)).Ok?
      && Calibrated(TransferResult(Selecting(d, name), name, binary).value, Reals(d.curves[name]),
                    Factors(d, VerticalQueries(name)).value, Factors(d, HorizontalQueries(name)).value)
  {
    var d' := Selecting(d, name);
    var raw := RawSamples(d', binary);
    FactorsUnaffected(d, "DAT:SOU", name, name);
    if raw.Ok? {
      ExpectedShape(d', name, raw.value);
    }
  }

  /** When the target is already active, the body reads the instrument as it
      is, which already has the target selected. */
  lemma SameSourceResult(t: Instrument, s: Source, source: DataSource, binary: bool)
    requires ReportsSource(t, s)
    requires SameSource(Handle(s), source)
    ensures ReadWaveform(t, source, binary).result == TransferResult(Selecting(t.device, Name(source)), Name(source), binary)
  {
    SourceReplyRoundTrip(s);
    ScopeKeepsSource(t, source, TransferOf(source, binary));
    TransferOfApplies(source, binary, Asked(t));
    TransferMatches(Asked(t), Name(source), binary);
    assert t.device.settings["DAT:SOU"] == SourceCode(s) == Name(source);
    assert Selecting(t.device, Name(source)) == t.device;
  }

  /** When the selector switches, the body runs against the instrument with the
      target selected. */
  lemma SwitchedBody(t: Instrument, s: Source, source: DataSource, binary: bool)
    requires ReportsSource(t, s)
    requires !SameSource(Handle(s), source)
    requires SourceFromCode(Name(source)).Some?
    ensures ReadWaveform(t, source, binary).result ==
      Transfer(SendSetting(Asked(t), "DAT:SOU", Name(source)), Name(source), binary).result
  {
    ReportedActive(t, s);
    ScopeSwitchesAndRestores(t, source, TransferOf(source, binary));
    TransferOfApplies(source, binary, SendSetting(Asked(t), "DAT:SOU", Name(source)));
  }

  lemma SwitchedSourceResult(t: Instrument, s: Source, source: DataSource, binary: bool)
    requires ReportsSource(t, s)
    requires !SameSource(Handle(s), source)
    requires SourceFromCode(Name(source)).Some?
    ensures ReadWaveform(t, source, binary).result == TransferResult(Selecting(t.device, Name(source)), Name(source), binary)
  {
    var entered := SendSetting(Asked(t), "DAT:SOU", Name(source));
    assert entered.device == Selecting(t.device, Name(source));
    SwitchedBody(t, s, source, binary);
    TransferMatches(entered, Name(source), binary);
  }

  /** What `read_waveform` returns, read off the instrument it starts from: the
      transfer with the named source selected, whatever source was active
      before. So it is the named source's own memory, calibrated by that
      source's preamble replies, and a source without a memory fails. */
  lemma ReadWaveformResult(t: Instrument, source: DataSource, binary: bool)
    requires "DAT:SOU" in t.device.settings
    requires SourceFromCode(t.device.settings["DAT:SOU"]).Some?
    requires SourceFromCode(Name(source)).Some?
    ensures ReadWaveform(t, source, binary).result == TransferResult(Selecting(t.device, Name(source)), Name(source), binary)
    ensures Name(source) !in t.device.curves ==> ReadWaveform(t, source, binary).result.Err?
    ensures ReadWaveform(t, source, binary).result.Ok? ==>
      && Name(source) in t.device.curves
      && Factors(t.device, VerticalQueries(Name(source))).Ok?
      && Factors(t.device, HorizontalQueries(Name(source))).Ok?
      && Calibrated(ReadWaveform(t, source, binary).result.value, Reals(t.device.curves[Name(source)]),
                    Factors(t.device, VerticalQueries(Name(source))).value,
                    Factors(t.device, HorizontalQueries(Name(source))).value)
  {
    var s := SourceFromCode(t.device.settings["DAT:SOU"]).value;
    if SameSource(Handle(s), source) {
      SameSourceResult(t, s, source, binary);
    } else {
      SwitchedSourceResult(t, s, source, binary);
    }
    SelectedTransferResult(t.device, Name(source), binary);
  }

  /** The selection is what makes the answer the named source's: when the
      active source's memory and the target's differ in length, the body run
      without selecting gives a different waveform from `read_waveform`. */
  lemma SelectionMatters(t: Instrument, source: DataSource, binary: bool)
    requires "DAT:SOU" in t.device.settings
    requires SourceFromCode(t.device.settings["DAT:SOU"]).Some?
    requires SourceFromCode(Name(source)).Some?
    requires ActiveMemory(t.device).Some? && Name(source) in t.device.curves
    requires |ActiveMemory(t.device).value| != |t.device.curves[Name(source)]|
    requires ReadWaveform(t, source, binary).result.Ok?
    ensures Transfer(t, Name(source), binary).result != ReadWaveform(t, source, binary).result
  {
    ReadWaveformResult(t, source, binary);
    TransferShape(t, Name(source), binary);
  }
}
