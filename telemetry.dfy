/** One telemetry line as the controller sends it: the decoded JSON object,
    the sample the windowed buffer stores for it, and the sentinel gate with the
    `nan` normalisation that runs before decoding (mailer.py:153-162). */
module Telemetry {
  import opened Wrappers
  import opened Text

  /** A member value of the decoded object. JSON `true`/`false` act as 1/0 on
      every path of the core and are folded into `Num`. */
  datatype Json = Null | Num(value: real)

  /** The dictionary `json.loads` returns for a line that starts with `{`. */
  type Payload = map<string, Json>

  /** An opaque, possibly failing decoder standing for `json.loads`
      (`None` is a `JSONDecodeError`). */
  type Decoder = string -> Option<Payload>

  /** `payload.get(key)`. */
  function Get(p: Payload, key: string): (r: Option<Json>)
    ensures r.Some? <==> key in p
    ensures r.Some? ==> r.value == p[key]
  {
    if key in p then Some(p[key]) else None
  }

  /** What the buffers hold for one accepted reading: the required channels are
      numbers, vibration and motion are integers, and temperature and humidity
      are optional. */
  datatype Sample = Sample(
    gas: real, sound: real, water: real, vibration: int,
    temp: Option<real>, humidity: Option<real>, motion: int)

  /** Python's `int(x)` on a float: truncation toward zero. */
  function Truncate(x: real): (r: int)
    ensures x >= 0.0 ==> 0.0 <= r as real <= x < r as real + 1.0
    ensures x < 0.0 ==> r as real - 1.0 < x <= r as real <= 0.0
  {
    if x >= 0.0 then x.Floor else -((-x).Floor)
  }

  /** `float(data.get(key, 0) or 0)`: a missing key and a `null` both give 0. */
  function Required(p: Payload, key: string): (r: real)
    ensures (key in p && p[key].Num?) ==> r == p[key].value
    ensures !(key in p && p[key].Num?) ==> r == 0.0
  {
    match Get(p, key)
    case Some(Num(x)) => x
    case _ => 0.0
  }

  /** `int(data.get(key, 0) or 0)`. */
  function Level(p: Payload, key: string): int
  {
    Truncate(Required(p, key))
  }

  /** `float(v) if v is not None else None` for `v = data.get(key, None)`: a
      missing key and a `null` are both "no data", never 0. */
  function Optional(p: Payload, key: string): (r: Option<real>)
    ensures r.Some? <==> key in p && p[key].Num?
    ensures r.Some? ==> p[key] == Num(r.value)
  {
    match Get(p, key)
    case Some(Num(x)) => Some(x)
    case _ => None
  }

  /** The values appended to the eight channels for one reading (mailer.py:191-200). */
  function ToSample(p: Payload): Sample
  {
    Sample(Required(p, "gas"), Required(p, "sound"), Required(p, "water"),
           Level(p, "vibration"), Optional(p, "temp"), Optional(p, "humidity"),
           Level(p, "motion"))
  }

  /** Required channels default to 0 and optional ones to "no data"; a present
      optional value is stored as it is. */
  lemma SampleDefaults(p: Payload)
    ensures "gas" !in p ==> ToSample(p).gas == 0.0
    ensures "sound" !in p ==> ToSample(p).sound == 0.0
    ensures "water" !in p ==> ToSample(p).water == 0.0
    ensures "vibration" !in p ==> ToSample(p).vibration == 0
    ensures "motion" !in p ==> ToSample(p).motion == 0
    ensures ToSample(p).temp.None? <==> "temp" !in p || p["temp"] == Null
    ensures ToSample(p).humidity.None? <==> "humidity" !in p || p["humidity"] == Null
    ensures forall x :: ToSample(p).temp == Some(x) <==> "temp" in p && p["temp"] == Num(x)
    ensures forall x :: ToSample(p).humidity == Some(x) <==> "humidity" in p && p["humidity"] == Num(x)
  {
  }

  /** The text handed to the decoder, or `None` when the sentinel gate rejects
      the line: stripped, it must be non-empty and start with `{`; every `nan`
      is then rewritten to `null` (mailer.py:155-158). */
  function DecoderInput(text: string): (r: Option<string>)
    ensures r.None? <==> Strip(text) == [] || Strip(text)[0] != '{'
    ensures r.Some? ==> r.value != [] && r.value[0] == '{' && !HasNan(r.value)
  {
    var t := Strip(text);
    if t == [] || t[0] != '{' then None
    else
      ReplaceNanRemovesAll(t);
      Some(ReplaceNan(t))
  }

  /** A line without `nan` reaches the decoder exactly as stripped. */
  lemma DecoderInputWithoutNan(text: string)
    requires Strip(text) != [] && Strip(text)[0] == '{'
    requires !HasNan(Strip(text))
    ensures DecoderInput(text) == Some(Strip(text))
  {
    ReplaceNanIdentity(Strip(text));
  }

  /** `parse_json_line`: the decoded object, or `None` for a line the gate
      rejects or the decoder cannot read. */
  function ParseJsonLine(text: string, json: Decoder): (r: Option<Payload>)
    ensures DecoderInput(text).None? ==> r.None?
    ensures DecoderInput(text).Some? ==> r == json(DecoderInput(text).value)
  {
    match DecoderInput(text)
    case None => None
    case Some(t) => json(t)
  }

  /** How the reader loop treats one received line after decoding it to text
      (mailer.py:179-186): blank lines are dropped, lines that do not parse to
      a non-empty object are diagnostic text, the rest are readings. */
  datatype LineKind = Blank | Diagnostic(text: string) | Telemetry(payload: Payload)

  function Classify(decoded: string, json: Decoder): (r: LineKind)
    ensures r.Blank? <==> Strip(decoded) == []
    ensures r.Diagnostic? ==> r.text == Strip(decoded)
    ensures r.Telemetry? ==>
              && r.payload != map[]
              && Strip(decoded) != [] && Strip(decoded)[0] == '{'
              && json(DecoderInput(decoded).value) == Some(r.payload)
    ensures (DecoderInput(decoded).Some? && json(DecoderInput(decoded).value).Some?
             && json(DecoderInput(decoded).value).value != map[])
            ==> r == Telemetry(json(DecoderInput(decoded).value).value)
    ensures (DecoderInput(decoded).Some? && (json(DecoderInput(decoded).value).None?
             || json(DecoderInput(decoded).value).value == map[]))
            ==> r == Diagnostic(Strip(decoded))
    ensures Strip(decoded) != [] && Strip(decoded)[0] != '{' ==> r == Diagnostic(Strip(decoded))
  {
    var text := Strip(decoded);
    if text == [] then Blank
    else
      StripIdempotent(decoded);
      match ParseJsonLine(text, json)
      case Some(p) => if p == map[] then Diagnostic(text) else Telemetry(p)
      case None => Diagnostic(text)
  }

  /** A line the gate rejects is never a reading, whatever the decoder does. */
  lemma NonTelemetryRejected(decoded: string, json: Decoder)
    requires Strip(decoded) == [] || Strip(decoded)[0] != '{'
    ensures !Classify(decoded, json).Telemetry?
  {
  }

  /** The `[DATA]` line formats gas, sound and water with `:3.0f` after a plain
      `get` and the other channels after `get(key, 0)`; formatting `None` raises,
      which the reader's catch-all handler absorbs (mailer.py:217-223, 235-236). */
  predicate DataLineFails(p: Payload)
  {
    || !(Get(p, "gas").Some? && Get(p, "gas").value.Num?)
    || !(Get(p, "sound").Some? && Get(p, "sound").value.Num?)
    || !(Get(p, "water").Some? && Get(p, "water").value.Num?)
    || Get(p, "vibration") == Some(Null)
    || Get(p, "temp") == Some(Null)
    || Get(p, "humidity") == Some(Null)
    || Get(p, "motion") == Some(Null)
  }
}
