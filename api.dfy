/**
 * The wire records (api.go): every request and response travels in the
 * envelope `{"msg":{"cmd":…,"data":…}}`, where `data` is the JSON encoding
 * of one of the payload records. Encoding covers exactly the request
 * records the library sends; each encoder has a reader for its own output.
 */
module Api {
  import opened Wrappers
  import opened Errors
  import opened Text
  import opened Types
  import Json

  /** The request payloads: scanRequest, onOffRequest, brightnessRequest, colorRequest, devStatusRequest. */
  datatype Request =
    | ScanRequest(accountTopic: string)
    | OnOffRequest(value: State)
    | BrightnessRequest(value: Brightness)
    | ColorRequest(color: Color, kelvin: ColorKelvin)
    | DevStatusRequest

  /** scanResponse: a device's network and firmware identity. */
  datatype ScanResponse = ScanResponse(
    ip: string,
    deviceID: string,
    sku: string,
    bleVersionHard: Version,
    bleVersionSoft: Version,
    wifiVersionHard: Version,
    wifiVersionSoft: Version)

  /** devStatusResponse: a device's power, brightness and colour. */
  datatype DevStatusResponse = DevStatusResponse(
    onOff: State,
    brightness: Brightness,
    color: Color,
    colorKelvin: ColorKelvin)

  /** The two responses the listener hands to a device. */
  datatype Response = Scan(scan: ScanResponse) | Status(status: DevStatusResponse)

  /** `wrapper`: the command name and the payload, already encoded (json.RawMessage). */
  datatype Msg = Msg(cmd: string, data: string)
  datatype Wrapper = Wrapper(msg: Msg)

  /** Which record a payload text is read as. */
  datatype RequestKind = ScanKind | OnOffKind | BrightnessKind | ColorKind | DevStatusKind

  function KindOf(p: Request): RequestKind
  {
    match p
    case ScanRequest(_) => ScanKind
    case OnOffRequest(_) => OnOffKind
    case BrightnessRequest(_) => BrightnessKind
    case ColorRequest(_, _) => ColorKind
    case DevStatusRequest => DevStatusKind
  }

  // ---------------------------------------------------------------------
  // Encoding, as json.Marshal writes these records

  /** A Color: {"r":…,"g":…,"b":…}. */
  function EncodeColor(c: Color): string
  {
    "{\"r\":" + NatToString(c.r) + ",\"g\":" + NatToString(c.g) + ",\"b\":" + NatToString(c.b) + "}"
  }

  /** A request record, fields in declaration order under their JSON tags. */
  function EncodeRequest(p: Request): string
  {
    match p
    case ScanRequest(topic) => "{\"account_topic\":" + Json.Quote(topic) + "}"
    case OnOffRequest(v) => "{\"value\":" + NatToString(v) + "}"
    case BrightnessRequest(v) => "{\"value\":" + NatToString(v) + "}"
    case ColorRequest(c, k) => "{\"color\":" + EncodeColor(c) + ",\"colorTemInKelvin\":" + NatToString(k) + "}"
    case DevStatusRequest => "{}"
  }

  /**
   * `newAPIRequest`: a wrapper carrying `cmd` and the encoded payload. The
   * encoder's error path is never taken for these records, so the result
   * is always a wrapper, and its data reads back as the payload.
   */
  function NewAPIRequest(cmd: string, data: Request): (r: Result<Wrapper, Error>)
    ensures r.Success? && r.value.msg.cmd == cmd
    ensures DecodeRequest(KindOf(data), r.value.msg.data) == Some(data)
  {
    DecodeEncodeRequest(data);
    Success(Wrapper(Msg(cmd, EncodeRequest(data))))
  }

  /** json.Marshal of a wrapper: the raw data is embedded as it is. */
  function EncodeWrapper(w: Wrapper): string
  {
    "{\"msg\":{\"cmd\":" + Json.Quote(w.msg.cmd) + ",\"data\":" + w.msg.data + "}}"
  }

  // ---------------------------------------------------------------------
  // Readers for the encoder's output

  function ReadLiteral(lit: string, s: string): (r: Option<string>)
    ensures r.Some? ==> s == lit + r.value
  {
    if |lit| <= |s| && s[..|lit|] == lit then
      assert s == s[..|lit|] + s[|lit|..];
      Some(s[|lit|..])
    else None
  }

  function ReadUint(s: string): Option<(Uint, string)>
  {
    match Json.ReadNat(s)
    case None => None
    case Some((n, rest)) => if n <= MAX_UINT then Some((n, rest)) else None
  }

  function ReadColor(s: string): Option<(Color, string)>
  {
    var s1 :- ReadLiteral("{\"r\":", s);
    var r :- ReadUint(s1);
    var s2 :- ReadLiteral(",\"g\":", r.1);
    var g :- ReadUint(s2);
    var s3 :- ReadLiteral(",\"b\":", g.1);
    var b :- ReadUint(s3);
    var rest :- ReadLiteral("}", b.1);
    Some((Color(r.0, g.0, b.0), rest))
  }

  function ReadValue(s: string): Option<Uint>
  {
    var s1 :- ReadLiteral("{\"value\":", s);
    var v :- ReadUint(s1);
    if v.1 == "}" then Some(v.0) else None
  }

  /** The temperature field that closes a colour payload. */
  function ReadKelvin(s: string): Option<Uint>
  {
    var s1 :- ReadLiteral(",\"colorTemInKelvin\":", s);
    var k :- ReadUint(s1);
    if k.1 == "}" then Some(k.0) else None
  }

  /** Reads a payload text, written as EncodeRequest writes it, as a record of the given kind. */
  function DecodeRequest(kind: RequestKind, s: string): Option<Request>
  {
    match kind
    case ScanKind =>
      var s1 :- ReadLiteral("{\"account_topic\":", s);
      var t :- Json.ReadString(s1);
      if t.1 == "}" then Some(ScanRequest(t.0)) else None
    case OnOffKind =>
      var v :- ReadValue(s);
      Some(OnOffRequest(v))
    case BrightnessKind =>
      var v :- ReadValue(s);
      Some(BrightnessRequest(v))
    case ColorKind =>
      var s1 :- ReadLiteral("{\"color\":", s);
      var c :- ReadColor(s1);
      var k :- ReadKelvin(c.1);
      Some(ColorRequest(c.0, k))
    case DevStatusKind =>
      if s == "{}" then Some(DevStatusRequest) else None
  }

  /** Reads an envelope written as EncodeWrapper writes it. */
  function DecodeWrapper(s: string): Option<Wrapper>
  {
    var s1 :- ReadLiteral("{\"msg\":{\"cmd\":", s);
    var c :- Json.ReadString(s1);
    var s2 :- ReadLiteral(",\"data\":", c.1);
    if |s2| >= 2 && s2[|s2| - 2..] == "}}" then Some(Wrapper(Msg(c.0, s2[..|s2| - 2]))) else None
  }

  // ---------------------------------------------------------------------
  // Round trips

  lemma ReadLiteralOf(lit: string, rest: string)
    ensures ReadLiteral(lit, lit + rest) == Some(rest)
  {
    assert (lit + rest)[..|lit|] == lit;
  }

  lemma ReadUintToString(n: Uint, rest: string)
    requires rest == [] || !IsDigit(rest[0])
    ensures ReadUint(NatToString(n) + rest) == Some((n, rest))
  {
    Json.ReadNatToString(n, rest);
  }

  /** A number, then a literal that does not start with a digit. */
  lemma ReadUintThenLiteral(n: Uint, lit: string, rest: string)
    requires |lit| > 0 && !IsDigit(lit[0])
    ensures ReadUint(NatToString(n) + (lit + rest)) == Some((n, lit + rest))
  {
    ReadUintToString(n, lit + rest);
  }

  lemma ReadEncodedColor(c: Color, rest: string)
    ensures ReadColor(EncodeColor(c) + rest) == Some((c, rest))
  {
    var r, g, b := NatToString(c.r), NatToString(c.g), NatToString(c.b);
    var s3 := b + ("}" + rest);
    var s2 := g + (",\"b\":" + s3);
    var s1 := r + (",\"g\":" + s2);
    assert EncodeColor(c) + rest == "{\"r\":" + s1;
    ReadLiteralOf("{\"r\":", s1);
    ReadUintThenLiteral(c.r, ",\"g\":", s2);
    ReadLiteralOf(",\"g\":", s2);
    ReadUintThenLiteral(c.g, ",\"b\":", s3);
    ReadLiteralOf(",\"b\":", s3);
    ReadUintThenLiteral(c.b, "}", rest);
    ReadLiteralOf("}", rest);
  }

  /** Every request payload reads back from its encoding. */
  lemma DecodeEncodeRequest(p: Request)
    ensures DecodeRequest(KindOf(p), EncodeRequest(p)) == Some(p)
  {
    match p
    case ScanRequest(topic) =>
      assert EncodeRequest(p) == "{\"account_topic\":" + (Json.Quote(topic) + "}");
      ReadLiteralOf("{\"account_topic\":", Json.Quote(topic) + "}");
      Json.ReadQuote(topic, "}");
    case OnOffRequest(v) =>
      ReadValueOf(v);
    case BrightnessRequest(v) =>
      ReadValueOf(v);
    case ColorRequest(c, k) =>
      ReadColorRequestOf(c, k);
    case DevStatusRequest =>
  }

  lemma ReadValueOf(v: Uint)
    ensures ReadValue("{\"value\":" + NatToString(v) + "}") == Some(v)
  {
    assert "{\"value\":" + NatToString(v) + "}" == "{\"value\":" + (NatToString(v) + "}");
    ReadLiteralOf("{\"value\":", NatToString(v) + "}");
    ReadUintToString(v, "}");
  }

  lemma ReadKelvinOf(k: Uint)
    ensures ReadKelvin(",\"colorTemInKelvin\":" + NatToString(k) + "}") == Some(k)
  {
    var t := NatToString(k) + "}";
    assert ",\"colorTemInKelvin\":" + NatToString(k) + "}" == ",\"colorTemInKelvin\":" + t;
    ReadLiteralOf(",\"colorTemInKelvin\":", t);
    ReadUintToString(k, "}");
  }

  /** A colour payload is the colour object followed by the temperature field. */
  lemma ColorRequestText(c: Color, k: Uint)
    ensures EncodeRequest(ColorRequest(c, k))
            == "{\"color\":" + (EncodeColor(c) + (",\"colorTemInKelvin\":" + NatToString(k) + "}"))
  {
  }

  lemma ReadColorPayload(c: Color, t: string, k: Uint)
    requires ReadKelvin(t) == Some(k)
    ensures DecodeRequest(ColorKind, "{\"color\":" + (EncodeColor(c) + t)) == Some(ColorRequest(c, k))
  {
    ReadLiteralOf("{\"color\":", EncodeColor(c) + t);
    ReadEncodedColor(c, t);
  }

  lemma ReadColorRequestOf(c: Color, k: ColorKelvin)
    ensures DecodeRequest(ColorKind, EncodeRequest(ColorRequest(c, k))) == Some(ColorRequest(c, k))
  {
    ColorRequestText(c, k);
    ReadKelvinOf(k);
    ReadColorPayload(c, ",\"colorTemInKelvin\":" + NatToString(k) + "}", k);
  }

  /** Every envelope reads back from its encoding, whatever its command and data. */
  lemma DecodeEncodeWrapper(w: Wrapper)
    ensures DecodeWrapper(EncodeWrapper(w)) == Some(w)
  {
    var s := EncodeWrapper(w);
    var tail := ",\"data\":" + w.msg.data + "}}";
    assert s == "{\"msg\":{\"cmd\":" + (Json.Quote(w.msg.cmd) + tail);
    Json.ReadQuote(w.msg.cmd, tail);
    var s2 := w.msg.data + "}}";
    assert tail == ",\"data\":" + s2;
    assert s2[|s2| - 2..] == "}}" && s2[..|s2| - 2] == w.msg.data;
  }

  // ---------------------------------------------------------------------
  // The exact texts on the wire

  /**
   * A command name of plain characters appears verbatim between quotes,
   * ahead of the payload text: for instance "scan" with the reserved
   * topic gives {"msg":{"cmd":"scan","data":{"account_topic":"reserve"}}}.
   */
  lemma EnvelopeText(cmd: string, data: string)
    requires forall i | 0 <= i < |cmd| :: Json.Plain(cmd[i])
    ensures EncodeWrapper(Wrapper(Msg(cmd, data)))
            == "{\"msg\":{\"cmd\":\"" + cmd + "\",\"data\":" + data + "}}"
  {
    Json.QuotePlain(cmd);
  }

  /** A plain account topic is written verbatim: {"account_topic":"<topic>"}. */
  lemma ScanRequestText(topic: string)
    requires forall i | 0 <= i < |topic| :: Json.Plain(topic[i])
    ensures EncodeRequest(ScanRequest(topic)) == "{\"account_topic\":\"" + topic + "\"}"
  {
    Json.QuotePlain(topic);
  }

  // The three envelopes the library's own expectations spell out. The
  // names and payloads are parameters pinned by `requires`, which keeps the
  // verifier from evaluating the escaper on literal text.

  lemma ReservedTopicText(topic: string)
    requires topic == "reserve"
    ensures EncodeRequest(ScanRequest(topic)) == "{\"account_topic\":\"reserve\"}"
  {
    ScanRequestText(topic);
  }

  lemma ScanEnvelopeText(cmd: string, data: string)
    requires cmd == "scan" && data == "{\"account_topic\":\"reserve\"}"
    ensures "{\"msg\":{\"cmd\":\"" + cmd + "\",\"data\":" + data + "}}"
            == "{\"msg\":{\"cmd\":\"scan\",\"data\":" + "{\"account_topic\":\"reserve\"}}}"
  {
    var head := "{\"msg\":{\"cmd\":\"" + cmd + "\",\"data\":";
    assert head == "{\"msg\":{\"cmd\":\"scan\",\"data\":";
    assert data + "}}" == "{\"account_topic\":\"reserve\"}}}";
  }

  /** The scan request: {"msg":{"cmd":"scan","data":{"account_topic":"reserve"}}}. */
  lemma ScanRequestEncoding(cmd: string, topic: string)
    requires cmd == "scan" && topic == "reserve"
    ensures EncodeWrapper(Wrapper(Msg(cmd, EncodeRequest(ScanRequest(topic)))))
            == "{\"msg\":{\"cmd\":\"scan\",\"data\":" + "{\"account_topic\":\"reserve\"}}}"
  {
    var data := EncodeRequest(ScanRequest(topic));
    ReservedTopicText(topic);
    EnvelopeText(cmd, data);
    ScanEnvelopeText(cmd, data);
  }

  lemma TurnEnvelopeText(cmd: string, data: string)
    requires cmd == "turn" && data == "{\"value\":1}"
    ensures "{\"msg\":{\"cmd\":\"" + cmd + "\",\"data\":" + data + "}}"
            == "{\"msg\":{\"cmd\":\"turn\",\"data\":" + "{\"value\":1}}}"
  {
    var head := "{\"msg\":{\"cmd\":\"" + cmd + "\",\"data\":";
    assert head == "{\"msg\":{\"cmd\":\"turn\",\"data\":";
    assert data + "}}" == "{\"value\":1}}}";
  }

  lemma OnText(v: State)
    requires v == 1
    ensures EncodeRequest(OnOffRequest(v)) == "{\"value\":1}"
  {
    assert NatToString(v) == "1";
  }

  /** Turning on: {"msg":{"cmd":"turn","data":{"value":1}}}. */
  lemma OnOffRequestEncoding(cmd: string, v: State)
    requires cmd == "turn" && v == 1
    ensures EncodeWrapper(Wrapper(Msg(cmd, EncodeRequest(OnOffRequest(v)))))
            == "{\"msg\":{\"cmd\":\"turn\",\"data\":" + "{\"value\":1}}}"
  {
    var data := EncodeRequest(OnOffRequest(v));
    OnText(v);
    EnvelopeText(cmd, data);
    TurnEnvelopeText(cmd, data);
  }

  lemma StatusEnvelopeText(cmd: string, data: string)
    requires cmd == "devStatus" && data == "{}"
    ensures "{\"msg\":{\"cmd\":\"" + cmd + "\",\"data\":" + data + "}}"
            == "{\"msg\":{\"cmd\":\"devStatus\",\"data\":" + "{}}}"
  {
    var head := "{\"msg\":{\"cmd\":\"" + cmd + "\",\"data\":";
    assert head == "{\"msg\":{\"cmd\":\"devStatus\",\"data\":";
    assert data + "}}" == "{}}}";
  }

  /** The status request has no fields: {"msg":{"cmd":"devStatus","data":{}}}. */
  lemma DevStatusRequestEncoding(cmd: string)
    requires cmd == "devStatus"
    ensures EncodeWrapper(Wrapper(Msg(cmd, EncodeRequest(DevStatusRequest))))
            == "{\"msg\":{\"cmd\":\"devStatus\",\"data\":" + "{}}}"
  {
    var data := EncodeRequest(DevStatusRequest);
    EnvelopeText(cmd, data);
    StatusEnvelopeText(cmd, data);
  }
}
