/** The `Codable`, `Equatable` and `Hashable` conformances this library adds to SwiftUI's
    `CGLineCap`, `CGLineJoin`, `StrokeStyle` and `ColorScheme`. The two line enums encode as
    a keyed container holding a single key with a null value, and decode by the first key
    they recognise; equality and hashing go through that coding key. */
module SwiftUICoding {
  import opened Outcomes
  import opened Coding

  // ----- CGLineCap -----

  datatype LineCap = ButtCap | RoundCap | SquareCap

  /** `CGLineCap.CodingKeys`. */
  datatype LineCapKey = ButtKey | RoundCapKey | SquareKey

  function LineCapKeyRaw(k: LineCapKey): (raw: string)
    ensures raw in LineCapKeys
  {
    match k
    case ButtKey => "butt"
    case RoundCapKey => "round"
    case SquareKey => "square"
  }

  /** The raw values `CGLineCap.CodingKeys` recognises. */
  const LineCapKeys: set<string> := {"butt", "round", "square"}

  function LineCapCodingKey(c: LineCap): (k: LineCapKey)
  {
    match c
    case ButtCap => ButtKey
    case RoundCap => RoundCapKey
    case SquareCap => SquareKey
  }

  /** `CGLineCap.encode(to:)`: the case's key with a null value. */
  function EncodeLineCap(c: LineCap): (v: Value)
    ensures v == NilUnder(LineCapKeyRaw(LineCapCodingKey(c)))
  {
    match c
    case ButtCap => NilUnder("butt")
    case RoundCap => NilUnder("round")
    case SquareCap => NilUnder("square")
  }

  /** `CGLineCap.init(from:)`: the case named by the first recognised key, whatever value it
      holds; a container without one is `dataCorrupted`. */
  function DecodeLineCap(v: Value): (r: Result<LineCap, DecodingError>)
    ensures r == Failure(TypeMismatch) <==> !v.KeyedValue?
    ensures r == Failure(DataCorrupted) <==> v.KeyedValue? && FirstKnownKey(v.fields, LineCapKeys).None?
    ensures r.Success? ==> FirstKnownKey(v.fields, LineCapKeys) == Some(LineCapKeyRaw(LineCapCodingKey(r.value)))
  {
    match Container(v)
    case Failure(e) => Failure(e)
    case Success(fields) =>
      var first := FirstKnownKey(fields, LineCapKeys);
      if first == Some("butt") then Success(ButtCap)
      else if first == Some("round") then Success(RoundCap)
      else if first == Some("square") then Success(SquareCap)
      else Failure(DataCorrupted)
  }

  /** Decoding an encoded cap gives it back. */
  lemma LineCapRoundTrip(c: LineCap)
    ensures DecodeLineCap(EncodeLineCap(c)) == Success(c)
  {
  }

  /** `CGLineCap.==`: equal coding keys. */
  predicate LineCapEquals(a: LineCap, b: LineCap)
  {
    LineCapCodingKey(a) == LineCapCodingKey(b)
  }

  /** What `CGLineCap.hash(into:)` feeds the hasher: the coding key's raw value. */
  function LineCapHash(c: LineCap): (h: seq<HashInput>)
    ensures |h| == 1 && h[0].HashString? && h[0].s in LineCapKeys
  {
    [HashString(LineCapKeyRaw(LineCapCodingKey(c)))]
  }

  /** Equality through the coding key is the cases' identity, and the hash agrees with it in
      both directions. */
  lemma LineCapEqualityAndHash(a: LineCap, b: LineCap)
    ensures LineCapEquals(a, b) <==> a == b
    ensures LineCapEquals(a, b) <==> LineCapHash(a) == LineCapHash(b)
  {
  }

  // ----- CGLineJoin -----

  datatype LineJoin = MiterJoin | RoundJoin | BevelJoin

  /** `CGLineJoin.CodingKeys`. */
  datatype LineJoinKey = MiterKey | RoundJoinKey | BevelKey

  function LineJoinKeyRaw(k: LineJoinKey): (raw: string)
    ensures raw in LineJoinKeys
  {
    match k
    case MiterKey => "miter"
    case RoundJoinKey => "round"
    case BevelKey => "bevel"
  }

  /** The raw values `CGLineJoin.CodingKeys` recognises. */
  const LineJoinKeys: set<string> := {"miter", "round", "bevel"}

  function LineJoinCodingKey(j: LineJoin): (k: LineJoinKey)
  {
    match j
    case MiterJoin => MiterKey
    case RoundJoin => RoundJoinKey
    case BevelJoin => BevelKey
  }

  /** `CGLineJoin.encode(to:)`: the case's key with a null value. */
  function EncodeLineJoin(j: LineJoin): (v: Value)
    ensures v == NilUnder(LineJoinKeyRaw(LineJoinCodingKey(j)))
  {
    match j
    case MiterJoin => NilUnder("miter")
    case RoundJoin => NilUnder("round")
    case BevelJoin => NilUnder("bevel")
  }

  /** `CGLineJoin.init(from:)`: the case named by the first recognised key; a container
      without one is `dataCorrupted`. */
  function DecodeLineJoin(v: Value): (r: Result<LineJoin, DecodingError>)
    ensures r == Failure(TypeMismatch) <==> !v.KeyedValue?
    ensures r == Failure(DataCorrupted) <==> v.KeyedValue? && FirstKnownKey(v.fields, LineJoinKeys).None?
    ensures r.Success? ==> FirstKnownKey(v.fields, LineJoinKeys) == Some(LineJoinKeyRaw(LineJoinCodingKey(r.value)))
  {
    match Container(v)
    case Failure(e) => Failure(e)
    case Success(fields) =>
      var first := FirstKnownKey(fields, LineJoinKeys);
      if first == Some("miter") then Success(MiterJoin)
      else if first == Some("round") then Success(RoundJoin)
      else if first == Some("bevel") then Success(BevelJoin)
      else Failure(DataCorrupted)
  }

  /** Decoding an encoded join gives it back. */
  lemma LineJoinRoundTrip(j: LineJoin)
    ensures DecodeLineJoin(EncodeLineJoin(j)) == Success(j)
  {
  }

  /** `CGLineJoin.==`: equal coding keys. */
  predicate LineJoinEquals(a: LineJoin, b: LineJoin)
  {
    LineJoinCodingKey(a) == LineJoinCodingKey(b)
  }

  /** What `CGLineJoin.hash(into:)` feeds the hasher: the coding key's raw value. */
  function LineJoinHash(j: LineJoin): (h: seq<HashInput>)
    ensures |h| == 1 && h[0].HashString? && h[0].s in LineJoinKeys
  {
    [HashString(LineJoinKeyRaw(LineJoinCodingKey(j)))]
  }

  lemma LineJoinEqualityAndHash(a: LineJoin, b: LineJoin)
    ensures LineJoinEquals(a, b) <==> a == b
    ensures LineJoinEquals(a, b) <==> LineJoinHash(a) == LineJoinHash(b)
  {
  }

  // ----- StrokeStyle -----

  datatype StrokeStyle = StrokeStyle(lineWidth: real, lineCap: LineCap, lineJoin: LineJoin,
                                     miterLimit: real, dash: seq<real>, dashPhase: real)

  /** `StrokeStyle.CodingKeys`, in declaration order. */
  const StrokeStyleKeys: seq<string> := ["lineWidth", "lineCap", "lineJoin", "miterLimit", "dash", "dashPhase"]

  /** `StrokeStyle.encode(to:)`: six named fields. */
  function EncodeStrokeStyle(s: StrokeStyle): (v: Value)
    ensures v.KeyedValue? && |v.fields| == 6
    ensures forall j :: 0 <= j < 6 ==> v.fields[j].key == StrokeStyleKeys[j]
  {
    KeyedValue([
      Field("lineWidth", NumberValue(s.lineWidth)),
      Field("lineCap", EncodeLineCap(s.lineCap)),
      Field("lineJoin", EncodeLineJoin(s.lineJoin)),
      Field("miterLimit", NumberValue(s.miterLimit)),
      Field("dash", Numbers(s.dash)),
      Field("dashPhase", NumberValue(s.dashPhase))])
  }

  /** A required number field. */
  function NumberField(fields: seq<Field>, key: string): (r: Result<real, DecodingError>)
    ensures Lookup(fields, key).None? ==> r == Failure(KeyNotFound(key))
  {
    match Required(fields, key)
    case Failure(e) => Failure(e)
    case Success(v) => AsNumber(v)
  }

  /** `StrokeStyle.init(from:)`: the six fields, decoded in declaration order; the first that
      is missing or malformed decides the error. */
  function DecodeStrokeStyle(v: Value): (r: Result<StrokeStyle, DecodingError>)
    ensures v.KeyedValue? && Lookup(v.fields, "lineWidth").None? ==> r == Failure(KeyNotFound("lineWidth"))
    ensures !v.KeyedValue? ==> r == Failure(TypeMismatch)
  {
    match Container(v)
    case Failure(e) => Failure(e)
    case Success(fields) =>
      match NumberField(fields, "lineWidth")
      case Failure(e) => Failure(e)
      case Success(lineWidth) =>
      match Required(fields, "lineCap")
      case Failure(e) => Failure(e)
      case Success(capValue) =>
      match DecodeLineCap(capValue)
      case Failure(e) => Failure(e)
      case Success(lineCap) =>
      match Required(fields, "lineJoin")
      case Failure(e) => Failure(e)
      case Success(joinValue) =>
      match DecodeLineJoin(joinValue)
      case Failure(e) => Failure(e)
      case Success(lineJoin) =>
      match NumberField(fields, "miterLimit")
      case Failure(e) => Failure(e)
      case Success(miterLimit) =>
      match Required(fields, "dash")
      case Failure(e) => Failure(e)
      case Success(dashValue) =>
      match AsNumbers(dashValue)
      case Failure(e) => Failure(e)
      case Success(dash) =>
      match NumberField(fields, "dashPhase")
      case Failure(e) => Failure(e)
      case Success(dashPhase) =>
        Success(StrokeStyle(lineWidth, lineCap, lineJoin, miterLimit, dash, dashPhase))
  }

  /** Decoding an encoded stroke style gives an equal style back. */
  lemma StrokeStyleRoundTrip(s: StrokeStyle)
    ensures DecodeStrokeStyle(EncodeStrokeStyle(s)) == Success(s)
  {
    var fields := EncodeStrokeStyle(s).fields;
    forall j | 0 <= j < 6
      ensures Lookup(fields, StrokeStyleKeys[j]) == Some(fields[j].value)
    {
      LookupDistinct(fields, j);
    }
    assert Lookup(fields, "lineWidth") == Some(NumberValue(s.lineWidth)) by { assert StrokeStyleKeys[0] == "lineWidth"; }
    assert Lookup(fields, "lineCap") == Some(EncodeLineCap(s.lineCap)) by { assert StrokeStyleKeys[1] == "lineCap"; }
    assert Lookup(fields, "lineJoin") == Some(EncodeLineJoin(s.lineJoin)) by { assert StrokeStyleKeys[2] == "lineJoin"; }
    assert Lookup(fields, "miterLimit") == Some(NumberValue(s.miterLimit)) by { assert StrokeStyleKeys[3] == "miterLimit"; }
    assert Lookup(fields, "dash") == Some(Numbers(s.dash)) by { assert StrokeStyleKeys[4] == "dash"; }
    assert Lookup(fields, "dashPhase") == Some(NumberValue(s.dashPhase)) by { assert StrokeStyleKeys[5] == "dashPhase"; }
    NumbersRoundTrip(s.dash);
    LineCapRoundTrip(s.lineCap);
    LineJoinRoundTrip(s.lineJoin);
  }

  /** What `StrokeStyle.hash(into:)` feeds the hasher: the six fields in order, the cap and
      join through their own hashes. */
  function StrokeStyleHash(s: StrokeStyle): (h: seq<HashInput>)
    ensures |h| == 6
  {
    [HashNumber(s.lineWidth)] + LineCapHash(s.lineCap) + LineJoinHash(s.lineJoin)
    + [HashNumber(s.miterLimit), HashNumbers(s.dash), HashNumber(s.dashPhase)]
  }

  /** Two styles are fed to the hasher alike exactly when they are equal. */
  lemma StrokeStyleHashDistinguishes(a: StrokeStyle, b: StrokeStyle)
    ensures StrokeStyleHash(a) == StrokeStyleHash(b) <==> a == b
  {
    if StrokeStyleHash(a) == StrokeStyleHash(b) {
      assert StrokeStyleHash(a)[1] == StrokeStyleHash(b)[1];
      assert StrokeStyleHash(a)[2] == StrokeStyleHash(b)[2];
      LineCapEqualityAndHash(a.lineCap, b.lineCap);
      LineJoinEqualityAndHash(a.lineJoin, b.lineJoin);
      assert StrokeStyleHash(a)[0] == StrokeStyleHash(b)[0];
      assert StrokeStyleHash(a)[3] == StrokeStyleHash(b)[3];
      assert StrokeStyleHash(a)[4] == StrokeStyleHash(b)[4];
      assert StrokeStyleHash(a)[5] == StrokeStyleHash(b)[5];
    }
  }

  // ----- ColorScheme -----

  /** SwiftUI's `ColorScheme`. */
  datatype ColorScheme = Light | Dark

  /** `ColorScheme.RawValueType`. */
  datatype ColorSchemeRaw = DarkRaw | LightRaw | UnknownRaw

  function ColorSchemeRawString(r: ColorSchemeRaw): (s: string)
  {
    match r
    case DarkRaw => "dark"
    case LightRaw => "light"
    case UnknownRaw => "unknown"
  }

  /** `ColorScheme.rawValue`. */
  function RawValue(c: ColorScheme): (r: ColorSchemeRaw)
    ensures r != UnknownRaw
  {
    match c
    case Light => LightRaw
    case Dark => DarkRaw
  }

  /** `ColorScheme.init?(rawValue:)`. */
  function FromRawValue(r: ColorSchemeRaw): (c: Option<ColorScheme>)
    ensures c.None? <==> r == UnknownRaw
  {
    match r
    case DarkRaw => Some(Dark)
    case LightRaw => Some(Light)
    case UnknownRaw => None
  }

  /** The raw value round-trips in both directions, except for `unknown`, which has no
      scheme. */
  lemma RawValueRoundTrip(c: ColorScheme, r: ColorSchemeRaw)
    ensures FromRawValue(RawValue(c)) == Some(c)
    ensures FromRawValue(r) == Some(c) ==> RawValue(c) == r
  {
  }

  /** `ColorScheme.encode(to:)`: the raw value's string. */
  function EncodeColorScheme(c: ColorScheme): (v: Value)
    ensures v.StringValue? && (v.str == "light" || v.str == "dark")
  {
    StringValue(ColorSchemeRawString(RawValue(c)))
  }

  /** Decoding `RawValueType`: a string naming one of its cases, `dataCorrupted` for any other
      string. */
  function DecodeColorSchemeRaw(v: Value): (r: Result<ColorSchemeRaw, DecodingError>)
    ensures r.Success? ==> v == StringValue(ColorSchemeRawString(r.value))
  {
    match AsString(v)
    case Failure(e) => Failure(e)
    case Success(s) =>
      if s == "dark" then Success(DarkRaw)
      else if s == "light" then Success(LightRaw)
      else if s == "unknown" then Success(UnknownRaw)
      else Failure(DataCorrupted)
  }

  /** `ColorScheme.init(from:)`: the raw value, and `dataCorrupted` when it names no scheme. */
  function DecodeColorScheme(v: Value): (r: Result<ColorScheme, DecodingError>)
    ensures r.Success? <==> v == StringValue("light") || v == StringValue("dark")
    ensures v == StringValue("unknown") ==> r == Failure(DataCorrupted)
  {
    match DecodeColorSchemeRaw(v)
    case Failure(e) => Failure(e)
    case Success(raw) =>
      match FromRawValue(raw)
      case None => Failure(DataCorrupted)
      case Some(c) => Success(c)
  }

  /** Decoding an encoded scheme gives it back. */
  lemma ColorSchemeRoundTrip(c: ColorScheme)
    ensures DecodeColorScheme(EncodeColorScheme(c)) == Success(c)
  {
  }
}
