/** `IconWrapper`, an icon that is a system symbol, a named image, image data, a text or a
    placeholder, with its coding key, equality, hashing and `Codable` conformance. Each case
    with content encodes under its key as the list (content, rotation in degrees, scale). */
module Icons {
  import opened Outcomes
  import opened Coding

  /** SwiftUI's `Angle`, held as degrees. */
  datatype Angle = Angle(degrees: real)

  datatype IconWrapper =
    | System(systemName: string, rotation: Angle, scale: real)
    | Image(name: string, rotation: Angle, scale: real)
    | LoadedImage(image: seq<bv8>, rotation: Angle, scale: real)
    | Text(text: string, rotation: Angle, scale: real)
    | Placeholder

  /** `IconWrapper.CodingKeys`. */
  datatype IconKey = SystemImageKey | ImageKey | TextKey | PlaceholderKey | LoadedImageKey

  function IconKeyRaw(k: IconKey): (raw: string)
    ensures raw in IconKeys
  {
    match k
    case SystemImageKey => "systemImage"
    case ImageKey => "image"
    case TextKey => "text"
    case PlaceholderKey => "placeholder"
    case LoadedImageKey => "loadedImage"
  }

  /** The raw values `IconWrapper.CodingKeys` recognises. */
  const IconKeys: set<string> := {"systemImage", "image", "text", "placeholder", "loadedImage"}

  /** `IconWrapper.codingKey`: one key per case. */
  function CodingKey(icon: IconWrapper): (k: IconKey)
    ensures k == SystemImageKey <==> icon.System?
    ensures k == ImageKey <==> icon.Image?
    ensures k == LoadedImageKey <==> icon.LoadedImage?
    ensures k == TextKey <==> icon.Text?
    ensures k == PlaceholderKey <==> icon.Placeholder?
  {
    match icon
    case System(_, _, _) => SystemImageKey
    case Image(_, _, _) => ImageKey
    case LoadedImage(_, _, _) => LoadedImageKey
    case Text(_, _, _) => TextKey
    case Placeholder => PlaceholderKey
  }

  /** `IconWrapper.==`: different coding keys are unequal; otherwise the case's content,
      rotation and scale are compared. */
  predicate Equals(lhs: IconWrapper, rhs: IconWrapper)
  {
    if CodingKey(lhs) != CodingKey(rhs) then false
    else
      match lhs
      case System(systemName, rotation, scale) =>
        rhs.System? && systemName == rhs.systemName && rotation == rhs.rotation && scale == rhs.scale
      case Image(name, rotation, scale) =>
        rhs.Image? && name == rhs.name && rotation == rhs.rotation && scale == rhs.scale
      case LoadedImage(image, rotation, scale) =>
        rhs.LoadedImage? && image == rhs.image && rotation == rhs.rotation && scale == rhs.scale
      case Text(text, rotation, scale) =>
        rhs.Text? && text == rhs.text && rotation == rhs.rotation && scale == rhs.scale
      case Placeholder => true
  }

  /** The hand-written equality is exactly equality of icons. */
  lemma EqualsIsIdentity(a: IconWrapper, b: IconWrapper)
    ensures Equals(a, b) <==> a == b
  {
  }

  /** What `IconWrapper.hash(into:)` feeds the hasher: the coding key's raw value, then the
      fields `==` compares. */
  function Hash(icon: IconWrapper): (h: seq<HashInput>)
    ensures |h| >= 1 && h[0] == HashString(IconKeyRaw(CodingKey(icon)))
  {
    [HashString(IconKeyRaw(CodingKey(icon)))] +
    match icon
    case System(systemName, rotation, scale) => [HashString(systemName), HashNumber(rotation.degrees), HashNumber(scale)]
    case Image(name, rotation, scale) => [HashString(name), HashNumber(rotation.degrees), HashNumber(scale)]
    case LoadedImage(image, rotation, scale) => [HashData(image), HashNumber(rotation.degrees), HashNumber(scale)]
    case Text(text, rotation, scale) => [HashString(text), HashNumber(rotation.degrees), HashNumber(scale)]
    case Placeholder => []
  }

  /** Equal icons are hashed alike, and icons hashed alike are equal. */
  lemma HashAgreesWithEquals(a: IconWrapper, b: IconWrapper)
    ensures Equals(a, b) <==> Hash(a) == Hash(b)
  {
    if Hash(a) == Hash(b) {
      assert Hash(a)[0] == Hash(b)[0];
      assert CodingKey(a) == CodingKey(b);
      if !a.Placeholder? {
        assert Hash(a)[1] == Hash(b)[1];
        assert Hash(a)[2] == Hash(b)[2];
        assert Hash(a)[3] == Hash(b)[3];
      }
    }
  }

  /** `IconWrapper.encode(to:)`. */
  function Encode(icon: IconWrapper): (v: Value)
    ensures v.KeyedValue? && |v.fields| == 1 && v.fields[0].key == IconKeyRaw(CodingKey(icon))
  {
    match icon
    case System(systemName, rotation, scale) =>
      EncodeValues("systemImage", StringValue(systemName), NumberValue(rotation.degrees), NumberValue(scale))
    case Image(name, rotation, scale) =>
      EncodeValues("image", StringValue(name), NumberValue(rotation.degrees), NumberValue(scale))
    case LoadedImage(image, rotation, scale) =>
      EncodeValues("loadedImage", DataValue(image), NumberValue(rotation.degrees), NumberValue(scale))
    case Text(text, rotation, scale) =>
      EncodeValues("text", StringValue(text), NumberValue(rotation.degrees), NumberValue(scale))
    case Placeholder => NilUnder("placeholder")
  }

  /** Decodes the (string, degrees, scale) triple under `key` and builds a case from it. */
  function DecodeNamed(fields: seq<Field>, key: string, make: (string, Angle, real) -> IconWrapper)
    : (r: Result<IconWrapper, DecodingError>)
    ensures r.Success? ==> exists s, d, sc :: r.value == make(s, Angle(d), sc)
  {
    match DecodeValues(fields, key)
    case Failure(e) => Failure(e)
    case Success((a, b, c)) =>
      match AsString(a)
      case Failure(e) => Failure(e)
      case Success(s) =>
        match AsNumber(b)
        case Failure(e) => Failure(e)
        case Success(degrees) =>
          match AsNumber(c)
          case Failure(e) => Failure(e)
          case Success(scale) => Success(make(s, Angle(degrees), scale))
  }

  /** `IconWrapper.init(from:)`: the case named by the first recognised key. Image data that
      decodes as `nil` gives a placeholder instead of an error, and a container without a
      recognised key is `dataCorrupted`. */
  function Decode(v: Value): (r: Result<IconWrapper, DecodingError>)
    ensures !v.KeyedValue? ==> r == Failure(TypeMismatch)
    ensures v.KeyedValue? && FirstKnownKey(v.fields, IconKeys).None? ==> r == Failure(DataCorrupted)
    ensures r.Success? && !r.value.Placeholder? ==>
              FirstKnownKey(v.fields, IconKeys) == Some(IconKeyRaw(CodingKey(r.value)))
  {
    match Container(v)
    case Failure(e) => Failure(e)
    case Success(fields) =>
      var first := FirstKnownKey(fields, IconKeys);
      if first == Some("systemImage") then
        DecodeNamed(fields, "systemImage", (s, a, sc) => System(s, a, sc))
      else if first == Some("image") then
        DecodeNamed(fields, "image", (s, a, sc) => Image(s, a, sc))
      else if first == Some("loadedImage") then
        match DecodeValues(fields, "loadedImage")
        case Failure(e) => Failure(e)
        case Success((a, b, c)) =>
          match AsOptionalData(a)
          case Failure(e) => Failure(e)
          case Success(data) =>
            match AsNumber(b)
            case Failure(e) => Failure(e)
            case Success(degrees) =>
              match AsNumber(c)
              case Failure(e) => Failure(e)
              case Success(scale) =>
                if data.None? then Success(Placeholder)
                else Success(LoadedImage(data.value, Angle(degrees), scale))
      else if first == Some("text") then
        DecodeNamed(fields, "text", (s, a, sc) => Text(s, a, sc))
      else if first == Some("placeholder") then
        Success(Placeholder)
      else Failure(DataCorrupted)
  }

  /** Decoding an encoded icon gives an equal icon back, for every case. */
  lemma RoundTrip(icon: IconWrapper)
    ensures Decode(Encode(icon)) == Success(icon)
    ensures Equals(Decode(Encode(icon)).value, icon)
  {
    match icon
    case System(_, _, _) =>
    case Image(_, _, _) =>
    case LoadedImage(_, _, _) =>
    case Text(_, _, _) =>
    case Placeholder =>
  }

  /** Image data stored as null decodes to a placeholder, whatever the rotation and scale. */
  lemma NilImageDataIsPlaceholder(degrees: real, scale: real)
    ensures Decode(KeyedValue([Field("loadedImage", ListValue([NullValue, NumberValue(degrees), NumberValue(scale)]))]))
            == Success(Placeholder)
  {
  }
}
