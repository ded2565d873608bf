/** The encoded form `Codable` types produce: a tree of null, numbers, strings, data, keyed
    containers and unkeyed lists, with the errors a decoder raises and the values a `Hasher`
    is fed. */
module Coding {
  import opened Outcomes

  datatype Value =
    | NullValue
    | NumberValue(number: real)
    | StringValue(str: string)
    | DataValue(bytes: seq<bv8>)
    | KeyedValue(fields: seq<Field>)
    | ListValue(items: seq<Value>)

  /** One entry of a keyed container. */
  datatype Field = Field(key: string, value: Value)

  /** The `DecodingError` cases the modelled decoders raise. */
  datatype DecodingError = DataCorrupted | KeyNotFound(key: string) | TypeMismatch

  /** What `hash(into:)` feeds a `Hasher`, in order. */
  datatype HashInput = HashString(s: string) | HashNumber(r: real) | HashData(bytes: seq<bv8>) | HashNumbers(rs: seq<real>)

  /** `decoder.container(keyedBy:)`: the fields of a keyed container, or a type mismatch. */
  function Container(v: Value): (r: Result<seq<Field>, DecodingError>)
    ensures r.Success? <==> v.KeyedValue?
    ensures r.Success? ==> r.value == v.fields
    ensures r.Failure? ==> r.error == TypeMismatch
  {
    if v.KeyedValue? then Success(v.fields) else Failure(TypeMismatch)
  }

  /** `container.allKeys.first`: the first key, in container order, that the type's
      `CodingKeys` recognise; unrecognised keys are skipped. */
  function FirstKnownKey(fields: seq<Field>, known: set<string>): (k: Option<string>)
    ensures k.Some? ==> k.value in known && exists j :: 0 <= j < |fields| && fields[j].key == k.value
    ensures k.None? <==> forall j :: 0 <= j < |fields| ==> fields[j].key !in known
  {
    if |fields| == 0 then None
    else if fields[0].key in known then Some(fields[0].key)
    else
      var k := FirstKnownKey(fields[1..], known);
      assert forall j :: 1 <= j < |fields| ==> fields[j] == fields[1..][j - 1];
      k
  }

  /** The value stored under `key`, if any. */
  function Lookup(fields: seq<Field>, key: string): (r: Option<Value>)
    ensures r.Some? <==> exists j :: 0 <= j < |fields| && fields[j].key == key
  {
    if |fields| == 0 then None
    else if fields[0].key == key then Some(fields[0].value)
    else
      assert forall j :: 1 <= j < |fields| ==> fields[j] == fields[1..][j - 1];
      Lookup(fields[1..], key)
  }

  /** In a container whose keys differ, each key finds its own value. */
  lemma {:induction false} LookupDistinct(fields: seq<Field>, j: nat)
    requires j < |fields|
    requires forall i :: 0 <= i < |fields| && i != j ==> fields[i].key != fields[j].key
    ensures Lookup(fields, fields[j].key) == Some(fields[j].value)
  {
    if j > 0 {
      LookupDistinct(fields[1..], j - 1);
    }
  }

  /** `container.decode(_:forKey:)` for a key that must be present: the stored value, or
      `keyNotFound`. */
  function Required(fields: seq<Field>, key: string): (r: Result<Value, DecodingError>)
    ensures r.Success? <==> Lookup(fields, key).Some?
    ensures r.Success? ==> r.value == Lookup(fields, key).value
    ensures r.Failure? ==> r.error == KeyNotFound(key)
  {
    match Lookup(fields, key)
    case Some(v) => Success(v)
    case None => Failure(KeyNotFound(key))
  }

  /** Decoding a `CGFloat` or `Double`. */
  function AsNumber(v: Value): (r: Result<real, DecodingError>)
    ensures r.Success? <==> v.NumberValue?
    ensures r.Success? ==> r.value == v.number
  {
    if v.NumberValue? then Success(v.number) else Failure(TypeMismatch)
  }

  /** Decoding a `String`. */
  function AsString(v: Value): (r: Result<string, DecodingError>)
    ensures r.Success? <==> v.StringValue?
    ensures r.Success? ==> r.value == v.str
  {
    if v.StringValue? then Success(v.str) else Failure(TypeMismatch)
  }

  /** Decoding a `Data?`: null is `nil`. */
  function AsOptionalData(v: Value): (r: Result<Option<seq<bv8>>, DecodingError>)
    ensures r.Success? <==> (v.NullValue? || v.DataValue?)
    ensures v.NullValue? ==> r == Success(None)
    ensures v.DataValue? ==> r == Success(Some(v.bytes))
  {
    match v
    case NullValue => Success(None)
    case DataValue(bytes) => Success(Some(bytes))
    case _ => Failure(TypeMismatch)
  }

  /** Decoding the elements of an array of `CGFloat`. */
  function AsNumberList(items: seq<Value>): (r: Result<seq<real>, DecodingError>)
    ensures r.Success? ==> |r.value| == |items|
    ensures r.Success? ==> forall j :: 0 <= j < |items| ==> items[j] == NumberValue(r.value[j])
  {
    if |items| == 0 then Success([])
    else if !items[|items| - 1].NumberValue? then Failure(TypeMismatch)
    else
      match AsNumberList(items[..|items| - 1])
      case Failure(e) => Failure(e)
      case Success(rs) => Success(rs + [items[|items| - 1].number])
  }

  /** Decoding an array of `CGFloat`. */
  function AsNumbers(v: Value): (r: Result<seq<real>, DecodingError>)
    ensures r.Success? ==> v.ListValue? && |r.value| == |v.items|
    ensures r.Success? ==> forall j :: 0 <= j < |v.items| ==> v.items[j] == NumberValue(r.value[j])
  {
    if v.ListValue? then AsNumberList(v.items) else Failure(TypeMismatch)
  }

  /** Encoding an array of `CGFloat`. */
  function Numbers(rs: seq<real>): (v: Value)
    ensures v.ListValue? && |v.items| == |rs|
    ensures forall j :: 0 <= j < |rs| ==> v.items[j] == NumberValue(rs[j])
  {
    ListValue(seq(|rs|, j requires 0 <= j < |rs| => NumberValue(rs[j])))
  }

  lemma {:induction false} NumberListRoundTrip(rs: seq<real>)
    ensures AsNumberList(Numbers(rs).items) == Success(rs)
    decreases |rs|
  {
    if |rs| > 0 {
      var prefix := rs[..|rs| - 1];
      NumberListRoundTrip(prefix);
      assert Numbers(rs).items[..|rs| - 1] == Numbers(prefix).items;
      assert prefix + [rs[|rs| - 1]] == rs;
    }
  }

  /** Decoding an encoded array gives the array back. */
  lemma NumbersRoundTrip(rs: seq<real>)
    ensures AsNumbers(Numbers(rs)) == Success(rs)
  {
    NumberListRoundTrip(rs);
  }

  /** `encodeValues(a, b, c, for: key)`: the three values as an unkeyed list under the key. */
  function EncodeValues(key: string, a: Value, b: Value, c: Value): (v: Value)
    ensures Container(v) == Success([Field(key, ListValue([a, b, c]))])
  {
    KeyedValue([Field(key, ListValue([a, b, c]))])
  }

  /** `decodeValues(for: key)`: the three values of the list under the key; a missing key is
      `keyNotFound`, anything but a list of three a type mismatch. */
  function DecodeValues(fields: seq<Field>, key: string): (r: Result<(Value, Value, Value), DecodingError>)
    ensures Lookup(fields, key).None? ==> r == Failure(KeyNotFound(key))
    ensures r.Success? ==> Lookup(fields, key) == Some(ListValue([r.value.0, r.value.1, r.value.2]))
  {
    match Required(fields, key)
    case Failure(e) => Failure(e)
    case Success(v) =>
      if v.ListValue? && |v.items| == 3 then
        assert v.items == [v.items[0], v.items[1], v.items[2]];
        Success((v.items[0], v.items[1], v.items[2]))
      else Failure(TypeMismatch)
  }

  /** `encodeNil(forKey:)` into a fresh keyed container. */
  function NilUnder(key: string): (v: Value)
    ensures Container(v) == Success([Field(key, NullValue)])
  {
    KeyedValue([Field(key, NullValue)])
  }
}
