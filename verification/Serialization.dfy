/** Encoding of JSON values for storage and decoding of what was stored. The JSON text library and a custom
    serializer are parameters that are assumed to print and parse as inverse pairs. */
module Serialization {
  import opened Types
  import opened Base64

  const DBOS_JSON := "DBOS_JSON"
  const PORTABLE_JSON := "portable_json"
  const NIL_MARKER := "__DBOS_NIL"

  datatype EncodedValue = EncodedValue(data: Option<string>, serialization: string)

  datatype Json = Json(
    toBytes: Value -> seq<byte>,
    fromBytes: seq<byte> -> Option<Value>,
    toText: Value -> string,
    fromText: string -> Option<Value>)

  datatype CustomSerializer = CustomSerializer(
    name: string,
    encode: Value -> Result<EncodedValue>,
    decode: EncodedValue -> Result<Value>)

  datatype Codec = Codec(json: Json, serializer: Option<CustomSerializer>)

  ghost predicate JsonLaws(j: Json) {
    && (forall v :: j.fromBytes(j.toBytes(v)) == Some(v))
    && (forall v :: j.fromText(j.toText(v)) == Some(v))
    && j.toText(Null) == "null"
  }

  predicate Reserved(name: string) {
    name == "" || name == DBOS_JSON || name == PORTABLE_JSON
  }

  /** The serializer tags its output with its own unreserved name and can read it back. */
  ghost predicate SerializerLaws(s: CustomSerializer) {
    && !Reserved(s.name)
    && forall v :: s.encode(v).Ok? ==>
         s.encode(v).value.serialization == s.name && s.decode(s.encode(v).value) == Ok(v)
  }

  ghost predicate CodecLaws(c: Codec) {
    JsonLaws(c.json) && (c.serializer.Some? ==> SerializerLaws(c.serializer.value))
  }

  function EncodeJsonValue(j: Json, v: Value): EncodedValue {
    if v.Null? then EncodedValue(Some(NIL_MARKER), DBOS_JSON)
    else EncodedValue(Some(Base64.Encode(j.toBytes(v))), DBOS_JSON)
  }

  function OrSerializationError(v: Option<Value>): Result<Value> {
    if v.Some? then Ok(v.value) else Err(DbosError.Serialization)
  }

  function DecodeJsonValue(j: Json, e: EncodedValue): Result<Value> {
    if e.data.None? || e.data.value == NIL_MARKER then Ok(Null)
    else
      var bytes := Base64.Decode(e.data.value);
      if bytes.None? then Err(DbosError.Serialization) else OrSerializationError(j.fromBytes(bytes.value))
  }

  function EncodePortable(j: Json, v: Value): EncodedValue {
    EncodedValue(Some(j.toText(v)), PORTABLE_JSON)
  }

  function DecodePortable(j: Json, e: EncodedValue): Result<Value> {
    if e.data.None? || e.data.value == "null" then Ok(Null) else OrSerializationError(j.fromText(e.data.value))
  }

  function EncodeValue(c: Codec, v: Value, portable: bool): Result<EncodedValue> {
    if portable then Ok(EncodePortable(c.json, v))
    else if c.serializer.Some? then c.serializer.value.encode(v)
    else Ok(EncodeJsonValue(c.json, v))
  }

  function DecodeEncoded(c: Codec, e: EncodedValue): Result<Value> {
    if e.serialization == "" || e.serialization == DBOS_JSON then DecodeJsonValue(c.json, e)
    else if e.serialization == PORTABLE_JSON then DecodePortable(c.json, e)
    else if c.serializer.Some? && c.serializer.value.name == e.serialization then c.serializer.value.decode(e)
    else Err(DbosError.Serialization)
  }

  /** An encoding names its format: portable text where that is asked for, otherwise the custom serializer's, or
      base64 of the JSON bytes with a marker for null. */
  lemma EncodingsNameTheirFormat(c: Codec, v: Value, portable: bool)
    requires EncodeValue(c, v, portable).Ok?
    ensures var e := EncodeValue(c, v, portable).value;
            && (portable ==> e == EncodedValue(Some(c.json.toText(v)), "portable_json"))
            && (!portable && c.serializer.Some? ==> Ok(e) == c.serializer.value.encode(v))
            && (!portable && c.serializer.None? ==>
                  && e.serialization == "DBOS_JSON"
                  && e.data == if v == Null then Some("__DBOS_NIL") else Some(Base64.Encode(c.json.toBytes(v))))
  {
  }

  /** The column value that an encoding is stored as. */
  function ToStoredValue(e: EncodedValue): Option<Value> {
    if e.data.Some? then Some(String(e.data.value)) else None
  }

  /** The two columns hold the value in its format, from which it reads back. */
  ghost predicate Stores(c: Codec, v: Value, portable: bool, data: Option<Value>, serialization: string) {
    && EncodeValue(c, v, portable).Ok?
    && data == ToStoredValue(EncodeValue(c, v, portable).value) && serialization == EncodeValue(c, v, portable).value.serialization
    && DecodeStoredValue(c, data, serialization) == Ok(v)
  }

  function DecodeStoredValue(c: Codec, stored: Option<Value>, serialization: string): Result<Value> {
    if stored.Some? && stored.value.String? then DecodeEncoded(c, EncodedValue(Some(stored.value.s), serialization))
    else if stored.None? || stored.value.Null? then DecodeEncoded(c, EncodedValue(None, serialization))
    else if Reserved(serialization) then Ok(stored.value)
    else DecodeEncoded(c, EncodedValue(Some(c.json.toText(stored.value)), serialization))
  }

  /** The nil marker is not base64, so it is never the encoding of a value other than null. */
  lemma NilMarkerIsNobodyElse(j: Json, v: Value)
    ensures EncodeJsonValue(j, v).data == Some(NIL_MARKER) <==> v.Null?
  {
    if !v.Null? {
      EncodeUsesAlphabet(j.toBytes(v));
      assert NIL_MARKER[0] == '_' && !InAlphabet('_');
      assert NIL_MARKER[0] in NIL_MARKER;
    }
  }

  lemma DefaultRoundTrip(j: Json, v: Value)
    requires JsonLaws(j)
    ensures DecodeJsonValue(j, EncodeJsonValue(j, v)) == Ok(v)
  {
    NilMarkerIsNobodyElse(j, v);
    if !v.Null? {
      DecodeEncode(j.toBytes(v));
    }
  }

  lemma PortableRoundTrip(j: Json, v: Value)
    requires JsonLaws(j)
    ensures DecodePortable(j, EncodePortable(j, v)) == Ok(v)
  {
    assert j.fromText(j.toText(v)) == Some(v) && j.fromText(j.toText(Null)) == Some(Null);
  }

  /** In every mode, decoding the stored form of an encoded value gives the value back. */
  lemma StoredRoundTrip(c: Codec, v: Value, portable: bool)
    requires CodecLaws(c)
    requires EncodeValue(c, v, portable).Ok?
    ensures var e := EncodeValue(c, v, portable).value; DecodeStoredValue(c, ToStoredValue(e), e.serialization) == Ok(v)
  {
    DefaultRoundTrip(c.json, v);
    PortableRoundTrip(c.json, v);
    var e := EncodeValue(c, v, portable).value;
    assert e == EncodedValue(e.data, e.serialization);
  }

  // ----- custom serializers and reserved names -----

  /** The serializer tags its output with its own name and can read it back: all it can do by itself. */
  ghost predicate Inverts(s: CustomSerializer) {
    forall v :: s.encode(v).Ok? ==> s.encode(v).value.serialization == s.name && s.decode(s.encode(v).value) == Ok(v)
  }

  /** Every value that the serializer encodes comes back from storage. */
  ghost predicate GivesValuesBack(j: Json, s: CustomSerializer) {
    var c := Codec(j, Some(s));
    forall v :: EncodeValue(c, v, false).Ok? ==>
      var e := EncodeValue(c, v, false).value; DecodeStoredValue(c, ToStoredValue(e), e.serialization) == Ok(v)
  }

  ghost predicate NameIsSafe(j: Json, name: string) {
    forall s: CustomSerializer :: s.name == name && Inverts(s) ==> GivesValuesBack(j, s)
  }

  /** Under a reserved name the custom serializer is not consulted when decoding: the answer is that of the same
      context without it. */
  lemma ReservedNamesBypassTheSerializer(c: Codec, s: CustomSerializer, stored: Option<Value>)
    requires Reserved(s.name)
    ensures DecodeStoredValue(c.(serializer := Some(s)), stored, s.name) == DecodeStoredValue(c.(serializer := None), stored, s.name)
  {
  }

  const EMPTY_TEXT := String("")

  /** Encodes the empty text only, without data, and reads it back. */
  function TextSerializer(name: string): CustomSerializer {
    CustomSerializer(name,
                     v => if v == EMPTY_TEXT then Ok(EncodedValue(None, name)) else Err(DbosError.Serialization),
                     e => Ok(EMPTY_TEXT))
  }

  /** Under every reserved name there is a serializer that inverts its own output and yet loses a value: what has no
      data reads back as null. */
  lemma ReservedNameLosesValue(j: Json, name: string)
    requires Reserved(name)
    ensures var c, s := Codec(j, Some(TextSerializer(name))), TextSerializer(name);
            && s.name == name && Inverts(s)
            && EncodeValue(c, EMPTY_TEXT, false) == Ok(EncodedValue(None, name))
            && DecodeStoredValue(c, ToStoredValue(EncodedValue(None, name)), name) == Ok(Null)
    ensures !NameIsSafe(j, name)
  {
    var c, s := Codec(j, Some(TextSerializer(name))), TextSerializer(name);
    assert EncodeValue(c, EMPTY_TEXT, false) == Ok(EncodedValue(None, name));
    assert DecodeStoredValue(c, ToStoredValue(EncodedValue(None, name)), name) == Ok(Null);
    assert Inverts(s);
    assert !GivesValuesBack(j, s);
  }

  /** A custom serializer that obeys its inverse law gives every value back if and only if its name is not one of
      the reserved ones. */
  lemma ValuesComeBackIffNameIsFree(j: Json, name: string)
    requires JsonLaws(j)
    ensures NameIsSafe(j, name) <==> !Reserved(name)
  {
    if Reserved(name) {
      ReservedNameLosesValue(j, name);
    } else {
      forall s: CustomSerializer | s.name == name && Inverts(s)
        ensures GivesValuesBack(j, s)
      {
        var c := Codec(j, Some(s));
        forall v | EncodeValue(c, v, false).Ok?
          ensures var e := EncodeValue(c, v, false).value; DecodeStoredValue(c, ToStoredValue(e), e.serialization) == Ok(v)
        {
          StoredRoundTrip(c, v, false);
        }
      }
    }
  }
}
