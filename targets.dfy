/** The typed shapes that PUT bodies are decoded into, and how a derived
    deserializer maps a parsed JSON document onto them: the MMDS configuration
    (`vmm`'s `MmdsConfig`) and the MMDS version selector (`mmds`'s
    `MmdsVersionType`). Both are structs with one field that refuse unknown
    fields; a missing optional field reads as absent. Parsing an IPv4 address
    from text is left to a parameter. */
module Targets {
  import opened Wrappers
  import opened Json

  newtype Octet = x: int | 0 <= x < 256

  datatype Ipv4Addr = Ipv4Addr(a: Octet, b: Octet, c: Octet, d: Octet)

  /** The MMDS configuration: the address the metadata service answers on,
      absent to fall back to the default. */
  datatype MmdsConfig = MmdsConfig(ipv4Address: Option<Ipv4Addr>)

  /** The supported MMDS protocol versions. */
  datatype MmdsVersion = V1 | V2

  /** The body of `PUT /mmds/version`. */
  datatype MmdsVersionType = MmdsVersionType(version: MmdsVersion)

  /** The wire name of a version: the variant's own name. */
  function VersionTag(v: MmdsVersion): string {
    match v
    case V1 => "V1"
    case V2 => "V2"
  }

  /** A unit-only enum is written as the variant's name in a JSON string;
      any other string names no variant, any other JSON value has the wrong
      type. */
  function DecodeVersion(v: Value): (r: Result<MmdsVersion, SerdeError>)
    ensures r.Ok? <==> v == String("V1") || v == String("V2")
    ensures r.Ok? ==> v == String(VersionTag(r.value))
  {
    match v
    case String(tag) =>
      if tag == "V1" then Ok(V1)
      else if tag == "V2" then Ok(V2)
      else Err(UnknownVariant(tag))
    case _ => Err(InvalidType)
  }

  /** Visits the members of a JSON object, in order, for a struct whose only
      field is `name`: an unknown key or a second occurrence of `name` is an
      error, and so is a value the field's own decoder refuses. `seen` holds
      the field's value once it has been read. The result is the field's
      value, or None when the object never named it. */
  function VisitField<T>(members: seq<(string, Value)>, name: string,
                         decodeValue: Value -> Result<T, SerdeError>,
                         seen: Option<T>): (r: Result<Option<T>, SerdeError>)
    ensures r.Ok? <==>
      && |members| + (if seen.Some? then 1 else 0) <= 1
      && forall i | 0 <= i < |members| :: members[i].0 == name && decodeValue(members[i].1).Ok?
    ensures r.Ok? ==>
      r.value == if members == [] then seen else Some(decodeValue(members[0].1).value)
    decreases |members|
  {
    if members == [] then Ok(seen)
    else
      var (key, value) := members[0];
      if key != name then Err(UnknownField(key))
      else if seen.Some? then Err(DuplicateField(name))
      else
        match decodeValue(value)
        case Err(e) => Err(e)
        case Ok(x) => VisitField(members[1..], name, decodeValue, Some(x))
  }

  /** The document a version selector is written as. */
  function EncodeVersionType(t: MmdsVersionType): Value {
    Object([("version", String(VersionTag(t.version)))])
  }

  /** Decodes the body of `PUT /mmds/version`. Exactly one document decodes
      to each selector: the one `EncodeVersionType` writes. */
  function DecodeVersionType(v: Value): (r: Result<MmdsVersionType, SerdeError>)
    ensures r.Ok? <==>
      v == Object([("version", String("V1"))]) || v == Object([("version", String("V2"))])
    ensures r.Ok? ==> v == EncodeVersionType(r.value)
  {
    match v
    case Object(members) =>
      (match VisitField(members, "version", DecodeVersion, None)
       case Err(e) => Err(e)
       case Ok(None) => Err(MissingField("version"))
       case Ok(Some(version)) =>
         assert members == [members[0]];
         Ok(MmdsVersionType(version)))
    case _ => Err(InvalidType)
  }

  /** Encoding a selector and decoding it again gives it back. */
  lemma VersionTypeRoundTrip(t: MmdsVersionType)
    ensures DecodeVersionType(EncodeVersionType(t)) == Ok(t)
  {
  }

  /** An optional address: `null` is absent, a string must parse as an IPv4
      address, anything else has the wrong type. */
  function DecodeAddress(v: Value, parseIpv4: string -> Option<Ipv4Addr>): (r: Result<Option<Ipv4Addr>, SerdeError>)
    ensures r == Ok(None) <==> v == Null
    ensures r.Ok? && r.value.Some? <==> v.String? && parseIpv4(v.s).Some?
    ensures r.Ok? && r.value.Some? ==> r.value == parseIpv4(v.s)
  {
    match v
    case Null => Ok(None)
    case String(text) =>
      (match parseIpv4(text)
       case None => Err(InvalidAddress(text))
       case Some(address) => Ok(Some(address)))
    case _ => Err(InvalidType)
  }

  /** Decodes the body of `PUT /mmds/config`. The empty object, and an
      explicit `null` address, reset the address to the default; a string
      address must parse; any other member is refused. */
  function DecodeConfig(v: Value, parseIpv4: string -> Option<Ipv4Addr>): (r: Result<MmdsConfig, SerdeError>)
    ensures r.Ok? <==>
      && v.Object?
      && (v.members == []
          || (&& |v.members| == 1
              && v.members[0].0 == "ipv4_address"
              && DecodeAddress(v.members[0].1, parseIpv4).Ok?))
    ensures r == Ok(MmdsConfig(None)) <==>
      v == Object([]) || v == Object([("ipv4_address", Null)])
    ensures r.Ok? && r.value.ipv4Address.Some? ==>
      && v.members[0].1.String?
      && r.value.ipv4Address == parseIpv4(v.members[0].1.s)
  {
    match v
    case Object(members) =>
      (match VisitField(members, "ipv4_address", x => DecodeAddress(x, parseIpv4), None)
       case Err(e) => Err(e)
       case Ok(None) => Ok(MmdsConfig(None))
       case Ok(Some(address)) => Ok(MmdsConfig(address)))
    case _ => Err(InvalidType)
  }
}
