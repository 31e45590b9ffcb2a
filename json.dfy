/** The JSON layer the translator relies on: a JSON document as it is
    written on the wire, the raw request body, and the reasons a decode can
    fail. Turning bytes into a tree is a foreign library and stays a
    parameter everywhere in this model. */
module Json {

  /** Raw request body, as received from the HTTP layer. */
  type Body = seq<bv8>

  /** A JSON document as it is written on the wire. Numbers keep their
      textual form, and object members keep their order and any repeated
      keys, so that a typed decoder can see them as a streaming deserializer
      does. (A `serde_json::Value` built from the same text keeps only the
      last of repeated keys; see `Mmds.SerdeDecoders`.) */
  datatype Value =
    | Null
    | Bool(b: bool)
    | Number(text: string)
    | String(s: string)
    | Array(items: seq<Value>)
    | Object(members: seq<(string, Value)>)

  /** Why a body could not be decoded into the requested shape. `Syntax` is
      what the JSON parser itself reports; the other variants are the
      complaints of a derived deserializer about a well-formed document. */
  datatype SerdeError =
    | Syntax(description: string)
    | InvalidType
    | UnknownField(field: string)
    | DuplicateField(field: string)
    | MissingField(field: string)
    | UnknownVariant(tag: string)
    | InvalidAddress(text: string)
}
