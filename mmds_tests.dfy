/** The translator's unit tests, stated for every body of the shapes they
    exercise. Bodies are decoded by `SerdeDecoders` over an arbitrary JSON
    parser `parse` and IPv4 parser `parseIpv4`; a test body is described by
    the document `parse` makes of it. */
module MmdsTests {
  import opened Wrappers
  import opened Json
  import opened Metrics
  import opened Targets
  import opened Req = ParsedRequest
  import opened Mmds

  /** GET on `/mmds`, `/mmds/version` and an unknown path, in that order,
      on fresh counters. */
  method ParseGetMmdsScenario() returns (bare: Result<ParsedRequest, Error>,
                                         version: Result<ParsedRequest, Error>,
                                         invalid: Result<ParsedRequest, Error>,
                                         getCount: nat)
    ensures bare == Ok(Queued(GetMMDS)) && version == Ok(Queued(GetMMDSVersion))
    ensures invalid.Err? && invalid.error.Generic? && invalid.error.status == BadRequest
    ensures getCount == 1
  {
    var metrics := new Metrics();
    bare := ParseGetMmds(metrics, None);
    version := ParseGetMmds(metrics, Some("version"));
    invalid := ParseGetMmds(metrics, Some("invalid_path"));
    getCount := metrics.Snapshot().getMmdsCount;
  }

  /** PATCH with a JSON body and then with a body that is not JSON, on
      fresh counters. */
  method ParsePatchMmdsScenario(parse: Body -> Result<Value, SerdeError>,
                                parseIpv4: string -> Option<Ipv4Addr>,
                                body: Body, invalidBody: Body)
    returns (accepted: Result<ParsedRequest, Error>, refused: Result<ParsedRequest, Error>,
             after: Counters)
    requires parse(body) == Ok(Object([("foo", String("bar"))]))
    requires parse(invalidBody).Err?
    ensures accepted == Ok(Queued(PatchMMDS(Object([("foo", String("bar"))]))))
    ensures refused == Err(SerdeJson(parse(invalidBody).error))
    ensures after == Counters(0, 0, 0, 2, 1)
  {
    var metrics := new Metrics();
    var decoders := SerdeDecoders(parse, parseIpv4);
    accepted := ParsePatchMmds(metrics, decoders, body);
    refused := ParsePatchMmds(metrics, decoders, invalidBody);
    after := metrics.Snapshot();
  }

  /** PUT on `/mmds` stores exactly the document that was sent; a body that
      is not JSON is refused with the parser's own error and counted as a
      failure. */
  lemma PutDocumentExamples(parse: Body -> Result<Value, SerdeError>,
                            parseIpv4: string -> Option<Ipv4Addr>, body: Body)
    ensures parse(body).Ok? ==>
      PutOutcome(SerdeDecoders(parse, parseIpv4), body, None).result == Ok(Queued(PutMMDS(parse(body).value)))
    ensures parse(body).Err? ==>
      && PutOutcome(SerdeDecoders(parse, parseIpv4), body, None).result == Err(SerdeJson(parse(body).error))
      && Tally(PutOutcome(SerdeDecoders(parse, parseIpv4), body, None).incs, PutMmdsFails) == 1
  {
  }

  /** PUT on `/mmds/config` with an address succeeds exactly when the
      address parses; an empty string is therefore refused by any parser
      that refuses it. */
  lemma PutConfigAddressExamples(parse: Body -> Result<Value, SerdeError>,
                                 parseIpv4: string -> Option<Ipv4Addr>, body: Body, text: string)
    requires parse(body) == Ok(Object([("ipv4_address", String(text))]))
    ensures PutOutcome(SerdeDecoders(parse, parseIpv4), body, Some("config")).result.Ok?
      <==> parseIpv4(text).Some?
    ensures parseIpv4(text).Some? ==>
      PutOutcome(SerdeDecoders(parse, parseIpv4), body, Some("config")).result
        == Ok(Sync(SetMmdsConfiguration(MmdsConfig(parseIpv4(text)))))
    ensures parseIpv4(text).None? ==>
      PutOutcome(SerdeDecoders(parse, parseIpv4), body, Some("config")).result
        == Err(SerdeJson(InvalidAddress(text)))
  {
  }

  /** PUT on `/mmds/config` with `{}` resets the address. */
  lemma PutConfigResetExample(parse: Body -> Result<Value, SerdeError>,
                              parseIpv4: string -> Option<Ipv4Addr>, body: Body)
    requires parse(body) == Ok(Object([]))
    ensures PutOutcome(SerdeDecoders(parse, parseIpv4), body, Some("config")).result
      == Ok(Sync(SetMmdsConfiguration(MmdsConfig(None))))
  {
  }

  /** PUT on `/mmds/version` succeeds for the tags `V1` and `V2` and for no
      other tag (`foo`, the empty string, ...). */
  lemma PutVersionExamples(parse: Body -> Result<Value, SerdeError>,
                           parseIpv4: string -> Option<Ipv4Addr>, body: Body, tag: string)
    requires parse(body) == Ok(Object([("version", String(tag))]))
    ensures PutOutcome(SerdeDecoders(parse, parseIpv4), body, Some("version")).result.Ok?
      <==> tag == "V1" || tag == "V2"
    ensures tag == "V1" ==>
      PutOutcome(SerdeDecoders(parse, parseIpv4), body, Some("version")).result == Ok(Queued(SetMMDSVersion(V1)))
    ensures tag == "V2" ==>
      PutOutcome(SerdeDecoders(parse, parseIpv4), body, Some("version")).result == Ok(Queued(SetMMDSVersion(V2)))
    ensures tag != "V1" && tag != "V2" ==>
      PutOutcome(SerdeDecoders(parse, parseIpv4), body, Some("version")).result == Err(SerdeJson(UnknownVariant(tag)))
  {
  }

  /** A body with a member that neither target knows is refused on both
      typed paths, and counted as a failure. */
  lemma PutUnknownFieldExamples(parse: Body -> Result<Value, SerdeError>,
                                parseIpv4: string -> Option<Ipv4Addr>, body: Body,
                                key: string, value: Value)
    requires parse(body) == Ok(Object([(key, value)]))
    requires key != "ipv4_address" && key != "version"
    ensures PutOutcome(SerdeDecoders(parse, parseIpv4), body, Some("config")).result
      == Err(SerdeJson(UnknownField(key)))
    ensures PutOutcome(SerdeDecoders(parse, parseIpv4), body, Some("version")).result
      == Err(SerdeJson(UnknownField(key)))
    ensures Tally(PutOutcome(SerdeDecoders(parse, parseIpv4), body, Some("config")).incs, PutMmdsFails) == 1
    ensures Tally(PutOutcome(SerdeDecoders(parse, parseIpv4), body, Some("version")).incs, PutMmdsFails) == 1
  {
  }

  /** A body that is not JSON is refused on every recognised PUT path, and
      an unknown path is refused whatever the body. */
  lemma PutInvalidExamples(parse: Body -> Result<Value, SerdeError>,
                           parseIpv4: string -> Option<Ipv4Addr>, body: Body)
    ensures parse(body).Err? ==>
      && PutOutcome(SerdeDecoders(parse, parseIpv4), body, Some("config")).result == Err(SerdeJson(parse(body).error))
      && PutOutcome(SerdeDecoders(parse, parseIpv4), body, Some("version")).result == Err(SerdeJson(parse(body).error))
    ensures PutOutcome(SerdeDecoders(parse, parseIpv4), body, Some("invalid_path")).result
      == Err(Generic(BadRequest, "Unrecognized PUT request path `invalid_path`."))
  {
    assert PathPrefix("PUT") + "invalid_path" + "`." == "Unrecognized PUT request path `invalid_path`.";
  }
}
