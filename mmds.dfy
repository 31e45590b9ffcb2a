/** The MMDS request translator of the API server: turns `GET`, `PUT` and
    `PATCH` requests on `/mmds` (with an optional second path segment and a
    raw body) into a `ParsedRequest` or an `Error`, and counts each request,
    and each refused `PUT` or `PATCH`, in the request metrics.

    Each operation is given twice: as a function (`GetOutcome`, `PutOutcome`,
    `PatchOutcome`) that says what the result is and which counters are
    incremented, in order, and whose contract states the translator's
    promises; and as a method (`ParseGetMmds`, `ParsePutMmds`,
    `ParsePatchMmds`) that does the work step by step on a `Metrics` object
    and is proved to agree with the function. */
module Mmds {
  import opened Wrappers
  import opened Json
  import opened Metrics
  import opened Targets
  import opened Req = ParsedRequest

  /** `serde_json::from_slice` at the three target types the translator
      asks for: any JSON document, an MMDS configuration, and a version
      selector. Each either yields a value or says why it could not. */
  datatype Decoders = Decoders(
    document: Body -> Result<Value, SerdeError>,
    config: Body -> Result<MmdsConfig, SerdeError>,
    versionType: Body -> Result<MmdsVersionType, SerdeError>)

  /** The decoders obtained from a JSON parser `parse` and an IPv4 address
      parser: the document is the parse tree itself, and the typed targets
      are read off the parse tree by their derived deserializers. A body
      that is not JSON fails every target with the parser's own error; a
      body accepted as a version selector is exactly that selector's
      encoding; a body accepted as a configuration is a JSON object. */
  function SerdeDecoders(parse: Body -> Result<Value, SerdeError>,
                         parseIpv4: string -> Option<Ipv4Addr>): (d: Decoders)
    ensures forall body :: parse(body).Err? ==>
      && d.document(body) == Err(parse(body).error)
      && d.config(body) == Err(parse(body).error)
      && d.versionType(body) == Err(parse(body).error)
    ensures forall body :: d.versionType(body).Ok? ==>
      parse(body) == Ok(EncodeVersionType(d.versionType(body).value))
    ensures forall body :: d.config(body).Ok? ==>
      parse(body).Ok? && parse(body).value.Object?
  {
    Decoders(
      parse,
      body => match parse(body)
              case Err(e) => Err(e)
              case Ok(v) => DecodeConfig(v, parseIpv4),
      body => match parse(body)
              case Err(e) => Err(e)
              case Ok(v) => DecodeVersionType(v))
  }

  // ---------------------------------------------------------------------
  // Error messages for a path segment the translator does not know

  function PathPrefix(verb: string): string {
    "Unrecognized " + verb + " request path `"
  }

  /** The message returned for an unknown second path segment `token` of a
      `verb` request. */
  function UnrecognizedPath(verb: string, token: string): string {
    PathPrefix(verb) + token + "`."
  }

  /** Reads the offending path segment back out of such a message. */
  function PathOfMessage(verb: string, message: string): Option<string> {
    var prefix := PathPrefix(verb);
    if |prefix| + 2 <= |message|
       && message[..|prefix|] == prefix
       && message[|message| - 2..] == "`."
    then Some(message[|prefix|..|message| - 2])
    else None
  }

  /** `token` occurs in `message` from position `i` on. */
  predicate OccursAt(message: string, token: string, i: nat) {
    i + |token| <= |message| && message[i..i + |token|] == token
  }

  /** `token` occurs somewhere in `message`. */
  ghost predicate Mentions(message: string, token: string) {
    exists i: nat :: OccursAt(message, token, i)
  }

  /** The message names the offending segment verbatim. */
  lemma MessageNamesToken(verb: string, token: string)
    ensures Mentions(UnrecognizedPath(verb, token), token)
  {
    var message, k := UnrecognizedPath(verb, token), |PathPrefix(verb)|;
    assert OccursAt(message, token, k);
  }

  /** The segment can be recovered from the message, whatever characters it
      holds. */
  lemma MessageRoundTrip(verb: string, token: string)
    ensures PathOfMessage(verb, UnrecognizedPath(verb, token)) == Some(token)
  {
  }

  /** Different segments give different messages. */
  lemma MessageInjective(verb: string, token1: string, token2: string)
    requires UnrecognizedPath(verb, token1) == UnrecognizedPath(verb, token2)
    ensures token1 == token2
  {
    MessageRoundTrip(verb, token1);
    MessageRoundTrip(verb, token2);
  }

  /** A refusal of an unknown path segment: a `BadRequest` whose message
      names the segment and gives it back. */
  ghost predicate RefusesPath(e: Error, verb: string, token: string) {
    && e.Generic?
    && e.status == BadRequest
    && Mentions(e.message, token)
    && PathOfMessage(verb, e.message) == Some(token)
  }

  // ---------------------------------------------------------------------
  // What each request yields

  /** The result of translating one request, and the counters it increments,
      in the order it increments them. */
  datatype Outcome = Outcome(result: Result<ParsedRequest, Error>, incs: seq<Counter>)

  /** `GET /mmds[/token]`. Only the bare path is counted; `/version` is
      answered without touching any counter. */
  function GetOutcome(token: Option<string>): (o: Outcome)
    ensures Tally(o.incs, GetMmdsCount) == (if token.None? then 1 else 0)
    ensures forall c :: c != GetMmdsCount ==> Tally(o.incs, c) == 0
    ensures o.result.Ok? <==> token.None? || token == Some("version")
    ensures token.None? ==> o.result == Ok(Queued(GetMMDS))
    ensures token == Some("version") ==> o.result == Ok(Queued(GetMMDSVersion))
    ensures o.result.Err? ==> RefusesPath(o.result.error, "GET", token.value)
  {
    match token
    case None => Outcome(Ok(Queued(GetMMDS)), [GetMmdsCount])
    case Some(t) =>
      if t == "version" then Outcome(Ok(Queued(GetMMDSVersion)), [])
      else
        MessageNamesToken("GET", t);
        MessageRoundTrip("GET", t);
        Outcome(Err(Generic(BadRequest, UnrecognizedPath("GET", t))), [])
  }

  /** The segments `PUT` recognises: none, `config` and `version`. */
  predicate PutRecognizes(token: Option<string>) {
    token.None? || token == Some("config") || token == Some("version")
  }

  /** `PUT /mmds[/token]`. Every call is counted, first; every refusal is
      counted once as a failure. Only a decoded configuration is handed on
      synchronously. On an unknown segment the body is not looked at. */
  function PutOutcome(decoders: Decoders, body: Body, token: Option<string>): (o: Outcome)
    ensures |o.incs| > 0 && o.incs[0] == PutMmdsCount
    ensures Tally(o.incs, PutMmdsCount) == 1
    ensures Tally(o.incs, PutMmdsFails) == (if o.result.Err? then 1 else 0)
    ensures forall c :: c != PutMmdsCount && c != PutMmdsFails ==> Tally(o.incs, c) == 0
    ensures o.result.Ok? && o.result.value.Sync? <==>
      token == Some("config") && decoders.config(body).Ok?
    ensures token.None? ==>
      && (o.result.Ok? <==> decoders.document(body).Ok?)
      && (o.result.Ok? ==> o.result.value == Queued(PutMMDS(decoders.document(body).value)))
      && (o.result.Err? ==> o.result.error == SerdeJson(decoders.document(body).error))
    ensures token == Some("config") ==>
      && (o.result.Ok? <==> decoders.config(body).Ok?)
      && (o.result.Ok? ==> o.result.value == Sync(SetMmdsConfiguration(decoders.config(body).value)))
      && (o.result.Err? ==> o.result.error == SerdeJson(decoders.config(body).error))
    ensures token == Some("version") ==>
      && (o.result.Ok? <==> decoders.versionType(body).Ok?)
      && (o.result.Ok? ==> o.result.value == Queued(SetMMDSVersion(decoders.versionType(body).value.version)))
      && (o.result.Err? ==> o.result.error == SerdeJson(decoders.versionType(body).error))
    ensures !PutRecognizes(token) ==> o.result.Err? && RefusesPath(o.result.error, "PUT", token.value)
  {
    match token
    case None =>
      (match decoders.document(body)
       case Err(e) => Outcome(Err(SerdeJson(e)), [PutMmdsCount, PutMmdsFails])
       case Ok(document) => Outcome(Ok(Queued(PutMMDS(document))), [PutMmdsCount]))
    case Some(t) =>
      if t == "config" then
        match decoders.config(body)
        case Err(e) => Outcome(Err(SerdeJson(e)), [PutMmdsCount, PutMmdsFails])
        case Ok(config) => Outcome(Ok(Sync(SetMmdsConfiguration(config))), [PutMmdsCount])
      else if t == "version" then
        match decoders.versionType(body)
        case Err(e) => Outcome(Err(SerdeJson(e)), [PutMmdsCount, PutMmdsFails])
        case Ok(versionType) => Outcome(Ok(Queued(SetMMDSVersion(versionType.version))), [PutMmdsCount])
      else
        MessageNamesToken("PUT", t);
        MessageRoundTrip("PUT", t);
        Outcome(Err(Generic(BadRequest, UnrecognizedPath("PUT", t))), [PutMmdsCount, PutMmdsFails])
  }

  /** `PATCH /mmds`. Every call is counted; a body that is not JSON is
      counted once as a failure. */
  function PatchOutcome(decoders: Decoders, body: Body): (o: Outcome)
    ensures |o.incs| > 0 && o.incs[0] == PatchMmdsCount
    ensures Tally(o.incs, PatchMmdsCount) == 1
    ensures Tally(o.incs, PatchMmdsFails) == (if o.result.Err? then 1 else 0)
    ensures forall c :: c != PatchMmdsCount && c != PatchMmdsFails ==> Tally(o.incs, c) == 0
    ensures o.result.Ok? <==> decoders.document(body).Ok?
    ensures o.result.Ok? ==> o.result.value == Queued(PatchMMDS(decoders.document(body).value))
    ensures o.result.Err? ==> o.result.error == SerdeJson(decoders.document(body).error)
  {
    match decoders.document(body)
    case Err(e) => Outcome(Err(SerdeJson(e)), [PatchMmdsCount, PatchMmdsFails])
    case Ok(patch) => Outcome(Ok(Queued(PatchMMDS(patch))), [PatchMmdsCount])
  }

  // ---------------------------------------------------------------------
  // Properties that relate several requests

  /** A configuration change is the only request handed on synchronously:
      every other accepted request is queued. */
  lemma OnlyConfigurationIsSync(decoders: Decoders, body: Body, token: Option<string>)
    ensures GetOutcome(token).result.Ok? ==> GetOutcome(token).result.value.Queued?
    ensures PatchOutcome(decoders, body).result.Ok? ==> PatchOutcome(decoders, body).result.value.Queued?
    ensures PutOutcome(decoders, body, token).result.Ok? ==>
      (PutOutcome(decoders, body, token).result.value.Sync? <==> token == Some("config"))
  {
  }

  /** A `PUT` to an unknown segment does not depend on the body, nor on how
      bodies are decoded. */
  lemma UnrecognizedPutIgnoresBody(decoders1: Decoders, body1: Body,
                                   decoders2: Decoders, body2: Body, token: string)
    requires !PutRecognizes(Some(token))
    ensures PutOutcome(decoders1, body1, Some(token)) == PutOutcome(decoders2, body2, Some(token))
  {
  }

  // ---------------------------------------------------------------------
  // The translator, step by step, on the live counters

  /** `parse_get_mmds`. */
  method ParseGetMmds(metrics: Metrics, token: Option<string>) returns (r: Result<ParsedRequest, Error>)
    modifies metrics
    ensures r == GetOutcome(token).result
    ensures metrics.Snapshot() == AfterIncs(old(metrics.Snapshot()), GetOutcome(token).incs)
  {
    if token.None? {
      metrics.Inc(GetMmdsCount);
      r := Ok(Queued(GetMMDS));
    } else if token.value == "version" {
      r := Ok(Queued(GetMMDSVersion));
    } else {
      r := Err(Generic(BadRequest, UnrecognizedPath("GET", token.value)));
    }
  }

  /** `parse_put_mmds`. */
  method ParsePutMmds(metrics: Metrics, decoders: Decoders, body: Body, token: Option<string>)
    returns (r: Result<ParsedRequest, Error>)
    modifies metrics
    ensures r == PutOutcome(decoders, body, token).result
    ensures metrics.Snapshot() == AfterIncs(old(metrics.Snapshot()), PutOutcome(decoders, body, token).incs)
  {
    metrics.Inc(PutMmdsCount);
    if token.None? {
      var decoded := decoders.document(body);
      if decoded.Err? {
        metrics.Inc(PutMmdsFails);
        return Err(SerdeJson(decoded.error));
      }
      r := Ok(Queued(PutMMDS(decoded.value)));
    } else if token.value == "config" {
      var decoded := decoders.config(body);
      if decoded.Err? {
        metrics.Inc(PutMmdsFails);
        return Err(SerdeJson(decoded.error));
      }
      r := Ok(Sync(SetMmdsConfiguration(decoded.value)));
    } else if token.value == "version" {
      var decoded := decoders.versionType(body);
      if decoded.Err? {
        metrics.Inc(PutMmdsFails);
        return Err(SerdeJson(decoded.error));
      }
      r := Ok(Queued(SetMMDSVersion(decoded.value.version)));
    } else {
      metrics.Inc(PutMmdsFails);
      r := Err(Generic(BadRequest, UnrecognizedPath("PUT", token.value)));
    }
  }

  /** `parse_patch_mmds`. */
  method ParsePatchMmds(metrics: Metrics, decoders: Decoders, body: Body) returns (r: Result<ParsedRequest, Error>)
    modifies metrics
    ensures r == PatchOutcome(decoders, body).result
    ensures metrics.Snapshot() == AfterIncs(old(metrics.Snapshot()), PatchOutcome(decoders, body).incs)
  {
    metrics.Inc(PatchMmdsCount);
    var decoded := decoders.document(body);
    if decoded.Err? {
      metrics.Inc(PatchMmdsFails);
      return Err(SerdeJson(decoded.error));
    }
    r := Ok(Queued(PatchMMDS(decoded.value)));
  }
}
