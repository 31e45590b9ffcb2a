# MMDS request translator

A Dafny model of the API server's translator for requests to the microVM
metadata service (MMDS), `src/api_server/src/request/mmds.rs`. The translator
takes an HTTP method (GET, PUT or PATCH), an optional second path segment
after `/mmds` and a raw body. It produces either a `ParsedRequest` for the
VMM or an `Error`, and along the way it increments the MMDS request counters
of the process-wide metrics.

Layout:

- `wrappers.dfy`: `Option` and `Result`.
- `json.dfy`: the JSON document tree (`Json.Value`), the raw `Body` and the
  decode errors (`SerdeError`).
- `metrics.dfy`: the five MMDS counters. A `Counters` snapshot is a value,
  `Tally` counts a counter's occurrences in a trace of increments, and
  `AfterIncs` applies a trace. The `Metrics` class holds the live counters
  and has an `Inc` method.
- `targets.dfy`: the typed PUT bodies, `MmdsConfig` and `MmdsVersionType`.
  It also says how a derived deserializer reads them off a JSON document.
  Both are one-field structs that refuse unknown and duplicate members.
- `parsed_request.dfy`: `RequestAction`, `VmmAction`, `ParsedRequest` and
  `Error` (module `ParsedRequest`). A request is `Queued` when built by `ParsedRequest::new` and
  `Sync` when built by `ParsedRequest::new_sync`.
- `mmds.dfy`: the translator. `GetOutcome`, `PutOutcome` and `PatchOutcome`
  are functions that give the result and the ordered trace of counter
  increments, and their contracts state what the translator promises.
  `ParseGetMmds`, `ParsePutMmds` and `ParsePatchMmds` do the work step by
  step on a `Metrics` object, and are proved to return the function's result
  and to leave the counters at `AfterIncs(old counters, trace)`.
- `mmds_tests.dfy`: the source's unit tests, stated for every body of the
  shape they use.

Body decoding (`serde_json::from_slice`) is a parameter: a `Decoders` record
of three total functions from body bytes to a value or a `SerdeError`. The
translator's properties hold for any decoders. `SerdeDecoders(parse,
parseIpv4)` builds the concrete instance used by the tests. It takes an
arbitrary JSON parser and an arbitrary IPv4 address parser, and reads the
typed targets off the parse tree.

An empty address is not a reset. The test at
`src/api_server/src/request/mmds.rs:109-112` shows that `{"ipv4_address": ""}`
is refused, and lines 114-116 show that `{}` resets the address. The model
refuses an empty string exactly when the address parser `parseIpv4` does, and
treats `{}` or a `null` address as the reset.

## Model

| member | source | states |
|---|---|---|
| `Metrics.Counters.Incremented` | src/api_server/src/request/mmds.rs:14 | one `inc()` raises that counter by exactly one and leaves every other counter as it was |
| `Metrics.AfterIncs` | src/api_server/src/request/mmds.rs:29-35 | applying a trace of increments in order raises each counter by the number of times it occurs in the trace, and by nothing else |
| `Metrics.Metrics.Inc` | src/api_server/src/request/mmds.rs:64 | on the live counters, `inc()` moves the named counter up by one and no other counter |
| `Mmds.MessageNamesToken` | src/api_server/src/request/mmds.rs:18-21 | the "Unrecognized … request path" message contains the offending segment verbatim |
| `Mmds.MessageRoundTrip` | src/api_server/src/request/mmds.rs:53-58 | the offending segment can be read back out of the message, whatever characters it holds |
| `Mmds.MessageInjective` | src/api_server/src/request/mmds.rs:55-58 | two different segments never produce the same message |
| `Mmds.GetOutcome` | src/api_server/src/request/mmds.rs:11-23 | a bare GET is a queued `GetMMDS` and counts one GET. GET `version` is a queued `GetMMDSVersion` and touches no counter. Any other segment is a `BadRequest` that names the segment, and touches no counter |
| `Mmds.PutOutcome` | src/api_server/src/request/mmds.rs:25-61 | every PUT counts one PUT first. It counts one failure exactly when it is refused. On none, `config` and `version` it succeeds exactly when that path's decoder accepts the body, carries the decoded value, and otherwise returns the decoder's own error. Only a decoded `config` yields a synchronous request. Any other segment is a `BadRequest` that names the segment |
| `Mmds.PatchOutcome` | src/api_server/src/request/mmds.rs:63-71 | every PATCH counts one PATCH. It succeeds exactly when the body decodes, giving a queued `PatchMMDS` of the decoded document. Otherwise it returns the decoder's error and counts one failure |
| `Mmds.OnlyConfigurationIsSync` | src/api_server/src/request/mmds.rs:31-52 | across GET, PUT and PATCH, the only accepted request built with `new_sync` is PUT `config`; every other accepted request is queued |
| `Mmds.UnrecognizedPutIgnoresBody` | src/api_server/src/request/mmds.rs:53-59 | a PUT to an unknown segment has the same result and counter trace whatever the body and decoders are, so the body is never decoded |
| `Mmds.ParseGetMmds` | src/api_server/src/request/mmds.rs:11-23 | `parse_get_mmds` returns `GetOutcome`'s result and moves the live counters by exactly its trace |
| `Mmds.ParsePutMmds` | src/api_server/src/request/mmds.rs:25-61 | `parse_put_mmds` returns `PutOutcome`'s result and moves the live counters by exactly its trace |
| `Mmds.ParsePatchMmds` | src/api_server/src/request/mmds.rs:63-71 | `parse_patch_mmds` returns `PatchOutcome`'s result and moves the live counters by exactly its trace |
| `Targets.DecodeVersion` | src/api_server/src/request/mmds.rs:119-137 | a version is accepted exactly when it is the JSON string `"V1"` or `"V2"`, and then it is that tag |
| `Targets.VisitField` | src/api_server/src/request/mmds.rs:139-143 | an object is read into a one-field struct exactly when every member has the field's name, there is at most one, and its value decodes. The result is that value, or absent |
| `Targets.DecodeVersionType` | src/api_server/src/request/mmds.rs:43-51 | a version body is accepted exactly when it is `{"version":"V1"}` or `{"version":"V2"}`, and the document is then the encoding of the decoded selector |
| `Targets.VersionTypeRoundTrip` | src/api_server/src/request/mmds.rs:118-128 | encoding a version selector and decoding it gives it back |
| `Targets.DecodeAddress` | src/api_server/src/request/mmds.rs:103-112 | `null` is an absent address, a string is accepted exactly when the address parser accepts it, and then it is the parsed address |
| `Targets.DecodeConfig` | src/api_server/src/request/mmds.rs:37-42 | a configuration body is accepted exactly when it is an object that is empty or has only a decodable `ipv4_address`. It resets the address exactly for `{}` or a `null` address, and a present address is the parsed string |
| `Mmds.SerdeDecoders` | src/api_server/src/request/mmds.rs:31-48 | `serde_json::from_slice` at the three targets: a body that is not JSON fails every target with the parser's error, an accepted version body is exactly the encoding of the selector it yields, and an accepted configuration body is a JSON object |
| `MmdsTests.ParseGetMmdsScenario` | src/api_server/src/request/mmds.rs:78-89 | on fresh counters, GET `/mmds` gives a queued `GetMMDS`, GET `/mmds/version` a queued `GetMMDSVersion`, and GET `/mmds/invalid_path` a `BadRequest`, and the GET counter ends at exactly one |
| `MmdsTests.ParsePatchMmdsScenario` | src/api_server/src/request/mmds.rs:150-158 | on fresh counters, PATCH with `{"foo":"bar"}` gives a queued `PatchMMDS` of that document and PATCH with a non-JSON body fails with the parser's error, leaving two PATCH requests and one PATCH failure counted and nothing else |
| `MmdsTests.PutDocumentExamples` | src/api_server/src/request/mmds.rs:93-100 | PUT `/mmds` stores exactly the parsed document. A body that is not JSON is refused with the parser's error and counted as a failure |
| `MmdsTests.PutConfigAddressExamples` | src/api_server/src/request/mmds.rs:103-112 | PUT `config` with an `ipv4_address` string succeeds exactly when the address parses, and is then a synchronous `SetMmdsConfiguration` with that address |
| `MmdsTests.PutConfigResetExample` | src/api_server/src/request/mmds.rs:114-116 | PUT `config` with `{}` is a synchronous configuration with no address |
| `MmdsTests.PutVersionExamples` | src/api_server/src/request/mmds.rs:118-137 | PUT `version` succeeds for `V1` and `V2` with that version, and for any other tag, including `foo` and the empty string, fails with an unknown-variant error |
| `MmdsTests.PutUnknownFieldExamples` | src/api_server/src/request/mmds.rs:139-143 | a body whose member is neither `ipv4_address` nor `version` is refused on both `config` and `version` and counted as a failure |
| `MmdsTests.PutInvalidExamples` | src/api_server/src/request/mmds.rs:144-146 | a non-JSON body is refused on `config` and `version` with the parser's error, and the segment `invalid_path` gets the exact message "Unrecognized PUT request path \`invalid_path\`." |

## Left out

- Parsing JSON text (`serde_json::from_slice` as a parser) is foreign library code. It is a parameter: the `Decoders` record, or the `parse` function given to `SerdeDecoders`.
- Parsing an IPv4 address from text (`Ipv4Addr`'s parser) belongs to the standard library and is a parameter (`parseIpv4`). The `MmdsConfig` type of the `vmm` crate and `MmdsVersionType` of `mmds::data_store` are not part of this model. They are modelled from their use in `mmds.rs` and its tests.
- Targets.DecodeVersionType: refuses the array form (`["V1"]`) that a derived struct deserializer also accepts, and assumes that the version selector refuses unknown members as the configuration does (lines 139-143 pin that down only for the configuration).
- Targets.DecodeVersion: refuses the map form of an enum (`{"V1": null}`) that serde also accepts.
- Targets.DecodeConfig: refuses the array form of the struct, like `DecodeVersionType`.
- Mmds.SerdeDecoders: stores, for `PUT /mmds` and `PATCH /mmds`, the document as written, with members in wire order and repeated keys kept. The source stores a `serde_json::Value`, which keeps only the last of repeated keys, orders keys by its map type and holds numbers parsed. So for `{"a":1,"a":2}` the model stores both members where the source stores `{"a":2}`. Accepting or refusing a body is not affected.
- Mmds.SerdeDecoders: parses the whole body into a document before reading the target shape. serde_json reads the shape while it parses. A body that is both malformed and of the wrong shape is refused either way, but the reported `SerdeError` may differ.
- Metrics.Metrics.Inc: counters are unbounded naturals. The source's atomic counters wrap at the machine word, which no realistic request count reaches.
- The counters are lock-free atomics shared by all request threads. Here they are plain fields of one object handed to the translator, because concurrency is out of scope.
- Picking which of the three functions handles a request (by method and path prefix) is done by the caller in `parsed_request.rs`. That file is not part of this model, and neither are `ParsedRequest`'s other contents or `Error`'s variants that this translator never returns.
- HTTP status codes other than `BadRequest`, and what the VMM does with the produced action, are outside the translator.
