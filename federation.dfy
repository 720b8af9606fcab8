/** The federation orchestrator of the schema API
    (packages/services/api/src/modules/schema/providers/orchestrators/federation.ts):
    it checks the project's external-composition setting, shapes the
    schemas into a request and hands it to the remote schema service,
    which is modelled as a set of functions that may fail. */
module Federation {
  import opened Seqs

  /** A project's `externalComposition` setting (the project may have none). */
  datatype ExternalComposition = ExternalComposition(enabled: bool, endpoint: Option<string>, encryptedSecret: Option<string>)

  /** The configuration sent to the schema service. */
  datatype ExternalCompositionConfig = ExternalCompositionConfig(endpoint: string, encryptedSecret: string)

  datatype Error =
    | ConfigurationError(message: string)
    | ServiceError(reason: string)
    | SchemaBuildError(cause: Error)

  datatype Outcome<+T> = Ok(value: T) | Err(error: Error)

  const EndpointMissing := "External composition error: endpoint is missing"
  const SecretMissing := "External composition error: encryptedSecret is missing"

  /** A JavaScript-truthy optional string: present and non-empty. */
  predicate Truthy(s: Option<string>) {
    s.Some? && s.value != ""
  }

  /** createConfig: `null` unless external composition is enabled; when it
      is, the endpoint is checked before the secret, and both are passed on. */
  function CreateConfig(config: Option<ExternalComposition>): (r: Outcome<Option<ExternalCompositionConfig>>)
    ensures (config.None? || !config.value.enabled) ==> r == Ok(None)
    ensures config.Some? && config.value.enabled && !Truthy(config.value.endpoint) ==> r == Err(ConfigurationError(EndpointMissing))
    ensures config.Some? && config.value.enabled && Truthy(config.value.endpoint) && !Truthy(config.value.encryptedSecret)
            ==> r == Err(ConfigurationError(SecretMissing))
    ensures r.Ok? && r.value.Some? ==>
              && config.Some? && config.value.enabled
              && config.value.endpoint == Some(r.value.value.endpoint) && r.value.value.endpoint != ""
              && config.value.encryptedSecret == Some(r.value.value.encryptedSecret) && r.value.value.encryptedSecret != ""
  {
    if config.Some? && config.value.enabled then
      if !Truthy(config.value.endpoint) then Err(ConfigurationError(EndpointMissing))
      else if !Truthy(config.value.encryptedSecret) then Err(ConfigurationError(SecretMissing))
      else Ok(Some(ExternalCompositionConfig(config.value.endpoint.value, config.value.encryptedSecret.value)))
    else Ok(None)
  }

  /** An enabled setting with both fields present is accepted as it is. */
  lemma CreateConfigAccepts(endpoint: string, secret: string)
    requires endpoint != "" && secret != ""
    ensures CreateConfig(Some(ExternalComposition(true, Some(endpoint), Some(secret))))
            == Ok(Some(ExternalCompositionConfig(endpoint, secret)))
  {
  }

  /** A stored schema of one service. */
  datatype SchemaObject = SchemaObject(raw: string, source: string, url: Option<string>)

  /** A schema as sent for validation or building: no url. */
  datatype SchemaInput = SchemaInput(raw: string, source: string)

  /** A schema as sent for the supergraph: its url, or null. */
  datatype SupergraphSchemaInput = SupergraphSchemaInput(raw: string, source: string, url: Option<string>)

  /** The body of a schema service call (`type` is always "federation"). */
  datatype Request<S> = Request(compositionType: string, schemas: seq<S>, external: Option<ExternalCompositionConfig>)

  datatype ValidateResponse = ValidateResponse(errors: seq<string>)
  datatype BuildResponse = BuildResponse(raw: string, source: string)
  datatype SupergraphResponse = SupergraphResponse(supergraph: Option<string>)

  /** The remote schema service: each endpoint answers a request or fails. */
  datatype SchemaService = SchemaService(
    validate: Request<SchemaInput> -> Outcome<ValidateResponse>,
    build: Request<SchemaInput> -> Outcome<BuildResponse>,
    supergraph: Request<SupergraphSchemaInput> -> Outcome<SupergraphResponse>)

  /** What an orchestrator call did: the request it sent, if any, and what
      it returned or threw. */
  datatype Call<S, T> = Call(sent: Option<Request<S>>, result: Outcome<T>)

  /** `schemas.map(s => ({ raw: s.raw, source: s.source }))`. */
  function ShapeSchemas(schemas: seq<SchemaObject>): (r: seq<SchemaInput>)
    ensures |r| == |schemas|
    ensures forall i :: 0 <= i < |schemas| ==> r[i].raw == schemas[i].raw && r[i].source == schemas[i].source
  {
    seq(|schemas|, i requires 0 <= i < |schemas| => SchemaInput(schemas[i].raw, schemas[i].source))
  }

  /** `s.url || null`: a missing or empty url is sent as null. */
  function UrlOrNull(url: Option<string>): (r: Option<string>)
    ensures r.Some? <==> Truthy(url)
    ensures r.Some? ==> r == url
  {
    if Truthy(url) then url else None
  }

  /** The supergraph request's schemas: raw, source and url. */
  function ShapeSupergraphSchemas(schemas: seq<SchemaObject>): (r: seq<SupergraphSchemaInput>)
    ensures |r| == |schemas|
    ensures forall i :: 0 <= i < |schemas| ==>
              && r[i].raw == schemas[i].raw && r[i].source == schemas[i].source
              && (r[i].url.Some? <==> Truthy(schemas[i].url))
              && (r[i].url.Some? ==> r[i].url == schemas[i].url)
  {
    seq(|schemas|, i requires 0 <= i < |schemas| =>
      SupergraphSchemaInput(schemas[i].raw, schemas[i].source, UrlOrNull(schemas[i].url)))
  }

  /** validate: the configuration is checked before the request is sent;
      the service's errors are returned as they are and failures are not
      wrapped. */
  function Validate(service: SchemaService, schemas: seq<SchemaObject>, external: Option<ExternalComposition>)
    : (r: Call<SchemaInput, seq<string>>)
    ensures CreateConfig(external).Err? ==> r.sent.None? && r.result == Err(CreateConfig(external).error)
    ensures CreateConfig(external).Ok? ==>
              && r.sent == Some(Request("federation", ShapeSchemas(schemas), CreateConfig(external).value))
              && (service.validate(r.sent.value).Ok? ==> r.result == Ok(service.validate(r.sent.value).value.errors))
              && (service.validate(r.sent.value).Err? ==> r.result == Err(service.validate(r.sent.value).error))
  {
    match CreateConfig(external)
    case Err(e) => Call(None, Err(e))
    case Ok(config) =>
      var request := Request("federation", ShapeSchemas(schemas), config);
      match service.validate(request)
      case Ok(response) => Call(Some(request), Ok(response.errors))
      case Err(e) => Call(Some(request), Err(e))
  }

  /** build: every failure, a configuration error included, is rethrown as
      a SchemaBuildError carrying the original error. */
  function Build(service: SchemaService, schemas: seq<SchemaObject>, external: Option<ExternalComposition>)
    : (r: Call<SchemaInput, BuildResponse>)
    ensures r.result.Err? ==> r.result.error.SchemaBuildError?
    ensures CreateConfig(external).Err? ==> r.sent.None? && r.result == Err(SchemaBuildError(CreateConfig(external).error))
    ensures CreateConfig(external).Ok? ==>
              && r.sent == Some(Request("federation", ShapeSchemas(schemas), CreateConfig(external).value))
              && (service.build(r.sent.value).Ok? ==> r.result == service.build(r.sent.value))
              && (service.build(r.sent.value).Err? ==> r.result == Err(SchemaBuildError(service.build(r.sent.value).error)))
  {
    match CreateConfig(external)
    case Err(e) => Call(None, Err(SchemaBuildError(e)))
    case Ok(config) =>
      var request := Request("federation", ShapeSchemas(schemas), config);
      match service.build(request)
      case Ok(response) => Call(Some(request), Ok(response))
      case Err(e) => Call(Some(request), Err(SchemaBuildError(e)))
  }

  /** supergraph: like validate, with each schema's url in the request. */
  function Supergraph(service: SchemaService, schemas: seq<SchemaObject>, external: Option<ExternalComposition>)
    : (r: Call<SupergraphSchemaInput, Option<string>>)
    ensures CreateConfig(external).Err? ==> r.sent.None? && r.result == Err(CreateConfig(external).error)
    ensures CreateConfig(external).Ok? ==>
              && r.sent == Some(Request("federation", ShapeSupergraphSchemas(schemas), CreateConfig(external).value))
              && (service.supergraph(r.sent.value).Ok? ==> r.result == Ok(service.supergraph(r.sent.value).value.supergraph))
              && (service.supergraph(r.sent.value).Err? ==> r.result == Err(service.supergraph(r.sent.value).error))
  {
    match CreateConfig(external)
    case Err(e) => Call(None, Err(e))
    case Ok(config) =>
      var request := Request("federation", ShapeSupergraphSchemas(schemas), config);
      match service.supergraph(request)
      case Ok(response) => Call(Some(request), Ok(response.supergraph))
      case Err(e) => Call(Some(request), Err(e))
  }

  /** The example of an enabled setting with an endpoint but no secret: no
      build request is sent and the configuration error is reported. */
  lemma BuildWithoutSecret(service: SchemaService, schemas: seq<SchemaObject>, endpoint: string)
    requires endpoint != ""
    ensures var r := Build(service, schemas, Some(ExternalComposition(true, Some(endpoint), None)));
            r.sent.None? && r.result == Err(SchemaBuildError(ConfigurationError(SecretMissing)))
  {
  }
}
