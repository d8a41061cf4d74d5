/** The records the Cloud Controller adapter reads and builds. Only the fields
    the renderer and the control flow look at are kept. */
module CfModel {
  import opened Common

  /** An undecoded JSON document (`json.RawMessage`). */
  type RawJson = string

  /** The `metadata` part of a v2 resource envelope. */
  datatype Metadata = Metadata(guid: string, createdAt: string, updatedAt: string)

  /** A v2 resource envelope: metadata plus the entity still undecoded. */
  datatype Resource = Resource(metadata: Metadata, entity: RawJson)

  /** A decoded record (`AppInfo`, `SpaceInfo`, ...): the envelope's metadata
      and the typed entity. */
  datatype Info<E> = Info(metadata: Metadata, entity: E)

  datatype AppEntity = AppEntity(name: string, spaceGuid: string, detectedBuildpackGuid: string)
  datatype OrganizationEntity = OrganizationEntity(name: string)
  datatype SpaceEntity = SpaceEntity(name: string, organizationGuid: string)
  datatype StackEntity = StackEntity(name: string, description: string)
  datatype BuildpackEntity = BuildpackEntity(name: string, stack: string)
  datatype QuotaDefinitionEntity = QuotaDefinitionEntity(name: string)

  type AppInfo = Info<AppEntity>
  type OrganizationInfo = Info<OrganizationEntity>
  type SpaceInfo = Info<SpaceEntity>
  type StackInfo = Info<StackEntity>
  type BuildpackInfo = Info<BuildpackEntity>
  type QuotaDefinitionInfo = Info<QuotaDefinitionEntity>

  /** A partial JSON decoder for one entity type (`json.Unmarshal`). */
  type Decoder<E> = RawJson -> Result<E>

  /** The v3 app, with its lifecycle and its space relationship. */
  datatype App = App(
    guid: string,
    name: string,
    state: string,
    createdAt: string,
    updatedAt: string,
    lifecycle: Lifecycle,
    relationships: Relationships)

  /** `lifecycle.type` is "buildpack" or "docker". */
  datatype Lifecycle = Lifecycle(kind: string, data: LifecycleData)
  datatype LifecycleData = LifecycleData(buildpacks: seq<string>, stack: string)
  /** `relationships.space.data.guid`. */
  datatype Relationships = Relationships(spaceGuid: string)

  /** A parsed URL, known by its serialisation (`URL.String()`). */
  datatype Url = Url(text: string)

  /** Where a request goes: `base.ResolveReference(&url.URL{Path: path})` with
      a raw query, left unevaluated, or the result of `url.Parse(text)`. */
  datatype Target = Resolved(base: Url, path: string, rawQuery: string) | Parsed(text: string)

  /** An HTTP request as the adapter builds it. */
  datatype Request = Request(
    verb: string,
    target: Target,
    headers: map<string, string>,
    basicAuth: Option<(string, string)>,
    body: string)

  /** The outcome of one HTTP exchange followed by decoding its body. */
  datatype Reply<T> = TransportError(err: Error) | Undecodable(err: Error) | Decoded(value: T)
  {
    predicate Failed() { !Decoded? }
  }

  /** `/v2/info`, of which `Login` reads the authorization endpoint. */
  datatype V2Info = V2Info(authorizationEndpoint: string, tokenEndpoint: string)

  datatype AccessTokenInfo = AccessTokenInfo(
    accessToken: string,
    tokenType: string,
    refreshToken: string,
    expiresIn: int,
    scope: string)

  /** `CloudControllerConfig`: the credentials, the API URL as given, and the
      URL parsed from it once the configuration has been checked. */
  datatype ControllerConfig = ControllerConfig(
    username: string,
    password: string,
    apiUrlString: string,
    apiUrl: Option<Url>)
}
