/** The single-app diagram service (services/single_app_diagram.go): it
    checks the app id, builds and logs in a cloud controller, fetches the app
    and the listings the diagram needs, and renders the diagram. Everything
    the platform answers on the way is a parameter (`Platform`). */
module Services {
  import opened Common
  import opened CfModel
  import opened Pagination
  import opened Decoding
  import opened CloudFoundry
  import opened PlantUml

  const ConfigMissing := "a non empty config must be provided to a diagram service"
  const AppIdMissing := "a valid id for the app must be provided"

  /** The service configuration: credentials and the API URL as given. */
  datatype ServiceConfig = ServiceConfig(username: string, password: string, apiUrl: string)

  /** What the platform answers during one `GetRawDiagram`: `url.Parse`, the
      `/v2/info` reply, whether the token request can be built and the token
      reply, the v3 app reply, and the pages and entity decoders of the
      organization, space, stack and buildpack listings. */
  datatype Platform = Platform(
    parse: string -> Result<Url>,
    info: Reply<V2Info>,
    tokenRequestOk: bool,
    token: Reply<AccessTokenInfo>,
    app: Reply<App>,
    orgPages: seq<PageResult>,
    orgDecode: Decoder<OrganizationEntity>,
    spacePages: seq<PageResult>,
    spaceDecode: Decoder<SpaceEntity>,
    stackPages: seq<PageResult>,
    stackDecode: Decoder<StackEntity>,
    buildpackPages: seq<PageResult>,
    buildpackDecode: Decoder<BuildpackEntity>)

  /** Every listing the service requests comes to a last page. */
  ghost predicate ListingsEnd(p: Platform)
  {
    ConversationEnds(p.orgPages) && ConversationEnds(p.spacePages) &&
    ConversationEnds(p.stackPages) && ConversationEnds(p.buildpackPages)
  }

  /** How `GetRawDiagram` ends: it returns a diagram text and an error, or
      it panics on a nil dereference. */
  datatype RawDiagram = Returned(text: string, err: Option<Error>) | Panicked

  /** The controller configuration the service builds from its own. */
  function ControllerConfigOf(c: ServiceConfig): ControllerConfig
  {
    ControllerConfig(c.username, c.password, c.apiUrl, None)
  }

  /** `Login` sends a token request (and so may store a token). */
  predicate TokenRequested(p: Platform)
  {
    p.info.Decoded? && p.parse(p.info.value.authorizationEndpoint).Success? && p.tokenRequestOk
  }

  /** Every stage before the listings passes: an id, a valid
      configuration, a token request that is sent and answered, and the app.
      Only then are the four listings requested. */
  predicate ReachesListings(config: ServiceConfig, appId: string, p: Platform)
  {
    && appId != ""
    && CheckConfig(Some(ControllerConfigOf(config)), p.parse).Success?
    && TokenRequested(p) && !p.token.Failed() && !p.app.Failed()
  }

  /** Some listing fails in transport; its nil result is dereferenced. */
  predicate AnyFetchFails(p: Platform)
    requires ListingsEnd(p)
  {
    FetchFails(p.orgPages) || FetchFails(p.spacePages) || FetchFails(p.stackPages) || FetchFails(p.buildpackPages)
  }

  /** The map a listing leaves in a fresh controller: loaded when every
      entity decodes, still nil otherwise. */
  ghost function LoadedMap<E>(resources: map<string, Resource>, decode: Decoder<E>): Option<map<string, Info<E>>>
  {
    if AllDecode(resources, decode) then Some(GuidMap(resources, decode)) else None
  }

  /** The outcome of `GetRawDiagram`, stage by stage: the id check, the
      controller's configuration check, the login and the app; the rest is
      `ListedOutcome`. */
  ghost function RawDiagramOf(config: ServiceConfig, appId: string, p: Platform): RawDiagram
    requires ReachesListings(config, appId, p) ==> ListingsEnd(p)
  {
    var checked := CheckConfig(Some(ControllerConfigOf(config)), p.parse);
    if appId == "" then Returned("", Some(Error(AppIdMissing)))
    else if checked.Failure? then Returned("", Some(checked.error))
    // Without a token request `Login` succeeds without a token, which
    // `GetV3App` dereferences.
    else if !TokenRequested(p) then Panicked
    else if p.token.Failed() then Returned("", Some(p.token.err))
    else if p.app.Failed() then Returned("", Some(p.app.err))
    else ListedOutcome(p, p.app.value)
  }

  /** The four listings, whose own errors are dropped, then the rendering. */
  ghost function ListedOutcome(p: Platform, app: App): RawDiagram
    requires ListingsEnd(p)
  {
    if AnyFetchFails(p) then Panicked
    else Rendered(LoadedMap(Fetched(p.spacePages), p.spaceDecode), LoadedMap(Fetched(p.orgPages), p.orgDecode), app)
  }

  /** The renderer's outcome on the loaded maps: it panics on a nil map or a
      missing space or organization. */
  function Rendered(spaces: Option<map<string, SpaceInfo>>, orgs: Option<map<string, OrganizationInfo>>, app: App): RawDiagram
  {
    if spaces.None? || orgs.None? || !SingleAppRenderable(spaces.value, orgs.value, app) then Panicked
    else Returned(Concat(SingleAppLines(Skin, spaces.value, orgs.value, app)), None)
  }

  class SingleAppDiagramService {
    const config: ServiceConfig

    constructor (config: ServiceConfig)
      ensures this.config == config
    {
      this.config := config;
    }

    /** `GetRawDiagram`: the diagram of the app with id `appId`. */
    method GetRawDiagram(appId: string, p: Platform) returns (outcome: RawDiagram)
      requires ReachesListings(config, appId, p) ==> ListingsEnd(p)
      ensures outcome == RawDiagramOf(config, appId, p)
    {
      if appId == "" {
        return Returned("", Some(Error(AppIdMissing)));
      }

      var controller, err := NewCloudController(ControllerConfigOf(config), p.parse);
      if err.Some? {
        return Returned("", err);
      }

      var sent;
      err, sent := controller.Login(p.info, p.parse, p.tokenRequestOk, p.token);
      if err.Some? {
        return Returned("", err);
      }
      if controller.accessToken.None? {
        return Panicked;
      }

      var app, request;
      app, err, request := controller.GetV3App(appId, p.app);
      if err.Some? {
        return Returned("", err);
      }

      outcome := ListAndRender(controller, app.value, p);
    }

    /** The rest of `GetRawDiagram` on a logged-in controller with no maps
        loaded: the four listings, then the single-app diagram of `app`. */
    method ListAndRender(controller: CloudController, app: App, p: Platform) returns (outcome: RawDiagram)
      requires ListingsEnd(p) && controller.accessToken.Some?
      requires controller.organizationMap == None && controller.spaceMap == None
      modifies controller`organizationMap, controller`spaceMap, controller`stackMap, controller`buildpackMap
      ensures outcome == ListedOutcome(p, app)
    {
      // Each listing's error is dropped: the checks after the calls test the
      // error of `GetV3App` again.
      if FetchFails(p.orgPages) {
        return Panicked;
      }
      var dropped, sent := controller.GetOrganizations(p.orgPages, p.orgDecode);
      ghost var orgs := controller.organizationMap;
      assert orgs == LoadedMap(Fetched(p.orgPages), p.orgDecode);
      if FetchFails(p.spacePages) {
        return Panicked;
      }
      dropped, sent := controller.GetSpaces(p.spacePages, p.spaceDecode);
      ghost var spaces := controller.spaceMap;
      assert spaces == LoadedMap(Fetched(p.spacePages), p.spaceDecode);
      if FetchFails(p.stackPages) {
        return Panicked;
      }
      dropped, sent := controller.GetStacks(p.stackPages, p.stackDecode);
      if FetchFails(p.buildpackPages) {
        return Panicked;
      }
      dropped, sent := controller.GetBuildpacks(p.buildpackPages, p.buildpackDecode);
      assert controller.organizationMap == orgs && controller.spaceMap == spaces;
      assert ListedOutcome(p, app) == Rendered(spaces, orgs, app);

      var renderer := new PlantUml(controller);
      if controller.spaceMap.None? || controller.organizationMap.None? ||
         !SingleAppRenderable(controller.spaceMap.value, controller.organizationMap.value, app)
      {
        return Panicked;
      }
      var text := renderer.CreateSingleAppDiagram(app);
      return Returned(text, None);
    }
  }

  /** `NewSingleAppDiagramService`: a service over the given configuration,
      which must be present. */
  method NewSingleAppDiagramService(c: Option<ServiceConfig>) returns (s: SingleAppDiagramService?, err: Option<Error>)
    ensures c.None? ==> s == null && err == Some(Error(ConfigMissing))
    ensures c.Some? ==> s != null && fresh(s) && s.config == c.value && err == None
  {
    if c.None? {
      return null, Some(Error(ConfigMissing));
    }
    s := new SingleAppDiagramService(c.value);
    err := None;
  }
}
