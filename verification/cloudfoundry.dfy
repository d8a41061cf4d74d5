/** The Cloud Controller client (adapter/cloudfoundry): configuration checks,
    construction, login, the paginated listing, the per-type decoders that
    fill the controller's maps, and the v3 app lookup. Every HTTP exchange is
    an argument: the reply the platform gives, or for a listing the sequence
    of pages it returns. */
module CloudFoundry {
  import opened Common
  import opened CfModel
  import opened Pagination
  import opened Decoding
  import opened Forms

  const ConfigEmpty := "config cannot be empty"
  const UsernameEmpty := "username cannot be empty"
  const PasswordEmpty := "password cannot be empty"
  const ApiUrlEmpty := "apiUrl cannot be empty"

  /** `checkConfig`, applied to the caller's own copy of the configuration:
      the checks run in a fixed order and the first one that fails decides the
      error; on success the copy carries the parsed API URL. `parse` is
      `url.Parse`. */
  function CheckConfig(c: Option<ControllerConfig>, parse: string -> Result<Url>): (r: Result<ControllerConfig>)
    ensures c.None? ==> r == Failure(Error(ConfigEmpty))
    ensures c.Some? && c.value.username == "" ==> r == Failure(Error(UsernameEmpty))
    ensures c.Some? && c.value.username != "" && c.value.password == "" ==> r == Failure(Error(PasswordEmpty))
    ensures c.Some? && c.value.username != "" && c.value.password != "" && c.value.apiUrlString == "" ==>
      r == Failure(Error(ApiUrlEmpty))
    ensures r.Success? <==>
      c.Some? && c.value.username != "" && c.value.password != "" && c.value.apiUrlString != "" &&
      parse(c.value.apiUrlString).Success?
    ensures r.Success? ==>
      r.value.apiUrl == Some(parse(c.value.apiUrlString).value) &&
      r.value.(apiUrl := c.value.apiUrl) == c.value
    ensures (c.Some? && c.value.username != "" && c.value.password != "" && c.value.apiUrlString != "" &&
             parse(c.value.apiUrlString).Failure?) ==> r == Failure(parse(c.value.apiUrlString).error)
  {
    if c.None? then Failure(Error(ConfigEmpty))
    else if c.value.username == "" then Failure(Error(UsernameEmpty))
    else if c.value.password == "" then Failure(Error(PasswordEmpty))
    else if c.value.apiUrlString == "" then Failure(Error(ApiUrlEmpty))
    else
      var u := parse(c.value.apiUrlString);
      if u.Failure? then Failure(u.error)
      else Success(c.value.(apiUrl := Some(u.value)))
  }

  /** The form `Login` posts: username, password, an empty scope and the
      password grant type, one value per key in the order they are set. */
  function LoginForm(username: string, password: string): Values
  {
    [("username", username), ("password", password), ("scope", ""), ("grant_type", "password")]
  }

  /** The token request: a form post to `/oauth/token` resolved against the
      discovered authorization endpoint, with basic authentication as the
      public client `cf` with an empty secret. */
  function TokenRequest(config: ControllerConfig, endpoint: string, authUrl: Url): Request
  {
    Request(
      "POST",
      Resolved(authUrl, "/oauth/token", ""),
      map[
        "Accept" := "application/json",
        "Content-Type" := "application/x-www-form-urlencoded",
        "Host" := endpoint],
      Some(("cf", "")),
      Encode(LoginForm(config.username, config.password)))
  }

  /** The request for one v3 app. */
  function V3AppRequest(apiUrl: Url, appId: string, token: string): Request
  {
    Request(
      "GET",
      Resolved(apiUrl, "/v3/apps/" + appId, ""),
      map["Accept" := "application/json", "Authorization" := "Bearer " + token],
      None,
      "")
  }

  /** The key of every record type except stacks. */
  function Guid<E>(i: Info<E>): string
  {
    i.metadata.guid
  }

  /** The key of stack records. */
  function StackName(s: StackInfo): string
  {
    s.entity.name
  }

  class CloudController {
    var config: ControllerConfig
    var apiUrl: Url
    var accessToken: Option<AccessTokenInfo>
    var stackMap: Option<map<string, StackInfo>>
    var buildpackMap: Option<map<string, BuildpackInfo>>
    var quotaDefinitionMap: Option<map<string, QuotaDefinitionInfo>>
    var organizationMap: Option<map<string, OrganizationInfo>>
    var spaceMap: Option<map<string, SpaceInfo>>
    var appMap: Option<map<string, AppInfo>>

    /** The struct literal of `NewCloudController`: no token, no maps. */
    constructor (config: ControllerConfig, apiUrl: Url)
      ensures this.config == config && this.apiUrl == apiUrl
      ensures accessToken == None
      ensures stackMap == None && buildpackMap == None && quotaDefinitionMap == None
      ensures organizationMap == None && spaceMap == None && appMap == None
    {
      this.config := config;
      this.apiUrl := apiUrl;
      accessToken := None;
      stackMap := None;
      buildpackMap := None;
      quotaDefinitionMap := None;
      organizationMap := None;
      spaceMap := None;
      appMap := None;
    }

    /** `GetResourceList`: request the collection, then follow `next_url`
        page by page, inserting every resource under its GUID. The requests
        sent are returned as well. A transport failure discards everything;
        a page that fails to decode is never reported, because the loop body
        assigns its own `err`. */
    method GetResourceList(apiPath: string, pages: seq<PageResult>)
      returns (resources: Option<map<string, Resource>>, err: Option<Error>, requests: seq<Request>)
      requires accessToken.Some?
      requires ConversationEnds(pages)
      ensures |requests| == FirstStop(pages) + 1
      ensures requests == RequestsUpTo(FirstRequest(apiUrl, apiPath, accessToken.value.accessToken), apiUrl, pages, FirstStop(pages))
      ensures FetchFails(pages) ==> resources == None && err == Some(pages[FirstStop(pages)].err)
      ensures !FetchFails(pages) ==> resources == Some(Fetched(pages)) && err == None
    {
      var first := FirstRequest(apiUrl, apiPath, accessToken.value.accessToken);
      var req := first;
      err := None;

      var resourceList: map<string, Resource> := map[];
      var hasNext := true;
      var k := 0;
      ghost var stop := FirstStop(pages);
      ghost var all := RequestsUpTo(first, apiUrl, pages, stop);
      requests := [];
      while hasNext
        invariant hasNext ==> k <= stop
        invariant !hasNext ==> k == stop + 1
        invariant forall i :: 0 <= i < k ==> pages[i].Page?
        invariant requests == all[..k]
        invariant hasNext ==> req == all[k]
        invariant resourceList == Accumulate(AllResources(pages[..k]))
        decreases stop + 1 - k
      {
        var page := pages[k];
        requests := requests + [req];
        assert requests == all[..k + 1];
        if page.TransportFailure? {
          return None, Some(page.err), requests;
        }
        // The decode error belongs to the loop body's own `err`; it is dropped.
        var pageErr := page.decodeError;

        resourceList := InsertResources(resourceList, AllResources(pages[..k]), page.resources);
        assert pages[..k + 1][..k] == pages[..k];

        hasNext := page.nextUrl != "";
        if hasNext {
          req := req.(target := Parsed(apiUrl.text + page.nextUrl));
        }
        k := k + 1;
      }
      assert pages[..k] == Processed(pages);
      assert all[..k] == all;
      resources := Some(resourceList);
    }

    /** `GetApps`: decode every fetched app into a fresh map keyed by GUID and
        publish it only if every entity decodes; a nil listing (a transport
        failure) would be dereferenced, so the listing must succeed. */
    method GetApps(pages: seq<PageResult>, decode: Decoder<AppEntity>)
      returns (err: Option<Error>, sent: seq<Request>)
      requires accessToken.Some? && ConversationEnds(pages) && !FetchFails(pages)
      modifies this`appMap
      ensures sent == RequestsUpTo(FirstRequest(apiUrl, "/v2/apps", accessToken.value.accessToken), apiUrl, pages, FirstStop(pages))
      ensures err.None? <==> AllDecode(Fetched(pages), decode)
      ensures err.None? ==> appMap == Some(GuidMap(Fetched(pages), decode))
      ensures err.Some? ==> appMap == old(appMap)
      ensures err.Some? ==> exists k :: k in Fetched(pages) && decode(Fetched(pages)[k].entity) == Failure(err.value)
    {
      var appResources, fetchErr;
      appResources, fetchErr, sent := GetResourceList("/v2/apps", pages);
      var resultMap := DecodeAll(appResources.value, decode, Guid);
      if resultMap.Failure? {
        return Some(resultMap.error), sent;
      }
      FetchedKeys(pages);
      GuidKeyedDecode(appResources.value, decode, Guid, resultMap.value);
      appMap := Some(resultMap.value);
      return fetchErr, sent;
    }

    /** `GetOrganizations`: as `GetApps`, into the organization map. */
    method GetOrganizations(pages: seq<PageResult>, decode: Decoder<OrganizationEntity>)
      returns (err: Option<Error>, sent: seq<Request>)
      requires accessToken.Some? && ConversationEnds(pages) && !FetchFails(pages)
      modifies this`organizationMap
      ensures sent == RequestsUpTo(FirstRequest(apiUrl, "/v2/organizations", accessToken.value.accessToken), apiUrl, pages, FirstStop(pages))
      ensures err.None? <==> AllDecode(Fetched(pages), decode)
      ensures err.None? ==> organizationMap == Some(GuidMap(Fetched(pages), decode))
      ensures err.Some? ==> organizationMap == old(organizationMap)
      ensures err.Some? ==> exists k :: k in Fetched(pages) && decode(Fetched(pages)[k].entity) == Failure(err.value)
    {
      var organizationResources, fetchErr;
      organizationResources, fetchErr, sent := GetResourceList("/v2/organizations", pages);
      var resultMap := DecodeAll(organizationResources.value, decode, Guid);
      if resultMap.Failure? {
        return Some(resultMap.error), sent;
      }
      FetchedKeys(pages);
      GuidKeyedDecode(organizationResources.value, decode, Guid, resultMap.value);
      organizationMap := Some(resultMap.value);
      return fetchErr, sent;
    }

    /** `GetSpaces`: as `GetApps`, into the space map. */
    method GetSpaces(pages: seq<PageResult>, decode: Decoder<SpaceEntity>)
      returns (err: Option<Error>, sent: seq<Request>)
      requires accessToken.Some? && ConversationEnds(pages) && !FetchFails(pages)
      modifies this`spaceMap
      ensures sent == RequestsUpTo(FirstRequest(apiUrl, "/v2/spaces", accessToken.value.accessToken), apiUrl, pages, FirstStop(pages))
      ensures err.None? <==> AllDecode(Fetched(pages), decode)
      ensures err.None? ==> spaceMap == Some(GuidMap(Fetched(pages), decode))
      ensures err.Some? ==> spaceMap == old(spaceMap)
      ensures err.Some? ==> exists k :: k in Fetched(pages) && decode(Fetched(pages)[k].entity) == Failure(err.value)
    {
      var spaceResources, fetchErr;
      spaceResources, fetchErr, sent := GetResourceList("/v2/spaces", pages);
      var resultMap := DecodeAll(spaceResources.value, decode, Guid);
      if resultMap.Failure? {
        return Some(resultMap.error), sent;
      }
      FetchedKeys(pages);
      GuidKeyedDecode(spaceResources.value, decode, Guid, resultMap.value);
      spaceMap := Some(resultMap.value);
      return fetchErr, sent;
    }

    /** `GetStacks`: as `GetApps`, but each record is stored under its name,
        so stacks sharing a name collapse into one entry. */
    method GetStacks(pages: seq<PageResult>, decode: Decoder<StackEntity>)
      returns (err: Option<Error>, sent: seq<Request>)
      requires accessToken.Some? && ConversationEnds(pages) && !FetchFails(pages)
      modifies this`stackMap
      ensures sent == RequestsUpTo(FirstRequest(apiUrl, "/v2/stacks", accessToken.value.accessToken), apiUrl, pages, FirstStop(pages))
      ensures err.None? <==> AllDecode(Fetched(pages), decode)
      ensures err.None? ==> stackMap.Some? && DecodedMap(Fetched(pages), decode, StackName, stackMap.value)
      ensures err.Some? ==> stackMap == old(stackMap)
      ensures err.Some? ==> exists k :: k in Fetched(pages) && decode(Fetched(pages)[k].entity) == Failure(err.value)
    {
      var stackResources, fetchErr;
      stackResources, fetchErr, sent := GetResourceList("/v2/stacks", pages);
      var resultMap := DecodeAll(stackResources.value, decode, StackName);
      if resultMap.Failure? {
        return Some(resultMap.error), sent;
      }
      stackMap := Some(resultMap.value);
      return fetchErr, sent;
    }

    /** `GetBuildpacks`: as `GetApps`, into the buildpack map. */
    method GetBuildpacks(pages: seq<PageResult>, decode: Decoder<BuildpackEntity>)
      returns (err: Option<Error>, sent: seq<Request>)
      requires accessToken.Some? && ConversationEnds(pages) && !FetchFails(pages)
      modifies this`buildpackMap
      ensures sent == RequestsUpTo(FirstRequest(apiUrl, "/v2/buildpacks", accessToken.value.accessToken), apiUrl, pages, FirstStop(pages))
      ensures err.None? <==> AllDecode(Fetched(pages), decode)
      ensures err.None? ==> buildpackMap == Some(GuidMap(Fetched(pages), decode))
      ensures err.Some? ==> buildpackMap == old(buildpackMap)
      ensures err.Some? ==> exists k :: k in Fetched(pages) && decode(Fetched(pages)[k].entity) == Failure(err.value)
    {
      var buildpackResources, fetchErr;
      buildpackResources, fetchErr, sent := GetResourceList("/v2/buildpacks", pages);
      var resultMap := DecodeAll(buildpackResources.value, decode, Guid);
      if resultMap.Failure? {
        return Some(resultMap.error), sent;
      }
      FetchedKeys(pages);
      GuidKeyedDecode(buildpackResources.value, decode, Guid, resultMap.value);
      buildpackMap := Some(resultMap.value);
      return fetchErr, sent;
    }

    /** `GetQuotaDefinitions`: as `GetApps`, into the quota definition map. */
    method GetQuotaDefinitions(pages: seq<PageResult>, decode: Decoder<QuotaDefinitionEntity>)
      returns (err: Option<Error>, sent: seq<Request>)
      requires accessToken.Some? && ConversationEnds(pages) && !FetchFails(pages)
      modifies this`quotaDefinitionMap
      ensures sent == RequestsUpTo(FirstRequest(apiUrl, "/v2/quota_definitions", accessToken.value.accessToken), apiUrl, pages, FirstStop(pages))
      ensures err.None? <==> AllDecode(Fetched(pages), decode)
      ensures err.None? ==> quotaDefinitionMap == Some(GuidMap(Fetched(pages), decode))
      ensures err.Some? ==> quotaDefinitionMap == old(quotaDefinitionMap)
      ensures err.Some? ==> exists k :: k in Fetched(pages) && decode(Fetched(pages)[k].entity) == Failure(err.value)
    {
      var quotaDefinitionResources, fetchErr;
      quotaDefinitionResources, fetchErr, sent := GetResourceList("/v2/quota_definitions", pages);
      var resultMap := DecodeAll(quotaDefinitionResources.value, decode, Guid);
      if resultMap.Failure? {
        return Some(resultMap.error), sent;
      }
      FetchedKeys(pages);
      GuidKeyedDecode(quotaDefinitionResources.value, decode, Guid, resultMap.value);
      quotaDefinitionMap := Some(resultMap.value);
      return fetchErr, sent;
    }

    /** `Login`: discover the authorization endpoint (`info` is the outcome
        of `GetV2Info`), post the password grant and store the token. It
        reports success without a token when discovery fails, the endpoint
        does not parse, or the request cannot be built (`requestOk` false);
        the token request sent, if any, is returned as well. */
    method Login(info: Reply<V2Info>, parse: string -> Result<Url>, requestOk: bool, reply: Reply<AccessTokenInfo>)
      returns (err: Option<Error>, sent: Option<Request>)
      modifies this`accessToken
      ensures sent.Some? <==>
        info.Decoded? && parse(info.value.authorizationEndpoint).Success? && requestOk
      ensures sent.Some? ==>
        sent.value == TokenRequest(config, info.value.authorizationEndpoint, parse(info.value.authorizationEndpoint).value)
      ensures sent.None? ==> err == None && accessToken == old(accessToken)
      ensures sent.Some? && reply.Failed() ==> err == Some(reply.err) && accessToken == old(accessToken)
      ensures sent.Some? && reply.Decoded? ==> err == None && accessToken == Some(reply.value)
    {
      var parameters := LoginParameters(config.username, config.password);

      if info.Failed() {
        return None, None;
      }
      var authUrl := parse(info.value.authorizationEndpoint);
      if authUrl.Failure? {
        return None, None;
      }
      if !requestOk {
        return None, None;
      }
      var req := Request(
        "POST",
        Resolved(authUrl.value, "/oauth/token", ""),
        map[],
        None,
        Encode(parameters));
      req := req.(headers := req.headers["Accept" := "application/json"]);
      req := req.(headers := req.headers["Content-Type" := "application/x-www-form-urlencoded"]);
      req := req.(headers := req.headers["Host" := info.value.authorizationEndpoint]);
      req := req.(basicAuth := Some(("cf", "")));
      assert req == TokenRequest(config, info.value.authorizationEndpoint, authUrl.value);
      sent := Some(req);

      if reply.Failed() {
        return Some(reply.err), sent;
      }
      accessToken := Some(reply.value);
      return None, sent;
    }

    /** `GetV3App`: one app by id, with the bearer token; nil app on any
        error. The request sent is returned as well. */
    method GetV3App(appId: string, reply: Reply<App>) returns (app: Option<App>, err: Option<Error>, sent: Request)
      requires accessToken.Some?
      ensures sent == V3AppRequest(apiUrl, appId, accessToken.value.accessToken)
      ensures sent.target.path == "/v3/apps/" + appId
      ensures sent.headers["Authorization"] == "Bearer " + accessToken.value.accessToken
      ensures reply.Failed() ==> app == None && err == Some(reply.err)
      ensures reply.Decoded? ==> app == Some(reply.value) && err == None
    {
      sent := Request("GET", Resolved(apiUrl, "/v3/apps/" + appId, ""), map[], None, "");
      sent := sent.(headers := sent.headers["Accept" := "application/json"]);
      sent := sent.(headers := sent.headers["Authorization" := "Bearer " + accessToken.value.accessToken]);
      if reply.Failed() {
        return None, Some(reply.err), sent;
      }
      return Some(reply.value), None, sent;
    }
  }

  /** The form values `Login` starts with: the four fields set in turn on
      empty values. */
  method LoginParameters(username: string, password: string) returns (parameters: Values)
    ensures parameters == LoginForm(username, password)
  {
    parameters := [];
    parameters := SetValue(parameters, "username", username);
    parameters := SetValue(parameters, "password", password);
    parameters := SetValue(parameters, "scope", "");
    parameters := SetValue(parameters, "grant_type", "password");
    LoginFormPairs(username, password);
  }

  /** The inner loop of `GetResourceList`: every resource of one page put
      into the map under its GUID, in order, on top of those before it. */
  method InsertResources(m: map<string, Resource>, ghost before: seq<Resource>, resources: seq<Resource>)
    returns (r: map<string, Resource>)
    requires m == Accumulate(before)
    ensures r == Accumulate(before + resources)
  {
    r := m;
    assert before + resources[..0] == before;
    for j := 0 to |resources|
      invariant r == Accumulate(before + resources[..j])
    {
      var value := resources[j];
      assert before + resources[..j + 1] == (before + resources[..j]) + [value];
      r := r[value.metadata.guid := value];
    }
    assert resources[..|resources|] == resources;
  }

  /** `NewCloudController`: check the configuration copy; on success build a
      controller on it with no token and no maps. */
  method NewCloudController(config: ControllerConfig, parse: string -> Result<Url>)
    returns (c: CloudController?, err: Option<Error>)
    ensures CheckConfig(Some(config), parse).Failure? ==>
      c == null && err == Some(CheckConfig(Some(config), parse).error)
    ensures CheckConfig(Some(config), parse).Success? ==>
      c != null && fresh(c) && err == None &&
      c.config == CheckConfig(Some(config), parse).value &&
      c.config.apiUrl == Some(c.apiUrl) &&
      c.accessToken == None &&
      c.stackMap == None && c.buildpackMap == None && c.quotaDefinitionMap == None &&
      c.organizationMap == None && c.spaceMap == None && c.appMap == None
  {
    var checked := CheckConfig(Some(config), parse);
    if checked.Failure? {
      return null, Some(checked.error);
    }
    c := new CloudController(checked.value, checked.value.apiUrl.value);
    err := None;
  }

  /** The body `Login` posts, whatever the credentials: the four fields
      written in key order. */
  lemma LoginFormEncoding(username: string, password: string)
    ensures Encode(LoginForm(username, password)) ==
      Join([("grant_type", "password"), ("password", password), ("scope", ""), ("username", username)])
  {
    LoginFormSorted(username, password);
  }

  lemma LoginFormSorted(username: string, password: string)
    ensures var u, p, s, g := ("username", username), ("password", password), ("scope", ""), ("grant_type", "password");
      SortByKey([u, p, s, g]) == [g, p, s, u]
  {
    LoginKeyOrder();
    SortFour(("username", username), ("password", password), ("scope", ""), ("grant_type", "password"));
  }

  /** Sorting four pairs whose keys are ordered g < p < s < u, given as
      u, p, s, g. */
  lemma SortFour(u: (string, string), p: (string, string), s: (string, string), g: (string, string))
    requires !KeyLessOrEqual(s.0, g.0)
    requires !KeyLessOrEqual(p.0, g.0) && KeyLessOrEqual(p.0, s.0)
    requires !KeyLessOrEqual(u.0, g.0) && !KeyLessOrEqual(u.0, p.0) && !KeyLessOrEqual(u.0, s.0)
    ensures SortByKey([u, p, s, g]) == [g, p, s, u]
  {
    SortThree(p, s, g);
    assert [u, p, s, g][1..] == [p, s, g];
    assert Insert(u, [s]) == [s] + Insert(u, []);
    assert Insert(u, [p, s]) == [p] + Insert(u, [s]);
    assert Insert(u, [g, p, s]) == [g] + Insert(u, [p, s]);
  }

  lemma SortThree(p: (string, string), s: (string, string), g: (string, string))
    requires !KeyLessOrEqual(s.0, g.0)
    requires !KeyLessOrEqual(p.0, g.0) && KeyLessOrEqual(p.0, s.0)
    ensures SortByKey([p, s, g]) == [g, p, s]
  {
    assert SortByKey([g]) == [g];
    assert [s, g][1..] == [g];
    assert Insert(s, [g]) == [g] + Insert(s, []);
    assert SortByKey([s, g]) == [g, s];
    assert [p, s, g][1..] == [s, g];
    assert Insert(p, [s]) == [p, s];
    assert Insert(p, [g, s]) == [g] + Insert(p, [s]);
  }

  /** Setting the four fields in turn on empty values yields the form: no
      key is set twice, so each `Set` appends. */
  lemma LoginFormPairs(username: string, password: string)
    ensures SetValue(SetValue(SetValue(SetValue([], "username", username), "password", password), "scope", ""),
                     "grant_type", "password") == LoginForm(username, password)
  {
    var u, p, s := ("username", username), ("password", password), ("scope", "");
    assert "username"[0] != "password"[0] && "username"[0] != "scope"[0] && "username"[0] != "grant_type"[0];
    assert "password"[0] != "scope"[0] && "password"[0] != "grant_type"[0] && "scope"[0] != "grant_type"[0];
    SetNewKey([], "username", username);
    assert [] + [u] == [u];
    SetNewKey([u], "password", password);
    assert [u] + [p] == [u, p];
    SetNewKey([u, p], "scope", "");
    assert [u, p] + [s] == [u, p, s];
    SetNewKey([u, p, s], "grant_type", "password");
    assert [u, p, s] + [("grant_type", "password")] == LoginForm(username, password);
  }

  lemma LoginKeyOrder()
    ensures !KeyLessOrEqual("scope", "grant_type")
    ensures !KeyLessOrEqual("password", "grant_type") && KeyLessOrEqual("password", "scope")
    ensures !KeyLessOrEqual("username", "grant_type") && !KeyLessOrEqual("username", "password")
    ensures !KeyLessOrEqual("username", "scope")
  {
  }
}
