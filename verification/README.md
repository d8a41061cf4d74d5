# cloud-paint core in Dafny

cloud-paint reads the resources of a Cloud Foundry platform from its Cloud
Controller API. It links them by GUID and writes a PlantUML component diagram,
either of the whole landscape or of a single app.

This project models the four pieces that do the work:

- **The Cloud Controller client** (module `CloudFoundry`, class
  `CloudController`):
  - the ordered configuration check and the construction of a controller;
  - `Login`, with its early "success" returns and its single update of the
    access token;
  - the v3 app lookup;
  - the paginated listing `GetResourceList` (module `Pagination` holds its
    specification);
  - the six decode-and-insert loops that publish one controller map each
    (module `Decoding`).
- **The PlantUML renderer** (module `PlantUml`, class `PlantUml`):
  - `TrimGUID`;
  - every `Write*` procedure, appending to a string builder;
  - the whole-landscape diagram `CreateDiagram`;
  - the single-app diagram `CreateSingleAppDiagram`.
- **The single-app diagram service** (module `Services`): the service
  constructor and the step sequence of `GetRawDiagram`.
- **The form encoding** `Login` posts (module `Forms`): `url.Values` with
  `Set` and `Encode`, without percent-escaping.

Every HTTP exchange is a parameter of the model:
- The reply to a request is a `Reply<T>`: a transport error, an undecodable
  body, or a decoded value.
- A listing is the sequence of `PageResult`s its successive requests
  receive.
- `url.Parse` is a function parameter; JSON decoding of an entity is a
  partial `Decoder<E>`.

Go's map iteration order is unspecified, so every loop over a map picks its
next key nondeterministically. It returns the order it used as a ghost
`order`, and the diagram text is stated per order (`DiagramLines(l, o)`).
Lemmas show that the order only permutes lines within a section.

A nil dereference in the code is either a precondition or an explicit
outcome:
- The renderer requires the foreign keys it follows to be present
  (`Renderable`, `SingleAppRenderable`), and requires the controller maps
  it reads to be loaded (`requires …Map.Some?`): a nil map is dereferenced
  in adapter/plantuml/plantuml.go.
- `GetResourceList`, the six decoders and `GetV3App` require an access
  token (`requires accessToken.Some?`): the token is dereferenced at
  adapter/cloudfoundry/resourcelist.go:35 and cloudcontroller.go:191.
- `GetRawDiagram`'s outcome is a `RawDiagram`: `Returned(text, err)` or
  `Panicked`. It panics where the Go code would dereference nil:
  - the missing token after a `Login` that returned early;
  - the nil resource map of a failed listing;
  - a nil organization or space map;
  - a missing space or organization.

Lemma modules: `DiagramProperties` (plantuml_lemmas.dfy) holds the
properties of the diagram text; `ServiceProperties` (service_lemmas.dfy)
holds the properties of the service outcome.

### Behaviour of the code that the model keeps

- **Page-decode errors.** A page that fails to decode is never reported:
  `err` at adapter/cloudfoundry/resourcelist.go:52 is the loop's own
  variable. `GetResourceList` therefore returns the accumulated map and no
  error.
- **Next page URL.** It is the API URL's text concatenated with `next_url`
  (resourcelist.go:60), not a reference resolution.
- **Stack keys.** Stacks are keyed by name, all other records by GUID
  (stack.go:36).
- **Missing foreign keys.** A missing key is a nil dereference, not an
  explicit failure or a skipped edge.
- **Dropped listing errors.** `GetRawDiagram` drops the errors of the four
  listings (services/single_app_diagram.go:52-70):
  - a failed fetch is a panic on the nil map;
  - an undecodable entity leaves that controller map unset, and the renderer
    panics on it only when that map is the organization or space map.
- **Login without a token.** `Login` reports success without a token when
  discovery, the endpoint parse or the request construction fails
  (cloudcontroller.go:92-106).

## Model

| member | source | states |
|---|---|---|
| CloudFoundry.CheckConfig | adapter/cloudfoundry/cloudcontroller.go:56-81 | the checks run in order (nil config, empty username, empty password, empty API URL, URL parse) and the first failing one decides the error, with its exact message; success exactly when all pass, and then the copy differs from the input only in carrying the parsed URL |
| CloudFoundry.NewCloudController | adapter/cloudfoundry/cloudcontroller.go:36-54 | a failing check gives a nil controller and that error; otherwise a fresh controller with the checked config, `APIUrl` equal to the parsed URL, no token and all six maps nil |
| CloudFoundry.CloudController.constructor | adapter/cloudfoundry/cloudcontroller.go:51 | the struct literal: config and API URL set, token and maps nil |
| CloudFoundry.CloudController.Login | adapter/cloudfoundry/cloudcontroller.go:84-126 | a token request is sent exactly when the info reply decodes, the endpoint parses and the request can be built, and it is the form post of `TokenRequest`; otherwise nil error and token unchanged; a failed token reply is returned and leaves the token unchanged; only a decoded reply sets the token |
| CloudFoundry.LoginParameters | adapter/cloudfoundry/cloudcontroller.go:86-90 | the form values `Login` builds are exactly the login form: username, password, empty scope, `grant_type=password` |
| CloudFoundry.LoginFormPairs | adapter/cloudfoundry/cloudcontroller.go:86-90 | the four `Set` calls on empty values yield exactly the four pairs username, password, empty scope, `grant_type=password` |
| CloudFoundry.LoginFormSorted | adapter/cloudfoundry/cloudcontroller.go:103 | sorting the four login pairs by key puts them in the order grant_type, password, scope, username |
| CloudFoundry.LoginFormEncoding | adapter/cloudfoundry/cloudcontroller_test.go:216 | the encoded login form is `grant_type=password&password=…&scope=&username=…` for any credentials |
| CloudFoundry.CloudController.GetV3App | adapter/cloudfoundry/cloudcontroller.go:182-207 | the request goes to `/v3/apps/` + id with `Authorization: Bearer` + token; a failed reply gives a nil app and its error, a decoded one the app and no error |
| CloudFoundry.CloudController.GetResourceList | adapter/cloudfoundry/resourcelist.go:26-67 | the requests are the first request (page size 100, bearer token) then one per `next_url`, up to the first page that fails or has none; a transport failure returns no map and that error; otherwise the map of all resources of the processed pages and no error, page-decode errors dropped |
| CloudFoundry.InsertResources | adapter/cloudfoundry/resourcelist.go:54-56 | inserting a page's resources in order extends the accumulation by that page |
| CloudFoundry.CloudController.GetApps | adapter/cloudfoundry/app.go:54-81 | the requests sent are those of listing `/v2/apps`; no error exactly when every fetched entity decodes, and then `AppMap` is the map of decoded records under their own GUIDs; on an error, which is some entity's decode error, `AppMap` is unchanged; no other field is written |
| CloudFoundry.CloudController.GetOrganizations | adapter/cloudfoundry/organization.go:42-72 | as `GetApps`, listing `/v2/organizations`, for `OrganizationMap` |
| CloudFoundry.CloudController.GetSpaces | adapter/cloudfoundry/space.go:40-68 | as `GetApps`, listing `/v2/spaces`, for `SpaceMap` |
| CloudFoundry.CloudController.GetStacks | adapter/cloudfoundry/stack.go:24-48 | as `GetApps`, listing `/v2/stacks`, for `StackMap`, except that records are keyed by name: a map the decode loop can build over names |
| CloudFoundry.CloudController.GetBuildpacks | adapter/cloudfoundry/buildpack.go:25-56 | as `GetApps`, listing `/v2/buildpacks`, for `BuildpackMap` |
| CloudFoundry.CloudController.GetQuotaDefinitions | adapter/cloudfoundry/quotadefinition.go:31-61 | as `GetApps`, listing `/v2/quota_definitions`, for `QuotaDefinitionMap` |
| Decoding.DecodeAll | adapter/cloudfoundry/app.go:58-77 | the range loop succeeds exactly when every entity decodes; on failure its error is some entity's decode error; on success each key is the key of a decoded record, whose metadata is the envelope's |
| Decoding.GuidKeyedDecode | adapter/cloudfoundry/app.go:60-70 | keyed by GUID over a map holding each envelope under its own GUID, the decoded map has the same keys and keeps each envelope's metadata |
| Decoding.NameKeyedDecode | adapter/cloudfoundry/stack.go:29-36 | keyed by name, the key set is the set of decoded names; stacks sharing a name collapse into one entry |
| Pagination.FirstStop | adapter/cloudfoundry/resourcelist.go:45-64 | the loop stops at the first page that fails in transport or has no `next_url`, and at no earlier page |
| Pagination.AccumulateKeys | adapter/cloudfoundry/resourcelist.go:54-56 | the map's keys are exactly the GUIDs of the resources inserted |
| Pagination.AccumulateValues | adapter/cloudfoundry/resourcelist.go:54-56 | each resource is stored under its own GUID and every stored value is one of the inserted resources |
| Pagination.AccumulateLastWins | adapter/cloudfoundry/resourcelist.go:55 | of resources sharing a GUID, the one processed last is kept |
| Pagination.AccumulateConcat | adapter/cloudfoundry/resourcelist.go:45-64 | accumulating two runs of pages is the union of their maps, the later run overriding |
| Pagination.FetchedKeys | adapter/cloudfoundry/resourcelist.go:42-66 | the keys of the fetched map are exactly the GUIDs over all processed pages, each resource under its own GUID |
| Pagination.EmptyCollection | adapter/cloudfoundry/resourcelist.go:42-66 | a single empty page without `next_url` yields the empty map and no failure |
| Forms.SetValue | adapter/cloudfoundry/cloudcontroller.go:87-90 | after `Set` the key has exactly the given value and every other pair is kept |
| Forms.SortByKeyCorrect | adapter/cloudfoundry/cloudcontroller.go:103 | the encoding sorts the pairs by key and keeps exactly the same pairs |
| PlantUml.TrimGuid | adapter/plantuml/plantuml.go:312-315 | the alias has no `-`, is no longer than the GUID, and keeps every other character as often as the GUID has it |
| DiagramProperties.TrimGuidConcat | adapter/plantuml/plantuml.go:312-315 | trimming distributes over concatenation |
| DiagramProperties.TrimGuidDropsDash | adapter/plantuml/plantuml.go:312-315 | a dash is dropped and the parts around it are trimmed in place, in order |
| DiagramProperties.TrimGuidJoinsGroups | adapter/plantuml/plantuml.go:312-315 | a five-group GUID becomes its groups joined in order |
| DiagramProperties.TrimGuidKeepsPlain | adapter/plantuml/plantuml.go:312-315 | an identifier without `-` is its own alias |
| DiagramProperties.TrimGuidIdempotent | adapter/plantuml/plantuml.go:312-315 | trimming twice is trimming once |
| DiagramProperties.TrimGuidShort | adapter/plantuml/plantuml.go:312-315 | `a-b` becomes `ab` |
| PlantUml.PlantUml.constructor | adapter/plantuml/plantuml.go:173-178 | a renderer over the given controller |
| PlantUml.PlantUml.WriteStartTag | adapter/plantuml/plantuml.go:318-320 | appends `@startuml` and a newline |
| PlantUml.PlantUml.WriteEndTag | adapter/plantuml/plantuml.go:323-326 | appends the cloudpaint footer line, then `@enduml` and a newline |
| PlantUml.PlantUml.WriteTitle | adapter/plantuml/plantuml.go:329-331 | appends `title <title>` and a newline |
| PlantUml.PlantUml.WriteSkin | adapter/plantuml/plantuml.go:334-363 | appends the skin block and a newline |
| PlantUml.PlantUml.WriteAppStackRelation | adapter/plantuml/plantuml.go:73-80 | appends the edge from the app's alias to the stack name |
| PlantUml.PlantUml.WriteStack | adapter/plantuml/plantuml.go:83-91 | appends the bold stack node aliased by its name |
| PlantUml.PlantUml.WriteAppBuildpackRelation | adapter/plantuml/plantuml.go:94-101 | appends the edge from the app's alias to the buildpack name |
| PlantUml.PlantUml.WriteBuildpack | adapter/plantuml/plantuml.go:104-112 | appends the bold buildpack node aliased by its name |
| PlantUml.PlantUml.WriteApp | adapter/plantuml/plantuml.go:115-128 | appends the app component with name, state and both timestamps |
| PlantUml.PlantUml.WriteAppSpaceRelation | adapter/plantuml/plantuml.go:131-138 | appends the edge from the space alias to the app alias |
| PlantUml.PlantUml.WriteOrgSpaceRelation | adapter/plantuml/plantuml.go:141-148 | appends the edge from the organization alias to the space alias |
| PlantUml.PlantUml.WriteOrg | adapter/plantuml/plantuml.go:151-159 | appends the bold `organization` node aliased by the trimmed GUID |
| PlantUml.PlantUml.WriteSpace | adapter/plantuml/plantuml.go:162-170 | appends the bold `space` node aliased by the trimmed GUID |
| PlantUml.PlantUml.WriteAllStacks | adapter/plantuml/plantuml.go:181-193 | visits every stack once, in some order, and appends its node line (aliased by name), then a blank line |
| PlantUml.PlantUml.WriteAllBuildpacks | adapter/plantuml/plantuml.go:196-208 | visits every buildpack once and appends its node line, then a blank line |
| PlantUml.BuildpackStackEdgeLines | adapter/plantuml/plantuml.go:211-223 | an edge exactly for the buildpacks bound to a stack |
| PlantUml.PlantUml.WriteBuildpackStackRelation | adapter/plantuml/plantuml.go:211-223 | visits every buildpack once and appends an edge to the name of the stack found under its stack name, only when it has one; then a blank line |
| PlantUml.PlantUml.WriteAllOrgs | adapter/plantuml/plantuml.go:226-238 | visits every organization once and appends its `org` node line, then a blank line |
| PlantUml.PlantUml.WriteAllSpaces | adapter/plantuml/plantuml.go:241-253 | visits every space once and appends its node line, then a blank line |
| PlantUml.PlantUml.WriteAllOrgSpaceRelations | adapter/plantuml/plantuml.go:256-266 | visits every space once and appends the edge from its organization, then a blank line |
| PlantUml.PlantUml.WriteAllApps | adapter/plantuml/plantuml.go:269-281 | visits every app once and appends its node line, then a blank line |
| PlantUml.PlantUml.WriteSpaceAppRelation | adapter/plantuml/plantuml.go:284-294 | visits every app once and appends the edge from its space, then a blank line |
| PlantUml.AppBuildpackEdgeLines | adapter/plantuml/plantuml.go:297-310 | every app has an entry, and it is a bare newline exactly when no buildpack was detected |
| PlantUml.PlantUml.WriteAllAppBuildpackRelation | adapter/plantuml/plantuml.go:297-310 | visits every app once and appends the edge to its detected buildpack when it has one, and a newline in any case; then a blank line |
| PlantUml.PlantUml.CreateDiagram | adapter/plantuml/plantuml.go:14-33 | the text is the start tag, the nine sections in the fixed order, then the end tag, for the orders its loops used |
| PlantUml.PlantUml.CreateSingleAppDiagram | adapter/plantuml/plantuml.go:36-70 | the text is the single-app line sequence for the controller's spaces and organizations |
| DiagramProperties.EmitLength | adapter/plantuml/plantuml.go:181-193 | a loop over distinct keys writes one line per key that has a line |
| DiagramProperties.EmitCount | adapter/plantuml/plantuml.go:181-193 | a line occurs in a section as often as there are keys writing it |
| DiagramProperties.EmitOrderIndependent | adapter/plantuml/plantuml.go:181-193 | two iteration orders of one map write the same multiset of lines |
| DiagramProperties.EmitAll | adapter/plantuml/plantuml.go:181-193 | a loop visiting every key writes exactly one line per map entry |
| DiagramProperties.SectionLength | adapter/plantuml/plantuml.go:181-193 | a section has one line per entry plus the blank line |
| DiagramProperties.StackLineCount | adapter/plantuml/plantuml.go:181-193 | one stack line per stack |
| DiagramProperties.BuildpackLineCount | adapter/plantuml/plantuml.go:196-208 | one buildpack line per buildpack |
| DiagramProperties.OrgLineCount | adapter/plantuml/plantuml.go:226-238 | one organization line per organization |
| DiagramProperties.SpaceLineCount | adapter/plantuml/plantuml.go:241-266 | one node line and one organization edge per space |
| DiagramProperties.AppLineCount | adapter/plantuml/plantuml.go:269-294 | one node line and one space edge per app |
| DiagramProperties.UpperSectionSizes | adapter/plantuml/plantuml.go:181-238 | the stack, buildpack, buildpack-to-stack and organization sections have one line per entry (per bound buildpack) plus a blank line |
| DiagramProperties.SpaceSectionSizes | adapter/plantuml/plantuml.go:241-266 | both space sections have one line per space plus a blank line |
| DiagramProperties.AppSectionSizes | adapter/plantuml/plantuml.go:269-294 | the app node and space-to-app sections have one line per app plus a blank line |
| DiagramProperties.AppBuildpackSectionSize | adapter/plantuml/plantuml.go:297-310 | the app-to-buildpack section has one line per app, with or without a detected buildpack, plus a blank line |
| DiagramProperties.DiagramWriteCount | adapter/plantuml/plantuml.go:14-33 | the landscape diagram is made of 11 + stacks + buildpacks + bound buildpacks + organizations + 2·spaces + 3·apps writes: one per node or edge, nine blank section ends, the start tag and the end tag (the end tag alone is two lines of text, the footer and `@enduml`) |
| DiagramProperties.SectionOrderIndependent | adapter/plantuml/plantuml.go:181-310 | a section's lines do not depend on the iteration order, up to permutation |
| DiagramProperties.DiagramOrderIndependent | adapter/plantuml/plantuml.go:14-33 | whatever orders Go's map iteration picks, the diagram has the same multiset of lines |
| DiagramProperties.DiagramFrame | adapter/plantuml/plantuml.go:14-33 | the landscape text starts with `@startuml` and ends with the footer and `@enduml` |
| DiagramProperties.SectionOne | adapter/plantuml/plantuml.go:181-193 | a section over one key is that key's line and a blank line |
| DiagramProperties.ExampleIterates | adapter/plantuml/plantuml.go:14-33 | the example landscape is renderable and its one-entry maps have a single visiting order |
| DiagramProperties.ExampleSpaceSections | adapter/plantuml/plantuml.go:226-266 | the example's organization and space sections, aliases trimmed |
| DiagramProperties.ExampleAppSections | adapter/plantuml/plantuml.go:269-310 | the example's app sections; an app without a detected buildpack gets a bare newline |
| DiagramProperties.SmallLandscapeExample | adapter/plantuml/plantuml.go:14-33 | the complete line sequence of a one-organization, one-space, one-app landscape |
| DiagramProperties.BuildpackLinesShape | adapter/plantuml/plantuml.go:54-60 | each listed buildpack gets its node and then its edge from the app, in list order |
| DiagramProperties.SingleAppShape | adapter/plantuml/plantuml.go:36-70 | 11 + 2·buildpacks writes for a buildpack app and 9 otherwise (the skin, the app component and the end tag each span several lines of text); start tag, skin, title, app component, space-to-app edge and end tag in their places |
| DiagramProperties.SingleAppFrame | adapter/plantuml/plantuml.go:36-70 | the single-app text starts with `@startuml` and ends with the footer and `@enduml` |
| DiagramProperties.SingleAppExample | adapter/plantuml/plantuml.go:36-70 | the complete line sequence for a buildpack app with one buildpack |
| Services.NewSingleAppDiagramService | services/single_app_diagram.go:16-25 | a nil config gives no service and the config error; otherwise a fresh service holding the config and no error |
| Services.SingleAppDiagramService.constructor | services/single_app_diagram.go:22 | the service holds the given config |
| Services.SingleAppDiagramService.GetRawDiagram | services/single_app_diagram.go:28-76 | the outcome is `RawDiagramOf`: id check, controller construction, login, app lookup, then the listings and the rendering |
| Services.SingleAppDiagramService.ListAndRender | services/single_app_diagram.go:52-74 | the four listings in order with their errors dropped, then the single-app diagram with a nil error, or a panic on a nil map or a missing space or organization |
| ServiceProperties.EmptyIdRejected | services/single_app_diagram.go:30-32 | an empty app id gives the id error, whatever the configuration and the platform |
| ServiceProperties.ErrorsCarryNoText | services/single_app_diagram.go:35-50 | every returned error comes with an empty diagram |
| ServiceProperties.CredentialsRequired | services/single_app_diagram.go:34-39 | an empty username, password or API URL is rejected with the controller's message before any request |
| ServiceProperties.DiagramSucceeds | services/single_app_diagram.go:28-76 | a diagram without error is returned exactly when every stage passes, and it is the single-app diagram of the fetched spaces and organizations |
| ServiceProperties.SuccessFramed | services/single_app_diagram.go:72-74 | a returned diagram starts with `@startuml` and ends with the footer and `@enduml` |
| ServiceProperties.StackAndBuildpackEntitiesIgnored | services/single_app_diagram.go:62-70 | what the stack and buildpack entities decode to never affects the outcome |
| ServiceProperties.ListingFailurePanics | services/single_app_diagram.go:52-70 | after login and the app lookup, a listing that fails in transport is a nil dereference |
| ServiceProperties.UndecodableListingPanics | services/single_app_diagram.go:52-74 | an organization or space entity that does not decode leaves its map nil, and the renderer dereferences it |
| ServiceProperties.MissingTokenPanics | services/single_app_diagram.go:41-46 | when `Login` returns early without a token, the app lookup dereferences the nil token |

## Left out

- HTTP transport, TLS settings and proxy configuration
  (adapter/cloudfoundry/cloudcontroller.go:44-49): every exchange is an
  abstract reply or page sequence.
- `GetV2Info`: its outcome is the `info` parameter of `Login`.
- `http.NewRequest` failures in `GetResourceList` (resourcelist.go:30-32)
  and `GetV3App`: the model assumes these requests can be built. Only the
  token request's failure is modelled (the `requestOk` flag of `Login`).
- JSON decoding: a partial decoder per entity type, with only the fields the
  renderer and the control flow read.
- `url.Parse`: a function parameter.
- `ResolveReference`: kept unevaluated in `Target.Resolved`.
- Base64 in `SetBasicAuth`: the credentials are stored as a pair.
- Percent-escaping in `url.Values.Encode`.
- Console output with `fmt.Println` in the decoders.
- `defer resp.Body.Close()`.
- Go's map iteration order is not fixed: the order is a ghost output of each
  loop.
- `CloudFoundry.CloudController.GetResourceList`: requires that some page
  ends the listing (`ConversationEnds`), because the Go loop would never
  stop otherwise. The same requirement reaches `GetRawDiagram` as
  `ListingsEnd`, but only when every stage before the listings passes
  (`ReachesListings`); the paths that return earlier carry no such
  requirement.
- The decoders (`GetApps` … `GetQuotaDefinitions`): require a listing
  without transport failure and an access token, because the code
  dereferences a failed listing's nil map and the nil token
  (resourcelist.go:35). `GetRawDiagram` turns those cases into `Panicked`
  instead.
- The renderer's methods require the controller maps they read to be
  loaded (`requires …Map.Some?`), because a nil map is dereferenced in the
  code; `GetRawDiagram` turns that case into `Panicked`.
- `CloudFoundry.CloudController.GetV3App`: requires a token, because a nil
  token is dereferenced in the code; `GetRawDiagram` turns that case into
  `Panicked`.
- The contents of a page that failed to decode are abstract: `PageResult`
  carries whatever the reused `ResourceList` holds afterwards.
- `PlantUml.PlantUml.WriteSkin`: the skin block is held by the renderer as
  its `skin`, set to the `Skin` constant by the constructor. The constant is
  kept out of the proof obligations of the methods that write it.
- The nested nil-able fields of the v3 app (adapter/cloudfoundry/v3/app.go) are
  plain fields, so their nil cases are not modelled.
- services/creatediagram.go: a one-line delegation to `CreateDiagram`; it is
  not part of this model.
- The services `Config` type is not part of this model. Its three fields are
  taken from their use at services/single_app_diagram.go:34, including the
  misspelled `Usename` field, as the username.
- `Services.SingleAppDiagramService.ListAndRender`,
  `CloudFoundry.InsertResources` and `CloudFoundry.LoginParameters` are
  split out of `GetRawDiagram`, `GetResourceList` and `Login` so that each
  proof stays small. They are, in turn, the second half of `GetRawDiagram`,
  the inner loop of `GetResourceList` and the four `Set` calls that open
  `Login`.
