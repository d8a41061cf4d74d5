/** Properties of the single-app diagram service's outcome: which checks
    come first, when it succeeds and with what text, and which of the
    platform's answers it ignores. */
module ServiceProperties {
  import opened Common
  import opened CfModel
  import opened Pagination
  import opened Decoding
  import opened CloudFoundry
  import opened PlantUml
  import opened Services
  import opened DiagramProperties

  /** Without an app id the service answers with the id error, whatever the
      configuration and the platform. */
  lemma EmptyIdRejected(config: ServiceConfig, p: Platform)
    ensures RawDiagramOf(config, "", p) == Returned("", Some(Error(AppIdMissing)))
  {
  }

  /** Whenever the service returns an error, the diagram text is empty. */
  lemma ErrorsCarryNoText(config: ServiceConfig, appId: string, p: Platform)
    requires ReachesListings(config, appId, p) ==> ListingsEnd(p)
    ensures var r := RawDiagramOf(config, appId, p);
      r.Returned? && r.err.Some? ==> r.text == ""
  {
  }

  /** The credentials and the API URL are checked before the platform is
      contacted, with the controller's own messages. */
  lemma CredentialsRequired(config: ServiceConfig, p: Platform)
    ensures forall appId :: appId != "" && config.username == "" ==>
      RawDiagramOf(config, appId, p) == Returned("", Some(Error(UsernameEmpty)))
    ensures forall appId :: appId != "" && config.username != "" && config.password == "" ==>
      RawDiagramOf(config, appId, p) == Returned("", Some(Error(PasswordEmpty)))
    ensures forall appId :: appId != "" && config.username != "" && config.password != "" && config.apiUrl == "" ==>
      RawDiagramOf(config, appId, p) == Returned("", Some(Error(ApiUrlEmpty)))
  {
    var checked := CheckConfig(Some(ControllerConfigOf(config)), p.parse);
    assert config.username == "" ==> checked == Failure(Error(UsernameEmpty));
  }

  /** The service returns a diagram without error exactly when every stage
      passes: an id, a valid configuration, a token request that is sent and
      answered, the app, four listings that reach their last page, and
      organizations and spaces that all decode and hold the app's space and
      organization. The text is then the single-app diagram. */
  lemma DiagramSucceeds(config: ServiceConfig, appId: string, p: Platform, text: string)
    requires ListingsEnd(p)
    ensures RawDiagramOf(config, appId, p) == Returned(text, None) <==>
      && appId != ""
      && CheckConfig(Some(ControllerConfigOf(config)), p.parse).Success?
      && TokenRequested(p) && !p.token.Failed() && !p.app.Failed()
      && !AnyFetchFails(p)
      && AllDecode(Fetched(p.spacePages), p.spaceDecode)
      && AllDecode(Fetched(p.orgPages), p.orgDecode)
      && SingleAppRenderable(GuidMap(Fetched(p.spacePages), p.spaceDecode), GuidMap(Fetched(p.orgPages), p.orgDecode), p.app.value)
      && text == Concat(SingleAppLines(Skin, GuidMap(Fetched(p.spacePages), p.spaceDecode),
                                       GuidMap(Fetched(p.orgPages), p.orgDecode), p.app.value))
  {
  }

  /** A diagram the service returns opens with `@startuml` and closes with
      the footer and `@enduml`. */
  lemma SuccessFramed(config: ServiceConfig, appId: string, p: Platform)
    requires ListingsEnd(p)
    requires RawDiagramOf(config, appId, p).Returned? && RawDiagramOf(config, appId, p).err.None?
    ensures var text := RawDiagramOf(config, appId, p).text;
      && |StartTag| <= |text| && text[..|StartTag|] == StartTag
      && |EndTag| <= |text| && text[|text| - |EndTag|..] == EndTag
  {
    var text := RawDiagramOf(config, appId, p).text;
    DiagramSucceeds(config, appId, p, text);
    SingleAppFrame(Skin, GuidMap(Fetched(p.spacePages), p.spaceDecode), GuidMap(Fetched(p.orgPages), p.orgDecode), p.app.value);
  }

  /** The stack and buildpack listings are requested, but what their
      entities decode to never reaches the outcome. */
  lemma StackAndBuildpackEntitiesIgnored(config: ServiceConfig, appId: string, p: Platform,
                                         stackDecode: Decoder<StackEntity>, buildpackDecode: Decoder<BuildpackEntity>)
    requires ListingsEnd(p)
    ensures ListingsEnd(p.(stackDecode := stackDecode, buildpackDecode := buildpackDecode))
    ensures RawDiagramOf(config, appId, p.(stackDecode := stackDecode, buildpackDecode := buildpackDecode)) ==
            RawDiagramOf(config, appId, p)
  {
  }

  /** Once logged in with the app fetched, a listing whose request fails in
      transport makes the service panic on the nil page it gets back. */
  lemma ListingFailurePanics(config: ServiceConfig, appId: string, p: Platform)
    requires ListingsEnd(p)
    requires appId != "" && CheckConfig(Some(ControllerConfigOf(config)), p.parse).Success?
    requires TokenRequested(p) && !p.token.Failed() && !p.app.Failed()
    requires AnyFetchFails(p)
    ensures RawDiagramOf(config, appId, p) == Panicked
  {
  }

  /** An organization or space entity that does not decode leaves that map
      nil (its error is dropped), and the renderer panics on it. */
  lemma UndecodableListingPanics(config: ServiceConfig, appId: string, p: Platform)
    requires ListingsEnd(p)
    requires appId != "" && CheckConfig(Some(ControllerConfigOf(config)), p.parse).Success?
    requires TokenRequested(p) && !p.token.Failed() && !p.app.Failed() && !AnyFetchFails(p)
    requires !AllDecode(Fetched(p.orgPages), p.orgDecode) || !AllDecode(Fetched(p.spacePages), p.spaceDecode)
    ensures RawDiagramOf(config, appId, p) == Panicked
  {
  }

  /** When no token request is sent (the info reply, the authorization
      endpoint or the request fails), `Login` still reports success and the
      app request dereferences the missing token. */
  lemma MissingTokenPanics(config: ServiceConfig, appId: string, p: Platform)
    requires appId != "" && CheckConfig(Some(ControllerConfigOf(config)), p.parse).Success?
    requires !TokenRequested(p)
    ensures RawDiagramOf(config, appId, p) == Panicked
  {
  }
}
