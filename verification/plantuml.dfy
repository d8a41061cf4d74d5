/** The PlantUML renderer (adapter/plantuml/plantuml.go). Each `Write*`
    procedure appends one group of text to a string builder; the text a
    diagram consists of is described by functions returning those groups in
    order (`DiagramLines`, `SingleAppLines`), and the procedures are proved to
    write exactly their concatenation. Go's map iteration order is an
    unspecified permutation of the keys, returned as a ghost `order`. */
module PlantUml {
  import opened Common
  import opened CfModel
  import opened CloudFoundry

  // ---------------------------------------------------------------------
  // Aliases and fixed text

  /** `TrimGUID`: the identifier with every `-` removed, usable as an
      unquoted PlantUML alias. */
  function TrimGuid(guid: string): (t: string)
    ensures '-' !in t
    ensures |t| <= |guid|
    ensures forall c :: c != '-' ==> multiset(t)[c] == multiset(guid)[c]
  {
    if guid == [] then []
    else
      assert guid == [guid[0]] + guid[1..];
      (if guid[0] == '-' then [] else [guid[0]]) + TrimGuid(guid[1..])
  }

  const StartTag := "@startuml\n"
  const FooterLine := "center footer Generated with cloudpaint (https://github.com/nrekretep/cloudpaint)\n"
  const EndLine := "@enduml\n"
  /** What `WriteEndTag` writes: the footer, then the closing tag. */
  const EndTag := FooterLine + EndLine
  const BlankLine := "\n"

  /** The style block `WriteSkin` writes before its newline; a renderer
      holds it as its `skin`. */
  const Skin: string :=
    "skinparam componentStyle uml2\n\nskinparam component {\n\t\nFontSize 18\nFontName Impact\nFontColor #009F9D\n\t\n" +
    "StereotypeFontName Impact\nStereotypeFontSize 14\nStereotypeFontColor #0f0a3c\n\t\nBorderColor #0F0A3C\n\t\n" +
    "BackgroundColor #cdffeb\n\t\nArrowFontName Impact\nArrowColor #0F0A3C\nArrowFontColor #777777\n}\n\t\n" +
    "skinparam titleBorderRoundCorner 5\nskinparam titleBorderThickness 2\nskinparam titleBorderColor #393e46\n" +
    "skinparam titleBackgroundColor #eeeeee\n\t\nskinparam footerFontColor #07456f"

  /** A component declaration `[name] <<stereotype>> as alias`. */
  function NodeLine(name: string, stereotype: string, alias: string): string
  {
    "[" + name + "] <<" + stereotype + ">> as " + alias + "\n"
  }

  /** The bold declaration of the single-app diagram. */
  function BoldNodeLine(name: string, stereotype: string, alias: string): string
  {
    "[**" + name + "**] <<" + stereotype + ">> as " + alias + "\n"
  }

  /** A relationship `from --> to`. */
  function EdgeLine(from: string, to: string): string
  {
    from + " --> " + to + "\n"
  }

  // ---------------------------------------------------------------------
  // The whole-landscape diagram

  /** The text one iteration of a section's loop writes for each map key
      (keys for which the loop writes nothing are absent). */
  function StackNodeLines(stacks: map<string, StackInfo>): map<string, string>
  {
    map k | k in stacks :: NodeLine(stacks[k].entity.name, "stack", stacks[k].entity.name)
  }

  function BuildpackNodeLines(buildpacks: map<string, BuildpackInfo>): map<string, string>
  {
    map k | k in buildpacks :: NodeLine(buildpacks[k].entity.name, "buildpack", TrimGuid(buildpacks[k].metadata.guid))
  }

  /** Edges only for buildpacks bound to a stack; the target is the name of
      the stack found under the buildpack's stack name. */
  function BuildpackStackEdgeLines(buildpacks: map<string, BuildpackInfo>, stacks: map<string, StackInfo>): (m: map<string, string>)
    requires forall k :: k in buildpacks && buildpacks[k].entity.stack != "" ==> buildpacks[k].entity.stack in stacks
    ensures m.Keys == set k | k in buildpacks && buildpacks[k].entity.stack != ""
  {
    map k | k in buildpacks && buildpacks[k].entity.stack != "" ::
      EdgeLine(TrimGuid(buildpacks[k].metadata.guid), stacks[buildpacks[k].entity.stack].entity.name)
  }

  function OrgNodeLines(orgs: map<string, OrganizationInfo>): map<string, string>
  {
    map k | k in orgs :: NodeLine(orgs[k].entity.name, "org", TrimGuid(orgs[k].metadata.guid))
  }

  function SpaceNodeLines(spaces: map<string, SpaceInfo>): map<string, string>
  {
    map k | k in spaces :: NodeLine(spaces[k].entity.name, "space", TrimGuid(spaces[k].metadata.guid))
  }

  function OrgSpaceEdgeLines(spaces: map<string, SpaceInfo>, orgs: map<string, OrganizationInfo>): map<string, string>
    requires forall k :: k in spaces ==> spaces[k].entity.organizationGuid in orgs
  {
    map k | k in spaces ::
      EdgeLine(TrimGuid(orgs[spaces[k].entity.organizationGuid].metadata.guid), TrimGuid(spaces[k].metadata.guid))
  }

  function AppNodeLines(apps: map<string, AppInfo>): map<string, string>
  {
    map k | k in apps :: NodeLine(apps[k].entity.name, "app", TrimGuid(apps[k].metadata.guid))
  }

  function SpaceAppEdgeLines(apps: map<string, AppInfo>, spaces: map<string, SpaceInfo>): map<string, string>
    requires forall k :: k in apps ==> apps[k].entity.spaceGuid in spaces
  {
    map k | k in apps ::
      EdgeLine(TrimGuid(spaces[apps[k].entity.spaceGuid].metadata.guid), TrimGuid(apps[k].metadata.guid))
  }

  /** Every app gets a newline; the edge text before it only when a
      buildpack was detected. */
  function AppBuildpackEdgeLines(apps: map<string, AppInfo>, buildpacks: map<string, BuildpackInfo>): (m: map<string, string>)
    requires forall k :: k in apps && apps[k].entity.detectedBuildpackGuid != "" ==>
      apps[k].entity.detectedBuildpackGuid in buildpacks
    ensures m.Keys == apps.Keys
    ensures forall k :: k in apps ==> (m[k] == "\n" <==> apps[k].entity.detectedBuildpackGuid == "")
  {
    map k | k in apps ::
      if apps[k].entity.detectedBuildpackGuid != "" then
        TrimGuid(apps[k].metadata.guid) + " --> " +
        TrimGuid(buildpacks[apps[k].entity.detectedBuildpackGuid].metadata.guid) + "\n"
      else "\n"
  }

  /** The groups a loop writes when it visits the keys in `order`. */
  function Emit<K>(lines: map<K, string>, order: seq<K>): seq<string>
  {
    if order == [] then []
    else
      var last := order[|order| - 1];
      Emit(lines, order[..|order| - 1]) + (if last in lines then [lines[last]] else [])
  }

  lemma EmitStep<K>(lines: map<K, string>, order: seq<K>, k: K)
    ensures Emit(lines, order + [k]) == Emit(lines, order) + (if k in lines then [lines[k]] else [])
  {
    assert (order + [k])[..|order|] == order;
  }

  /** A `WriteAll*` section: its loop, then one blank line. */
  function Section<K>(lines: map<K, string>, order: seq<K>): seq<string>
  {
    Emit(lines, order) + [BlankLine]
  }

  /** The five maps the whole-landscape diagram reads. */
  datatype Landscape = Landscape(
    stacks: map<string, StackInfo>,
    buildpacks: map<string, BuildpackInfo>,
    orgs: map<string, OrganizationInfo>,
    spaces: map<string, SpaceInfo>,
    apps: map<string, AppInfo>)

  /** Every foreign key the renderer follows is present; a missing one is a
      nil dereference in the source. */
  predicate Renderable(l: Landscape)
  {
    && (forall k :: k in l.buildpacks && l.buildpacks[k].entity.stack != "" ==> l.buildpacks[k].entity.stack in l.stacks)
    && (forall k :: k in l.spaces ==> l.spaces[k].entity.organizationGuid in l.orgs)
    && (forall k :: k in l.apps ==> l.apps[k].entity.spaceGuid in l.spaces)
    && (forall k :: k in l.apps && l.apps[k].entity.detectedBuildpackGuid != "" ==>
          l.apps[k].entity.detectedBuildpackGuid in l.buildpacks)
  }

  /** The order in which each of the nine loops visits its map. */
  datatype DiagramOrder = DiagramOrder(
    stacks: seq<string>,
    buildpacks: seq<string>,
    buildpackEdges: seq<string>,
    orgs: seq<string>,
    spaces: seq<string>,
    orgSpaceEdges: seq<string>,
    apps: seq<string>,
    spaceAppEdges: seq<string>,
    appBuildpackEdges: seq<string>)

  ghost predicate Iterates(o: DiagramOrder, l: Landscape)
  {
    && IsOrderOf(o.stacks, l.stacks.Keys)
    && IsOrderOf(o.buildpacks, l.buildpacks.Keys)
    && IsOrderOf(o.buildpackEdges, l.buildpacks.Keys)
    && IsOrderOf(o.orgs, l.orgs.Keys)
    && IsOrderOf(o.spaces, l.spaces.Keys)
    && IsOrderOf(o.orgSpaceEdges, l.spaces.Keys)
    && IsOrderOf(o.apps, l.apps.Keys)
    && IsOrderOf(o.spaceAppEdges, l.apps.Keys)
    && IsOrderOf(o.appBuildpackEdges, l.apps.Keys)
  }

  /** The groups `CreateDiagram` writes, section by section. */
  function DiagramLines(l: Landscape, o: DiagramOrder): seq<string>
    requires Renderable(l)
  {
    [StartTag]
    + Section(StackNodeLines(l.stacks), o.stacks)
    + Section(BuildpackNodeLines(l.buildpacks), o.buildpacks)
    + Section(BuildpackStackEdgeLines(l.buildpacks, l.stacks), o.buildpackEdges)
    + Section(OrgNodeLines(l.orgs), o.orgs)
    + Section(SpaceNodeLines(l.spaces), o.spaces)
    + Section(OrgSpaceEdgeLines(l.spaces, l.orgs), o.orgSpaceEdges)
    + Section(AppNodeLines(l.apps), o.apps)
    + Section(SpaceAppEdgeLines(l.apps, l.spaces), o.spaceAppEdges)
    + Section(AppBuildpackEdgeLines(l.apps, l.buildpacks), o.appBuildpackEdges)
    + [EndTag]
  }

  /** The landscape a controller holds once all five maps are loaded. */
  function LandscapeOf(c: CloudController): Landscape
    reads c
    requires c.stackMap.Some? && c.buildpackMap.Some? && c.organizationMap.Some?
    requires c.spaceMap.Some? && c.appMap.Some?
  {
    Landscape(c.stackMap.value, c.buildpackMap.value, c.organizationMap.value, c.spaceMap.value, c.appMap.value)
  }

  // ---------------------------------------------------------------------
  // The single-app diagram

  function TitleLine(title: string): string
  {
    "title " + title + "\n"
  }

  /** The app component with its name, state and timestamps. */
  function AppComponent(app: App): string
  {
    "component " + TrimGuid(app.guid) + " <<app>> [\n**" + app.name + "**\n" +
    ("State: " + app.state + "\n") +
    ("Created at: " + app.createdAt + "\n") +
    ("Updated at: " + app.updatedAt + "\n") +
    "]" + "\n"
  }

  /** One node and one edge from the app per listed buildpack, in order. */
  function BuildpackLines(appGuid: string, buildpacks: seq<string>): seq<string>
  {
    if buildpacks == [] then []
    else
      var b := buildpacks[|buildpacks| - 1];
      BuildpackLines(appGuid, buildpacks[..|buildpacks| - 1]) +
      [BoldNodeLine(b, "buildpack", b), EdgeLine(TrimGuid(appGuid), b)]
  }

  /** The app's space and that space's organization are loaded. */
  predicate SingleAppRenderable(spaces: map<string, SpaceInfo>, orgs: map<string, OrganizationInfo>, app: App)
  {
    app.relationships.spaceGuid in spaces &&
    spaces[app.relationships.spaceGuid].entity.organizationGuid in orgs
  }

  /** The groups `CreateSingleAppDiagram` writes. */
  function SingleAppLines(skin: string, spaces: map<string, SpaceInfo>, orgs: map<string, OrganizationInfo>, app: App): seq<string>
    requires SingleAppRenderable(spaces, orgs, app)
  {
    SingleAppHeadLines(skin, spaces, orgs, app) + LifecycleLines(app) + SingleAppTailLines(app)
  }

  /** Start tag, skin, title, the space and its organization, and the app. */
  function SingleAppHeadLines(skin: string, spaces: map<string, SpaceInfo>, orgs: map<string, OrganizationInfo>, app: App): seq<string>
    requires SingleAppRenderable(spaces, orgs, app)
  {
    var space := spaces[app.relationships.spaceGuid];
    var org := orgs[space.entity.organizationGuid];
    [ StartTag,
      skin + "\n",
      TitleLine("Single App Diagram - " + app.name),
      BoldNodeLine(space.entity.name, "space", TrimGuid(space.metadata.guid)),
      BoldNodeLine(org.entity.name, "organization", TrimGuid(org.metadata.guid)),
      EdgeLine(TrimGuid(org.metadata.guid), TrimGuid(space.metadata.guid)),
      AppComponent(app)]
  }

  /** For a buildpack app: its buildpacks, then its stack. */
  function LifecycleLines(app: App): seq<string>
  {
    if app.lifecycle.kind == "buildpack" then
      BuildpackLines(app.guid, app.lifecycle.data.buildpacks) +
      [ BoldNodeLine(app.lifecycle.data.stack, "stack", app.lifecycle.data.stack),
        EdgeLine(TrimGuid(app.guid), app.lifecycle.data.stack)]
    else []
  }

  /** The space-to-app edge and the end tag. */
  function SingleAppTailLines(app: App): seq<string>
  {
    [ EdgeLine(TrimGuid(app.relationships.spaceGuid), TrimGuid(app.guid)), EndTag]
  }

  // ---------------------------------------------------------------------
  // The writers

  /** `strings.Builder`: text only grows at its end. */
  class StringBuilder {
    var text: string

    constructor ()
      ensures text == ""
    {
      text := "";
    }

    method WriteString(s: string)
      modifies this
      ensures text == old(text) + s
    {
      text := text + s;
    }
  }

  class PlantUml {
    const controller: CloudController
    const skin: string

    /** `NewPlantUML`: a renderer over the given controller. */
    constructor (c: CloudController)
      ensures controller == c && skin == Skin
    {
      controller := c;
      skin := Skin;
    }

    method WriteStartTag(sb: StringBuilder)
      modifies sb
      ensures sb.text == old(sb.text) + StartTag
    {
      sb.WriteString("@startuml\n");
    }

    method WriteEndTag(sb: StringBuilder)
      modifies sb
      ensures sb.text == old(sb.text) + EndTag
    {
      sb.WriteString("center footer Generated with cloudpaint (https://github.com/nrekretep/cloudpaint)\n");
      sb.WriteString("@enduml\n");
    }

    method WriteTitle(sb: StringBuilder, diagramTitle: string)
      modifies sb
      ensures sb.text == old(sb.text) + TitleLine(diagramTitle)
    {
      sb.WriteString("title " + diagramTitle + "\n");
    }

    method WriteSkin(sb: StringBuilder)
      modifies sb
      ensures sb.text == old(sb.text) + (skin + "\n")
    {
      sb.WriteString(skin);
      sb.WriteString("\n");
      AppendAssoc(old(sb.text), skin, "\n");
    }

    method WriteAppStackRelation(sb: StringBuilder, app: App, s: string)
      modifies sb
      ensures sb.text == old(sb.text) + EdgeLine(TrimGuid(app.guid), s)
    {
      sb.WriteString(TrimGuid(app.guid));
      sb.WriteString(" --> ");
      sb.WriteString(s);
      sb.WriteString("\n");
    }

    method WriteStack(sb: StringBuilder, s: string)
      modifies sb
      ensures sb.text == old(sb.text) + BoldNodeLine(s, "stack", s)
    {
      sb.WriteString("[**");
      sb.WriteString(s);
      sb.WriteString("**] <<stack>> as ");
      sb.WriteString(s);
      sb.WriteString("\n");
      BoldNodeTextStack(old(sb.text), s, s);
    }

    method WriteAppBuildpackRelation(sb: StringBuilder, app: App, b: string)
      modifies sb
      ensures sb.text == old(sb.text) + EdgeLine(TrimGuid(app.guid), b)
    {
      sb.WriteString(TrimGuid(app.guid));
      sb.WriteString(" --> ");
      sb.WriteString(b);
      sb.WriteString("\n");
    }

    method WriteBuildpack(sb: StringBuilder, b: string)
      modifies sb
      ensures sb.text == old(sb.text) + BoldNodeLine(b, "buildpack", b)
    {
      sb.WriteString("[**");
      sb.WriteString(b);
      sb.WriteString("**] <<buildpack>> as ");
      sb.WriteString(b);
      sb.WriteString("\n");
      BoldNodeTextBuildpack(old(sb.text), b, b);
    }

    method WriteApp(sb: StringBuilder, app: App)
      modifies sb
      ensures sb.text == old(sb.text) + AppComponent(app)
    {
      sb.WriteString("component ");
      sb.WriteString(TrimGuid(app.guid));
      sb.WriteString(" <<app>> [\n**");
      sb.WriteString(app.name);
      sb.WriteString("**\n");
      sb.WriteString("State: " + app.state + "\n");
      sb.WriteString("Created at: " + app.createdAt + "\n");
      sb.WriteString("Updated at: " + app.updatedAt + "\n");
      sb.WriteString("]");
      sb.WriteString("\n");
      AppText(old(sb.text), TrimGuid(app.guid), app.name, "State: " + app.state + "\n",
        "Created at: " + app.createdAt + "\n", "Updated at: " + app.updatedAt + "\n");
    }

    method WriteAppSpaceRelation(sb: StringBuilder, app: App)
      modifies sb
      ensures sb.text == old(sb.text) + EdgeLine(TrimGuid(app.relationships.spaceGuid), TrimGuid(app.guid))
    {
      sb.WriteString(TrimGuid(app.relationships.spaceGuid));
      sb.WriteString(" --> ");
      sb.WriteString(TrimGuid(app.guid));
      sb.WriteString("\n");
    }

    method WriteOrgSpaceRelation(sb: StringBuilder, orgGuid: string, spaceGuid: string)
      modifies sb
      ensures sb.text == old(sb.text) + EdgeLine(TrimGuid(orgGuid), TrimGuid(spaceGuid))
    {
      sb.WriteString(TrimGuid(orgGuid));
      sb.WriteString(" --> ");
      sb.WriteString(TrimGuid(spaceGuid));
      sb.WriteString("\n");
    }

    method WriteOrg(sb: StringBuilder, org: OrganizationInfo)
      modifies sb
      ensures sb.text == old(sb.text) + BoldNodeLine(org.entity.name, "organization", TrimGuid(org.metadata.guid))
    {
      sb.WriteString("[**");
      sb.WriteString(org.entity.name);
      sb.WriteString("**] <<organization>> as ");
      sb.WriteString(TrimGuid(org.metadata.guid));
      sb.WriteString("\n");
      BoldNodeTextOrganization(old(sb.text), org.entity.name, TrimGuid(org.metadata.guid));
    }

    method WriteSpace(sb: StringBuilder, space: SpaceInfo)
      modifies sb
      ensures sb.text == old(sb.text) + BoldNodeLine(space.entity.name, "space", TrimGuid(space.metadata.guid))
    {
      sb.WriteString("[**");
      sb.WriteString(space.entity.name);
      sb.WriteString("**] <<space>> as ");
      sb.WriteString(TrimGuid(space.metadata.guid));
      sb.WriteString("\n");
      BoldNodeTextSpace(old(sb.text), space.entity.name, TrimGuid(space.metadata.guid));
    }

    /** One declaration per stack, aliased by its name, then a blank line. */
    method WriteAllStacks(sb: StringBuilder) returns (ghost order: seq<string>)
      requires controller.stackMap.Some?
      modifies sb
      ensures IsOrderOf(order, controller.stackMap.value.Keys)
      ensures sb.text == old(sb.text) + Concat(Section(StackNodeLines(controller.stackMap.value), order))
    {
      var stacks := controller.stackMap.value;
      var remaining := stacks.Keys;
      order := [];
      VisitStart(stacks.Keys);
      while remaining != {}
        invariant Visiting(order, remaining, stacks.Keys)
        invariant sb.text == old(sb.text) + Concat(Emit(StackNodeLines(stacks), order))
        decreases remaining
      {
        var k :| k in remaining;
        var v := stacks[k];
        ghost var before := sb.text;
        sb.WriteString("[");
        sb.WriteString(v.entity.name);
        sb.WriteString("] <<stack>> as ");
        sb.WriteString(v.entity.name);
        sb.WriteString("\n");
        StackStep(old(sb.text), stacks, order, k, before);
        VisitStep(order, remaining, stacks.Keys, k);
        order := order + [k];
        remaining := remaining - {k};
      }
      VisitDone(order, stacks.Keys);
      sb.WriteString("\n");
      ConcatAppend(Emit(StackNodeLines(stacks), order), BlankLine);
    }

    /** One declaration per buildpack, then a blank line. */
    method WriteAllBuildpacks(sb: StringBuilder) returns (ghost order: seq<string>)
      requires controller.buildpackMap.Some?
      modifies sb
      ensures IsOrderOf(order, controller.buildpackMap.value.Keys)
      ensures sb.text == old(sb.text) + Concat(Section(BuildpackNodeLines(controller.buildpackMap.value), order))
    {
      var buildpacks := controller.buildpackMap.value;
      var remaining := buildpacks.Keys;
      order := [];
      VisitStart(buildpacks.Keys);
      while remaining != {}
        invariant Visiting(order, remaining, buildpacks.Keys)
        invariant sb.text == old(sb.text) + Concat(Emit(BuildpackNodeLines(buildpacks), order))
        decreases remaining
      {
        var k :| k in remaining;
        var v := buildpacks[k];
        ghost var before := sb.text;
        sb.WriteString("[");
        sb.WriteString(v.entity.name);
        sb.WriteString("] <<buildpack>> as ");
        sb.WriteString(TrimGuid(v.metadata.guid));
        sb.WriteString("\n");
        BuildpackStep(old(sb.text), buildpacks, order, k, before);
        VisitStep(order, remaining, buildpacks.Keys, k);
        order := order + [k];
        remaining := remaining - {k};
      }
      VisitDone(order, buildpacks.Keys);
      sb.WriteString("\n");
      ConcatAppend(Emit(BuildpackNodeLines(buildpacks), order), BlankLine);
    }

    /** An edge from each buildpack bound to a stack to that stack, then a blank line. */
    method WriteBuildpackStackRelation(sb: StringBuilder) returns (ghost order: seq<string>)
      requires controller.buildpackMap.Some? && controller.stackMap.Some?
      requires forall k :: k in controller.buildpackMap.value && controller.buildpackMap.value[k].entity.stack != "" ==>
        controller.buildpackMap.value[k].entity.stack in controller.stackMap.value
      modifies sb
      ensures IsOrderOf(order, controller.buildpackMap.value.Keys)
      ensures sb.text == old(sb.text) + Concat(Section(BuildpackStackEdgeLines(controller.buildpackMap.value, controller.stackMap.value), order))
    {
      var buildpacks := controller.buildpackMap.value;
      var stacks := controller.stackMap.value;
      var remaining := buildpacks.Keys;
      order := [];
      VisitStart(buildpacks.Keys);
      while remaining != {}
        invariant Visiting(order, remaining, buildpacks.Keys)
        invariant sb.text == old(sb.text) + Concat(Emit(BuildpackStackEdgeLines(buildpacks, stacks), order))
        decreases remaining
      {
        var k :| k in remaining;
        var v := buildpacks[k];
        ghost var before := sb.text;
        if v.entity.stack != "" {
          sb.WriteString(TrimGuid(v.metadata.guid));
          sb.WriteString(" --> ");
          sb.WriteString(stacks[v.entity.stack].entity.name);
          sb.WriteString("\n");
        }
        BuildpackStackStep(old(sb.text), buildpacks, stacks, order, k, before);
        VisitStep(order, remaining, buildpacks.Keys, k);
        order := order + [k];
        remaining := remaining - {k};
      }
      VisitDone(order, buildpacks.Keys);
      sb.WriteString("\n");
      ConcatAppend(Emit(BuildpackStackEdgeLines(buildpacks, stacks), order), BlankLine);
    }

    /** One declaration per organization, then a blank line. */
    method WriteAllOrgs(sb: StringBuilder) returns (ghost order: seq<string>)
      requires controller.organizationMap.Some?
      modifies sb
      ensures IsOrderOf(order, controller.organizationMap.value.Keys)
      ensures sb.text == old(sb.text) + Concat(Section(OrgNodeLines(controller.organizationMap.value), order))
    {
      var orgs := controller.organizationMap.value;
      var remaining := orgs.Keys;
      order := [];
      VisitStart(orgs.Keys);
      while remaining != {}
        invariant Visiting(order, remaining, orgs.Keys)
        invariant sb.text == old(sb.text) + Concat(Emit(OrgNodeLines(orgs), order))
        decreases remaining
      {
        var k :| k in remaining;
        var v := orgs[k];
        ghost var before := sb.text;
        sb.WriteString("[");
        sb.WriteString(v.entity.name);
        sb.WriteString("] <<org>> as ");
        sb.WriteString(TrimGuid(v.metadata.guid));
        sb.WriteString("\n");
        OrgStep(old(sb.text), orgs, order, k, before);
        VisitStep(order, remaining, orgs.Keys, k);
        order := order + [k];
        remaining := remaining - {k};
      }
      VisitDone(order, orgs.Keys);
      sb.WriteString("\n");
      ConcatAppend(Emit(OrgNodeLines(orgs), order), BlankLine);
    }

    /** One declaration per space, then a blank line. */
    method WriteAllSpaces(sb: StringBuilder) returns (ghost order: seq<string>)
      requires controller.spaceMap.Some?
      modifies sb
      ensures IsOrderOf(order, controller.spaceMap.value.Keys)
      ensures sb.text == old(sb.text) + Concat(Section(SpaceNodeLines(controller.spaceMap.value), order))
    {
      var spaces := controller.spaceMap.value;
      var remaining := spaces.Keys;
      order := [];
      VisitStart(spaces.Keys);
      while remaining != {}
        invariant Visiting(order, remaining, spaces.Keys)
        invariant sb.text == old(sb.text) + Concat(Emit(SpaceNodeLines(spaces), order))
        decreases remaining
      {
        var k :| k in remaining;
        var v := spaces[k];
        ghost var before := sb.text;
        sb.WriteString("[");
        sb.WriteString(v.entity.name);
        sb.WriteString("] <<space>> as ");
        sb.WriteString(TrimGuid(v.metadata.guid));
        sb.WriteString("\n");
        SpaceStep(old(sb.text), spaces, order, k, before);
        VisitStep(order, remaining, spaces.Keys, k);
        order := order + [k];
        remaining := remaining - {k};
      }
      VisitDone(order, spaces.Keys);
      sb.WriteString("\n");
      ConcatAppend(Emit(SpaceNodeLines(spaces), order), BlankLine);
    }

    /** An edge from its organization to each space, then a blank line. */
    method WriteAllOrgSpaceRelations(sb: StringBuilder) returns (ghost order: seq<string>)
      requires controller.spaceMap.Some? && controller.organizationMap.Some?
      requires forall k :: k in controller.spaceMap.value ==>
        controller.spaceMap.value[k].entity.organizationGuid in controller.organizationMap.value
      modifies sb
      ensures IsOrderOf(order, controller.spaceMap.value.Keys)
      ensures sb.text == old(sb.text) + Concat(Section(OrgSpaceEdgeLines(controller.spaceMap.value, controller.organizationMap.value), order))
    {
      var spaces := controller.spaceMap.value;
      var orgs := controller.organizationMap.value;
      var remaining := spaces.Keys;
      order := [];
      VisitStart(spaces.Keys);
      while remaining != {}
        invariant Visiting(order, remaining, spaces.Keys)
        invariant sb.text == old(sb.text) + Concat(Emit(OrgSpaceEdgeLines(spaces, orgs), order))
        decreases remaining
      {
        var k :| k in remaining;
        var v := spaces[k];
        ghost var before := sb.text;
        sb.WriteString(TrimGuid(orgs[v.entity.organizationGuid].metadata.guid));
        sb.WriteString(" --> ");
        sb.WriteString(TrimGuid(v.metadata.guid));
        sb.WriteString("\n");
        OrgSpaceStep(old(sb.text), spaces, orgs, order, k, before);
        VisitStep(order, remaining, spaces.Keys, k);
        order := order + [k];
        remaining := remaining - {k};
      }
      VisitDone(order, spaces.Keys);
      sb.WriteString("\n");
      ConcatAppend(Emit(OrgSpaceEdgeLines(spaces, orgs), order), BlankLine);
    }

    /** One declaration per app, then a blank line. */
    method WriteAllApps(sb: StringBuilder) returns (ghost order: seq<string>)
      requires controller.appMap.Some?
      modifies sb
      ensures IsOrderOf(order, controller.appMap.value.Keys)
      ensures sb.text == old(sb.text) + Concat(Section(AppNodeLines(controller.appMap.value), order))
    {
      var apps := controller.appMap.value;
      var remaining := apps.Keys;
      order := [];
      VisitStart(apps.Keys);
      while remaining != {}
        invariant Visiting(order, remaining, apps.Keys)
        invariant sb.text == old(sb.text) + Concat(Emit(AppNodeLines(apps), order))
        decreases remaining
      {
        var k :| k in remaining;
        var v := apps[k];
        ghost var before := sb.text;
        sb.WriteString("[");
        sb.WriteString(v.entity.name);
        sb.WriteString("] <<app>> as ");
        sb.WriteString(TrimGuid(v.metadata.guid));
        sb.WriteString("\n");
        AppStep(old(sb.text), apps, order, k, before);
        VisitStep(order, remaining, apps.Keys, k);
        order := order + [k];
        remaining := remaining - {k};
      }
      VisitDone(order, apps.Keys);
      sb.WriteString("\n");
      ConcatAppend(Emit(AppNodeLines(apps), order), BlankLine);
    }

    /** An edge from its space to each app, then a blank line. */
    method WriteSpaceAppRelation(sb: StringBuilder) returns (ghost order: seq<string>)
      requires controller.appMap.Some? && controller.spaceMap.Some?
      requires forall k :: k in controller.appMap.value ==> controller.appMap.value[k].entity.spaceGuid in controller.spaceMap.value
      modifies sb
      ensures IsOrderOf(order, controller.appMap.value.Keys)
      ensures sb.text == old(sb.text) + Concat(Section(SpaceAppEdgeLines(controller.appMap.value, controller.spaceMap.value), order))
    {
      var apps := controller.appMap.value;
      var spaces := controller.spaceMap.value;
      var remaining := apps.Keys;
      order := [];
      VisitStart(apps.Keys);
      while remaining != {}
        invariant Visiting(order, remaining, apps.Keys)
        invariant sb.text == old(sb.text) + Concat(Emit(SpaceAppEdgeLines(apps, spaces), order))
        decreases remaining
      {
        var k :| k in remaining;
        var v := apps[k];
        ghost var before := sb.text;
        sb.WriteString(TrimGuid(spaces[v.entity.spaceGuid].metadata.guid));
        sb.WriteString(" --> ");
        sb.WriteString(TrimGuid(v.metadata.guid));
        sb.WriteString("\n");
        SpaceAppStep(old(sb.text), apps, spaces, order, k, before);
        VisitStep(order, remaining, apps.Keys, k);
        order := order + [k];
        remaining := remaining - {k};
      }
      VisitDone(order, apps.Keys);
      sb.WriteString("\n");
      ConcatAppend(Emit(SpaceAppEdgeLines(apps, spaces), order), BlankLine);
    }

    /** For each app, an edge to its detected buildpack if it has one, and a newline in any case; then a blank line. */
    method WriteAllAppBuildpackRelation(sb: StringBuilder) returns (ghost order: seq<string>)
      requires controller.appMap.Some? && controller.buildpackMap.Some?
      requires forall k :: k in controller.appMap.value && controller.appMap.value[k].entity.detectedBuildpackGuid != "" ==>
        controller.appMap.value[k].entity.detectedBuildpackGuid in controller.buildpackMap.value
      modifies sb
      ensures IsOrderOf(order, controller.appMap.value.Keys)
      ensures sb.text == old(sb.text) + Concat(Section(AppBuildpackEdgeLines(controller.appMap.value, controller.buildpackMap.value), order))
    {
      var apps := controller.appMap.value;
      var buildpacks := controller.buildpackMap.value;
      var remaining := apps.Keys;
      order := [];
      VisitStart(apps.Keys);
      while remaining != {}
        invariant Visiting(order, remaining, apps.Keys)
        invariant sb.text == old(sb.text) + Concat(Emit(AppBuildpackEdgeLines(apps, buildpacks), order))
        decreases remaining
      {
        var k :| k in remaining;
        var v := apps[k];
        ghost var before := sb.text;
        if v.entity.detectedBuildpackGuid != "" {
          sb.WriteString(TrimGuid(v.metadata.guid));
          sb.WriteString(" --> ");
          sb.WriteString(TrimGuid(buildpacks[v.entity.detectedBuildpackGuid].metadata.guid));
        }
        sb.WriteString("\n");
        AppBuildpackStep(old(sb.text), apps, buildpacks, order, k, before);
        VisitStep(order, remaining, apps.Keys, k);
        order := order + [k];
        remaining := remaining - {k};
      }
      VisitDone(order, apps.Keys);
      sb.WriteString("\n");
      ConcatAppend(Emit(AppBuildpackEdgeLines(apps, buildpacks), order), BlankLine);
    }

    /** `CreateDiagram`: the whole landscape, in the fixed section order. */
    method CreateDiagram() returns (text: string, ghost order: DiagramOrder)
      requires controller.stackMap.Some? && controller.buildpackMap.Some? && controller.organizationMap.Some?
      requires controller.spaceMap.Some? && controller.appMap.Some?
      requires Renderable(LandscapeOf(controller))
      ensures Iterates(order, LandscapeOf(controller))
      ensures text == Concat(DiagramLines(LandscapeOf(controller), order))
    {
      var sb := new StringBuilder();
      ghost var l := LandscapeOf(controller);

      WriteStartTag(sb);
      ghost var t0 := sb.text;
      assert t0 == StartTag;

      ghost var stacks := WriteAllStacks(sb);
      ghost var t1 := sb.text;
      assert t1 == t0 + Concat(Section(StackNodeLines(l.stacks), stacks));
      ghost var buildpacks := WriteAllBuildpacks(sb);
      ghost var t2 := sb.text;
      assert t2 == t1 + Concat(Section(BuildpackNodeLines(l.buildpacks), buildpacks));
      ghost var buildpackEdges := WriteBuildpackStackRelation(sb);
      ghost var t3 := sb.text;
      assert t3 == t2 + Concat(Section(BuildpackStackEdgeLines(l.buildpacks, l.stacks), buildpackEdges));

      ghost var orgs := WriteAllOrgs(sb);
      ghost var t4 := sb.text;
      assert t4 == t3 + Concat(Section(OrgNodeLines(l.orgs), orgs));
      ghost var spaces := WriteAllSpaces(sb);
      ghost var t5 := sb.text;
      assert t5 == t4 + Concat(Section(SpaceNodeLines(l.spaces), spaces));
      ghost var orgSpaceEdges := WriteAllOrgSpaceRelations(sb);
      ghost var t6 := sb.text;
      assert t6 == t5 + Concat(Section(OrgSpaceEdgeLines(l.spaces, l.orgs), orgSpaceEdges));

      ghost var apps := WriteAllApps(sb);
      ghost var t7 := sb.text;
      assert t7 == t6 + Concat(Section(AppNodeLines(l.apps), apps));
      ghost var spaceAppEdges := WriteSpaceAppRelation(sb);
      ghost var t8 := sb.text;
      assert t8 == t7 + Concat(Section(SpaceAppEdgeLines(l.apps, l.spaces), spaceAppEdges));
      ghost var appBuildpackEdges := WriteAllAppBuildpackRelation(sb);
      ghost var t9 := sb.text;
      assert t9 == t8 + Concat(Section(AppBuildpackEdgeLines(l.apps, l.buildpacks), appBuildpackEdges));
      WriteEndTag(sb);

      order := DiagramOrder(stacks, buildpacks, buildpackEdges, orgs, spaces, orgSpaceEdges, apps, spaceAppEdges, appBuildpackEdges);
      DiagramText(l, order);
      assert LandscapeOf(controller) == l;
      return sb.text, order;
    }

    /** `CreateSingleAppDiagram`: the app, its space and organization, and
        for a buildpack app its buildpacks and stack. */
    method CreateSingleAppDiagram(app: App) returns (text: string)
      requires controller.spaceMap.Some? && controller.organizationMap.Some?
      requires SingleAppRenderable(controller.spaceMap.value, controller.organizationMap.value, app)
      ensures text == Concat(SingleAppLines(skin, controller.spaceMap.value, controller.organizationMap.value, app))
    {
      var spaces, orgs := controller.spaceMap.value, controller.organizationMap.value;
      var sb := new StringBuilder();

      WriteStartTag(sb);
      AppendEmpty(StartTag);
      WriteSkin(sb);

      WriteTitle(sb, "Single App Diagram - " + app.name);

      var space := spaces[app.relationships.spaceGuid];
      WriteSpace(sb, space);

      var org := orgs[space.entity.organizationGuid];
      WriteOrg(sb, org);

      WriteOrgSpaceRelation(sb, org.metadata.guid, space.metadata.guid);

      WriteApp(sb, app);
      ghost var head := sb.text;
      assert head == SingleAppHead(skin, spaces, orgs, app);

      if app.lifecycle.kind == "buildpack" {
        var buildpacks := app.lifecycle.data.buildpacks;
        assert buildpacks[..0] == [];
        AppendEmpty(head);
        for i := 0 to |buildpacks|
          invariant sb.text == head + Concat(BuildpackLines(app.guid, buildpacks[..i]))
        {
          var b := buildpacks[i];
          ghost var before := sb.text;
          WriteBuildpack(sb, b);
          WriteAppBuildpackRelation(sb, app, b);
          BuildpackLinesStep(head, app.guid, buildpacks, i, before);
        }
        assert buildpacks[..|buildpacks|] == buildpacks;

        WriteStack(sb, app.lifecycle.data.stack);
        WriteAppStackRelation(sb, app, app.lifecycle.data.stack);
      }

      WriteAppSpaceRelation(sb, app);

      WriteEndTag(sb);
      SingleAppText(skin, spaces, orgs, app);
      assert sb.text == Concat(SingleAppLines(skin, spaces, orgs, app));
      return sb.text;
    }
  }

  /** The text `CreateSingleAppDiagram` writes before any buildpack. */
  function SingleAppHead(skin: string, spaces: map<string, SpaceInfo>, orgs: map<string, OrganizationInfo>, app: App): string
    requires SingleAppRenderable(spaces, orgs, app)
  {
    var space := spaces[app.relationships.spaceGuid];
    var org := orgs[space.entity.organizationGuid];
    StartTag + (skin + "\n") + TitleLine("Single App Diagram - " + app.name)
    + BoldNodeLine(space.entity.name, "space", TrimGuid(space.metadata.guid))
    + BoldNodeLine(org.entity.name, "organization", TrimGuid(org.metadata.guid))
    + EdgeLine(TrimGuid(org.metadata.guid), TrimGuid(space.metadata.guid))
    + AppComponent(app)
  }

  /** One iteration of the buildpack loop of `CreateSingleAppDiagram`. */
  lemma BuildpackLinesStep(head: string, appGuid: string, buildpacks: seq<string>, i: nat, before: string)
    requires i < |buildpacks|
    requires before == head + Concat(BuildpackLines(appGuid, buildpacks[..i]))
    ensures before + BoldNodeLine(buildpacks[i], "buildpack", buildpacks[i]) + EdgeLine(TrimGuid(appGuid), buildpacks[i])
         == head + Concat(BuildpackLines(appGuid, buildpacks[..i + 1]))
  {
    var b := buildpacks[i];
    var node, edge := BoldNodeLine(b, "buildpack", b), EdgeLine(TrimGuid(appGuid), b);
    var prefix := BuildpackLines(appGuid, buildpacks[..i]);
    assert buildpacks[..i + 1][..i] == buildpacks[..i];
    assert BuildpackLines(appGuid, buildpacks[..i + 1]) == prefix + [node] + [edge];
    ConcatAppend(prefix, node);
    ConcatAppend(prefix + [node], edge);
    AppendAssoc(head, Concat(prefix) + node, edge);
    AppendAssoc(head, Concat(prefix), node);
  }

  /** The groups of the single-app diagram, written one after another. */
  lemma SingleAppText(skin: string, spaces: map<string, SpaceInfo>, orgs: map<string, OrganizationInfo>, app: App)
    requires SingleAppRenderable(spaces, orgs, app)
    ensures app.lifecycle.kind == "buildpack" ==>
      Concat(SingleAppLines(skin, spaces, orgs, app)) ==
        SingleAppHead(skin, spaces, orgs, app) + Concat(BuildpackLines(app.guid, app.lifecycle.data.buildpacks))
        + BoldNodeLine(app.lifecycle.data.stack, "stack", app.lifecycle.data.stack)
        + EdgeLine(TrimGuid(app.guid), app.lifecycle.data.stack)
        + EdgeLine(TrimGuid(app.relationships.spaceGuid), TrimGuid(app.guid)) + EndTag
    ensures app.lifecycle.kind != "buildpack" ==>
      Concat(SingleAppLines(skin, spaces, orgs, app)) ==
        SingleAppHead(skin, spaces, orgs, app)
        + EdgeLine(TrimGuid(app.relationships.spaceGuid), TrimGuid(app.guid)) + EndTag
  {
    var head, mid, tail := SingleAppHeadLines(skin, spaces, orgs, app), LifecycleLines(app), SingleAppTailLines(app);
    ConcatSplit(head + mid, tail);
    ConcatSplit(head, mid);
    SingleAppHeadText(skin, spaces, orgs, app);
    LifecycleText(app);
    var spaceEdge := EdgeLine(TrimGuid(app.relationships.spaceGuid), TrimGuid(app.guid));
    ConcatPair(spaceEdge, EndTag);
    if app.lifecycle.kind == "buildpack" {
      Regroup(Concat(head), Concat(BuildpackLines(app.guid, app.lifecycle.data.buildpacks)),
        BoldNodeLine(app.lifecycle.data.stack, "stack", app.lifecycle.data.stack),
        EdgeLine(TrimGuid(app.guid), app.lifecycle.data.stack), spaceEdge, EndTag);
    } else {
      Regroup(Concat(head), "", "", "", spaceEdge, EndTag);
    }
  }

  lemma SingleAppHeadText(skin: string, spaces: map<string, SpaceInfo>, orgs: map<string, OrganizationInfo>, app: App)
    requires SingleAppRenderable(spaces, orgs, app)
    ensures Concat(SingleAppHeadLines(skin, spaces, orgs, app)) == SingleAppHead(skin, spaces, orgs, app)
  {
    var space := spaces[app.relationships.spaceGuid];
    var org := orgs[space.entity.organizationGuid];
    ConcatSeven(StartTag, skin + "\n", TitleLine("Single App Diagram - " + app.name),
      BoldNodeLine(space.entity.name, "space", TrimGuid(space.metadata.guid)),
      BoldNodeLine(org.entity.name, "organization", TrimGuid(org.metadata.guid)),
      EdgeLine(TrimGuid(org.metadata.guid), TrimGuid(space.metadata.guid)),
      AppComponent(app));
  }

  lemma LifecycleText(app: App)
    ensures app.lifecycle.kind == "buildpack" ==>
      Concat(LifecycleLines(app)) == Concat(BuildpackLines(app.guid, app.lifecycle.data.buildpacks))
        + BoldNodeLine(app.lifecycle.data.stack, "stack", app.lifecycle.data.stack)
        + EdgeLine(TrimGuid(app.guid), app.lifecycle.data.stack)
    ensures app.lifecycle.kind != "buildpack" ==> Concat(LifecycleLines(app)) == ""
  {
    if app.lifecycle.kind == "buildpack" {
      var bl := BuildpackLines(app.guid, app.lifecycle.data.buildpacks);
      var node := BoldNodeLine(app.lifecycle.data.stack, "stack", app.lifecycle.data.stack);
      var edge := EdgeLine(TrimGuid(app.guid), app.lifecycle.data.stack);
      assert LifecycleLines(app) == bl + [node] + [edge];
      ConcatAppend(bl, node);
      ConcatAppend(bl + [node], edge);
    }
  }

  /** Proof helper: two ways of grouping the text of the single-app diagram. */
  lemma Regroup(h: string, c: string, s: string, e: string, se: string, et: string)
    ensures h + (c + s + e) + (se + et) == h + c + s + e + se + et
    ensures h + "" + (se + et) == h + se + et
  {
  }

  // ---------------------------------------------------------------------
  // One iteration of each section loop

  /** Writing the group of one more visited key extends the text of the
      groups written so far; a key without a group leaves it unchanged. */
  lemma EmitWrite<K>(start: string, lines: map<K, string>, order: seq<K>, k: K, before: string)
    requires before == start + Concat(Emit(lines, order))
    ensures k in lines ==> before + lines[k] == start + Concat(Emit(lines, order + [k]))
    ensures k !in lines ==> before == start + Concat(Emit(lines, order + [k]))
  {
    EmitStep(lines, order, k);
    if k in lines {
      ConcatAppend(Emit(lines, order), lines[k]);
    } else {
      assert Emit(lines, order) + [] == Emit(lines, order);
    }
  }

  lemma BoldNodeTextStack(before: string, name: string, alias: string)
    ensures before + "[**" + name + "**] <<stack>> as " + alias + "\n" == before + BoldNodeLine(name, "stack", alias)
  {
  }

  lemma BoldNodeTextBuildpack(before: string, name: string, alias: string)
    ensures before + "[**" + name + "**] <<buildpack>> as " + alias + "\n" == before + BoldNodeLine(name, "buildpack", alias)
  {
  }

  lemma BoldNodeTextOrganization(before: string, name: string, alias: string)
    ensures before + "[**" + name + "**] <<organization>> as " + alias + "\n" == before + BoldNodeLine(name, "organization", alias)
  {
  }

  lemma BoldNodeTextSpace(before: string, name: string, alias: string)
    ensures before + "[**" + name + "**] <<space>> as " + alias + "\n" == before + BoldNodeLine(name, "space", alias)
  {
  }

  lemma StackNodeText(before: string, name: string, alias: string)
    ensures before + "[" + name + "] <<stack>> as " + alias + "\n" == before + NodeLine(name, "stack", alias)
  {
  }

  lemma BuildpackNodeText(before: string, name: string, alias: string)
    ensures before + "[" + name + "] <<buildpack>> as " + alias + "\n" == before + NodeLine(name, "buildpack", alias)
  {
  }

  lemma OrgNodeText(before: string, name: string, alias: string)
    ensures before + "[" + name + "] <<org>> as " + alias + "\n" == before + NodeLine(name, "org", alias)
  {
  }

  lemma SpaceNodeText(before: string, name: string, alias: string)
    ensures before + "[" + name + "] <<space>> as " + alias + "\n" == before + NodeLine(name, "space", alias)
  {
  }

  lemma AppNodeText(before: string, name: string, alias: string)
    ensures before + "[" + name + "] <<app>> as " + alias + "\n" == before + NodeLine(name, "app", alias)
  {
  }

  lemma StackStep(start: string, stacks: map<string, StackInfo>, order: seq<string>, k: string, before: string)
    requires k in stacks
    requires before == start + Concat(Emit(StackNodeLines(stacks), order))
    ensures before + "[" + stacks[k].entity.name + "] <<stack>> as " + stacks[k].entity.name + "\n"
         == start + Concat(Emit(StackNodeLines(stacks), order + [k]))
  {
    var name, alias := stacks[k].entity.name, stacks[k].entity.name;
    StackNodeText(before, name, alias);
    assert StackNodeLines(stacks)[k] == NodeLine(name, "stack", alias);
    EmitWrite(start, StackNodeLines(stacks), order, k, before);
  }

  lemma BuildpackStep(start: string, buildpacks: map<string, BuildpackInfo>, order: seq<string>, k: string, before: string)
    requires k in buildpacks
    requires before == start + Concat(Emit(BuildpackNodeLines(buildpacks), order))
    ensures before + "[" + buildpacks[k].entity.name + "] <<buildpack>> as " + TrimGuid(buildpacks[k].metadata.guid) + "\n"
         == start + Concat(Emit(BuildpackNodeLines(buildpacks), order + [k]))
  {
    var name, alias := buildpacks[k].entity.name, TrimGuid(buildpacks[k].metadata.guid);
    BuildpackNodeText(before, name, alias);
    assert BuildpackNodeLines(buildpacks)[k] == NodeLine(name, "buildpack", alias);
    EmitWrite(start, BuildpackNodeLines(buildpacks), order, k, before);
  }

  lemma OrgStep(start: string, orgs: map<string, OrganizationInfo>, order: seq<string>, k: string, before: string)
    requires k in orgs
    requires before == start + Concat(Emit(OrgNodeLines(orgs), order))
    ensures before + "[" + orgs[k].entity.name + "] <<org>> as " + TrimGuid(orgs[k].metadata.guid) + "\n"
         == start + Concat(Emit(OrgNodeLines(orgs), order + [k]))
  {
    var name, alias := orgs[k].entity.name, TrimGuid(orgs[k].metadata.guid);
    OrgNodeText(before, name, alias);
    assert OrgNodeLines(orgs)[k] == NodeLine(name, "org", alias);
    EmitWrite(start, OrgNodeLines(orgs), order, k, before);
  }

  lemma SpaceStep(start: string, spaces: map<string, SpaceInfo>, order: seq<string>, k: string, before: string)
    requires k in spaces
    requires before == start + Concat(Emit(SpaceNodeLines(spaces), order))
    ensures before + "[" + spaces[k].entity.name + "] <<space>> as " + TrimGuid(spaces[k].metadata.guid) + "\n"
         == start + Concat(Emit(SpaceNodeLines(spaces), order + [k]))
  {
    var name, alias := spaces[k].entity.name, TrimGuid(spaces[k].metadata.guid);
    SpaceNodeText(before, name, alias);
    assert SpaceNodeLines(spaces)[k] == NodeLine(name, "space", alias);
    EmitWrite(start, SpaceNodeLines(spaces), order, k, before);
  }

  lemma AppStep(start: string, apps: map<string, AppInfo>, order: seq<string>, k: string, before: string)
    requires k in apps
    requires before == start + Concat(Emit(AppNodeLines(apps), order))
    ensures before + "[" + apps[k].entity.name + "] <<app>> as " + TrimGuid(apps[k].metadata.guid) + "\n"
         == start + Concat(Emit(AppNodeLines(apps), order + [k]))
  {
    var name, alias := apps[k].entity.name, TrimGuid(apps[k].metadata.guid);
    AppNodeText(before, name, alias);
    assert AppNodeLines(apps)[k] == NodeLine(name, "app", alias);
    EmitWrite(start, AppNodeLines(apps), order, k, before);
  }

  /** The ten writes of `WriteApp` make up the app component. */
  lemma AppText(before: string, alias: string, name: string, state: string, created: string, updated: string)
    ensures before + "component " + alias + " <<app>> [\n**" + name + "**\n" + state + created + updated + "]" + "\n"
         == before + ("component " + alias + " <<app>> [\n**" + name + "**\n" + state + created + updated + "]" + "\n")
  {
  }

  lemma EdgeText(before: string, from: string, to: string)
    ensures before + from + " --> " + to + "\n" == before + EdgeLine(from, to)
  {
  }

  lemma BuildpackStackStep(start: string, buildpacks: map<string, BuildpackInfo>, stacks: map<string, StackInfo>,
                           order: seq<string>, k: string, before: string)
    requires k in buildpacks
    requires forall k :: k in buildpacks && buildpacks[k].entity.stack != "" ==> buildpacks[k].entity.stack in stacks
    requires before == start + Concat(Emit(BuildpackStackEdgeLines(buildpacks, stacks), order))
    ensures buildpacks[k].entity.stack != "" ==>
      before + TrimGuid(buildpacks[k].metadata.guid) + " --> " + stacks[buildpacks[k].entity.stack].entity.name + "\n"
      == start + Concat(Emit(BuildpackStackEdgeLines(buildpacks, stacks), order + [k]))
    ensures buildpacks[k].entity.stack == "" ==>
      before == start + Concat(Emit(BuildpackStackEdgeLines(buildpacks, stacks), order + [k]))
  {
    var lines := BuildpackStackEdgeLines(buildpacks, stacks);
    if buildpacks[k].entity.stack != "" {
      var from, to := TrimGuid(buildpacks[k].metadata.guid), stacks[buildpacks[k].entity.stack].entity.name;
      EdgeText(before, from, to);
      assert lines[k] == EdgeLine(from, to);
    } else {
      assert k !in lines;
    }
    EmitWrite(start, lines, order, k, before);
  }

  lemma OrgSpaceStep(start: string, spaces: map<string, SpaceInfo>, orgs: map<string, OrganizationInfo>,
                     order: seq<string>, k: string, before: string)
    requires k in spaces
    requires forall k :: k in spaces ==> spaces[k].entity.organizationGuid in orgs
    requires before == start + Concat(Emit(OrgSpaceEdgeLines(spaces, orgs), order))
    ensures before + TrimGuid(orgs[spaces[k].entity.organizationGuid].metadata.guid) + " --> " + TrimGuid(spaces[k].metadata.guid) + "\n"
         == start + Concat(Emit(OrgSpaceEdgeLines(spaces, orgs), order + [k]))
  {
    var from, to := TrimGuid(orgs[spaces[k].entity.organizationGuid].metadata.guid), TrimGuid(spaces[k].metadata.guid);
    EdgeText(before, from, to);
    assert OrgSpaceEdgeLines(spaces, orgs)[k] == EdgeLine(from, to);
    EmitWrite(start, OrgSpaceEdgeLines(spaces, orgs), order, k, before);
  }

  lemma SpaceAppStep(start: string, apps: map<string, AppInfo>, spaces: map<string, SpaceInfo>,
                     order: seq<string>, k: string, before: string)
    requires k in apps
    requires forall k :: k in apps ==> apps[k].entity.spaceGuid in spaces
    requires before == start + Concat(Emit(SpaceAppEdgeLines(apps, spaces), order))
    ensures before + TrimGuid(spaces[apps[k].entity.spaceGuid].metadata.guid) + " --> " + TrimGuid(apps[k].metadata.guid) + "\n"
         == start + Concat(Emit(SpaceAppEdgeLines(apps, spaces), order + [k]))
  {
    var from, to := TrimGuid(spaces[apps[k].entity.spaceGuid].metadata.guid), TrimGuid(apps[k].metadata.guid);
    EdgeText(before, from, to);
    assert SpaceAppEdgeLines(apps, spaces)[k] == EdgeLine(from, to);
    EmitWrite(start, SpaceAppEdgeLines(apps, spaces), order, k, before);
  }

  lemma AppBuildpackStep(start: string, apps: map<string, AppInfo>, buildpacks: map<string, BuildpackInfo>,
                         order: seq<string>, k: string, before: string)
    requires k in apps
    requires forall k :: k in apps && apps[k].entity.detectedBuildpackGuid != "" ==>
      apps[k].entity.detectedBuildpackGuid in buildpacks
    requires before == start + Concat(Emit(AppBuildpackEdgeLines(apps, buildpacks), order))
    ensures apps[k].entity.detectedBuildpackGuid != "" ==>
      before + TrimGuid(apps[k].metadata.guid) + " --> " +
        TrimGuid(buildpacks[apps[k].entity.detectedBuildpackGuid].metadata.guid) + "\n"
      == start + Concat(Emit(AppBuildpackEdgeLines(apps, buildpacks), order + [k]))
    ensures apps[k].entity.detectedBuildpackGuid == "" ==>
      before + "\n" == start + Concat(Emit(AppBuildpackEdgeLines(apps, buildpacks), order + [k]))
  {
    var lines := AppBuildpackEdgeLines(apps, buildpacks);
    if apps[k].entity.detectedBuildpackGuid != "" {
      var from, to := TrimGuid(apps[k].metadata.guid), TrimGuid(buildpacks[apps[k].entity.detectedBuildpackGuid].metadata.guid);
      EdgeText(before, from, to);
      assert lines[k] == EdgeLine(from, to);
    } else {
      assert lines[k] == "\n";
    }
    EmitWrite(start, lines, order, k, before);
  }

  /** The text of the whole diagram is the concatenation of its start tag,
      its nine sections and its end tag. */
  lemma DiagramText(l: Landscape, o: DiagramOrder)
    requires Renderable(l)
    ensures Concat(DiagramLines(l, o)) ==
      StartTag
      + Concat(Section(StackNodeLines(l.stacks), o.stacks))
      + Concat(Section(BuildpackNodeLines(l.buildpacks), o.buildpacks))
      + Concat(Section(BuildpackStackEdgeLines(l.buildpacks, l.stacks), o.buildpackEdges))
      + Concat(Section(OrgNodeLines(l.orgs), o.orgs))
      + Concat(Section(SpaceNodeLines(l.spaces), o.spaces))
      + Concat(Section(OrgSpaceEdgeLines(l.spaces, l.orgs), o.orgSpaceEdges))
      + Concat(Section(AppNodeLines(l.apps), o.apps))
      + Concat(Section(SpaceAppEdgeLines(l.apps, l.spaces), o.spaceAppEdges))
      + Concat(Section(AppBuildpackEdgeLines(l.apps, l.buildpacks), o.appBuildpackEdges))
      + EndTag
  {
    var s0 := [StartTag];
    var s1 := s0 + Section(StackNodeLines(l.stacks), o.stacks);
    var s2 := s1 + Section(BuildpackNodeLines(l.buildpacks), o.buildpacks);
    var s3 := s2 + Section(BuildpackStackEdgeLines(l.buildpacks, l.stacks), o.buildpackEdges);
    var s4 := s3 + Section(OrgNodeLines(l.orgs), o.orgs);
    var s5 := s4 + Section(SpaceNodeLines(l.spaces), o.spaces);
    var s6 := s5 + Section(OrgSpaceEdgeLines(l.spaces, l.orgs), o.orgSpaceEdges);
    var s7 := s6 + Section(AppNodeLines(l.apps), o.apps);
    var s8 := s7 + Section(SpaceAppEdgeLines(l.apps, l.spaces), o.spaceAppEdges);
    var s9 := s8 + Section(AppBuildpackEdgeLines(l.apps, l.buildpacks), o.appBuildpackEdges);
    assert Concat(s0) == StartTag by { assert s0[..0] == []; }
    ConcatSplit(s0, Section(StackNodeLines(l.stacks), o.stacks));
    ConcatSplit(s1, Section(BuildpackNodeLines(l.buildpacks), o.buildpacks));
    ConcatSplit(s2, Section(BuildpackStackEdgeLines(l.buildpacks, l.stacks), o.buildpackEdges));
    ConcatSplit(s3, Section(OrgNodeLines(l.orgs), o.orgs));
    ConcatSplit(s4, Section(SpaceNodeLines(l.spaces), o.spaces));
    ConcatSplit(s5, Section(OrgSpaceEdgeLines(l.spaces, l.orgs), o.orgSpaceEdges));
    ConcatSplit(s6, Section(AppNodeLines(l.apps), o.apps));
    ConcatSplit(s7, Section(SpaceAppEdgeLines(l.apps, l.spaces), o.spaceAppEdges));
    ConcatSplit(s8, Section(AppBuildpackEdgeLines(l.apps, l.buildpacks), o.appBuildpackEdges));
    ConcatAppend(s9, EndTag);
  }
}
