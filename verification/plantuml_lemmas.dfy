/** Properties of the PlantUML text: aliases, the effect of Go's map
    iteration order, the size and frame of both diagrams, and worked
    examples of the text the renderer writes. */
module DiagramProperties {
  import opened Common
  import opened CfModel
  import opened PlantUml

  // ---------------------------------------------------------------------
  // Aliases

  /** Trimming works character by character, so it distributes over
      concatenation. */
  lemma {:induction false} TrimGuidConcat(a: string, b: string)
    ensures TrimGuid(a + b) == TrimGuid(a) + TrimGuid(b)
  {
    if a == [] {
      assert a + b == b;
    } else {
      var head: string := if a[0] == '-' then [] else [a[0]];
      assert (a + b)[0] == a[0];
      assert (a + b)[1..] == a[1..] + b;
      assert TrimGuid(a + b) == head + TrimGuid(a[1..] + b);
      assert TrimGuid(a) == head + TrimGuid(a[1..]);
      TrimGuidConcat(a[1..], b);
      assert head + (TrimGuid(a[1..]) + TrimGuid(b)) == (head + TrimGuid(a[1..])) + TrimGuid(b);
    }
  }

  /** An identifier without dashes is its own alias. */
  lemma {:induction false} TrimGuidKeepsPlain(g: string)
    requires '-' !in g
    ensures TrimGuid(g) == g
  {
    if g != [] {
      assert g[0] != '-';
      assert '-' !in g[1..];
      TrimGuidKeepsPlain(g[1..]);
      assert g == [g[0]] + g[1..];
    }
  }

  /** Trimming twice is trimming once. */
  lemma TrimGuidIdempotent(g: string)
    ensures TrimGuid(TrimGuid(g)) == TrimGuid(g)
  {
    TrimGuidKeepsPlain(TrimGuid(g));
  }

  /** A dash between two parts is dropped and both parts are trimmed in
      place, in order. */
  lemma TrimGuidDropsDash(a: string, b: string)
    ensures TrimGuid(a + "-" + b) == TrimGuid(a) + TrimGuid(b)
  {
    TrimGuidConcat(a + "-", b);
    TrimGuidConcat(a, "-");
    assert "-"[1..] == [];
    assert TrimGuid("-") == [];
    assert TrimGuid(a) + [] == TrimGuid(a);
  }

  /** A GUID of five dash-free groups, as the platform issues them, becomes
      its groups joined in order. */
  lemma TrimGuidJoinsGroups(g0: string, g1: string, g2: string, g3: string, g4: string)
    requires '-' !in g0 && '-' !in g1 && '-' !in g2 && '-' !in g3 && '-' !in g4
    ensures TrimGuid(g0 + "-" + g1 + "-" + g2 + "-" + g3 + "-" + g4) == g0 + g1 + g2 + g3 + g4
  {
    TrimGuidDropsDash(g0 + "-" + g1 + "-" + g2 + "-" + g3, g4);
    TrimGuidDropsDash(g0 + "-" + g1 + "-" + g2, g3);
    TrimGuidDropsDash(g0 + "-" + g1, g2);
    TrimGuidDropsDash(g0, g1);
    TrimGuidKeepsPlain(g0);
    TrimGuidKeepsPlain(g1);
    TrimGuidKeepsPlain(g2);
    TrimGuidKeepsPlain(g3);
    TrimGuidKeepsPlain(g4);
  }

  /** A short identifier `a-b` becomes `ab`. */
  lemma TrimGuidShort(a: char, b: char)
    requires a != '-' && b != '-'
    ensures TrimGuid([a, '-', b]) == [a, b]
  {
    assert [b][1..] == [];
    assert TrimGuid([b]) == [b] + TrimGuid([]);
    assert ['-', b][1..] == [b];
    assert TrimGuid(['-', b]) == [b];
    assert [a, '-', b][1..] == ['-', b];
  }

  // ---------------------------------------------------------------------
  // Sections and iteration order

  /** The keys among `order` for which the loop writes a line. */
  ghost function WrittenKeys<K>(lines: map<K, string>, order: seq<K>): set<K>
  {
    set k | k in order && k in lines
  }

  /** The keys among `order` whose line is `s`. */
  ghost function KeysWriting<K>(lines: map<K, string>, order: seq<K>, s: string): set<K>
  {
    set k | k in order && k in lines && lines[k] == s
  }

  lemma DistinctInit<K>(order: seq<K>)
    requires Distinct(order) && order != []
    ensures Distinct(order[..|order| - 1])
    ensures order[|order| - 1] !in order[..|order| - 1]
    ensures order == order[..|order| - 1] + [order[|order| - 1]]
  {
  }

  /** A loop over distinct keys writes one line per key that has one. */
  lemma {:induction false} EmitLength<K>(lines: map<K, string>, order: seq<K>)
    requires Distinct(order)
    ensures |Emit(lines, order)| == |WrittenKeys(lines, order)|
  {
    if order == [] {
      assert WrittenKeys(lines, order) == {};
    } else {
      var init, last := order[..|order| - 1], order[|order| - 1];
      DistinctInit(order);
      EmitLength(lines, init);
      if last in lines {
        assert WrittenKeys(lines, order) == WrittenKeys(lines, init) + {last};
      } else {
        assert WrittenKeys(lines, order) == WrittenKeys(lines, init);
      }
    }
  }

  /** How often a line occurs in a section is the number of keys writing
      it, whatever the order the keys are visited in. */
  lemma {:induction false} EmitCount<K>(lines: map<K, string>, order: seq<K>, s: string)
    requires Distinct(order)
    ensures multiset(Emit(lines, order))[s] == |KeysWriting(lines, order, s)|
  {
    if order == [] {
      assert KeysWriting(lines, order, s) == {};
    } else {
      var init, last := order[..|order| - 1], order[|order| - 1];
      DistinctInit(order);
      EmitCount(lines, init, s);
      if last in lines && lines[last] == s {
        assert KeysWriting(lines, order, s) == KeysWriting(lines, init, s) + {last};
      } else {
        assert KeysWriting(lines, order, s) == KeysWriting(lines, init, s);
      }
    }
  }

  /** Two iteration orders of the same map write the same lines, possibly
      in a different order. */
  lemma EmitOrderIndependent<K>(lines: map<K, string>, o1: seq<K>, o2: seq<K>, keys: set<K>)
    requires IsOrderOf(o1, keys) && IsOrderOf(o2, keys)
    ensures multiset(Emit(lines, o1)) == multiset(Emit(lines, o2))
  {
    forall s ensures multiset(Emit(lines, o1))[s] == multiset(Emit(lines, o2))[s] {
      EmitCount(lines, o1, s);
      EmitCount(lines, o2, s);
      assert forall k :: k in o1 <==> k in Elems(o1);
      assert forall k :: k in o2 <==> k in Elems(o2);
      assert KeysWriting(lines, o1, s) == KeysWriting(lines, o2, s);
    }
  }

  /** A loop visiting every key writes exactly one line per key that has
      one. */
  lemma EmitAll<K>(lines: map<K, string>, order: seq<K>, keys: set<K>)
    requires IsOrderOf(order, keys) && lines.Keys <= keys
    ensures |Emit(lines, order)| == |lines|
  {
    EmitLength(lines, order);
    assert forall k :: k in order <==> k in Elems(order);
    assert WrittenKeys(lines, order) == lines.Keys;
  }

  // ---------------------------------------------------------------------
  // The whole-landscape diagram

  /** The buildpacks that are bound to a stack. */
  ghost function BoundBuildpacks(l: Landscape): set<string>
  {
    set k | k in l.buildpacks && l.buildpacks[k].entity.stack != ""
  }

  /** A section over a map visited in full has one line per key with a line,
      and the blank line. */
  lemma SectionLength<K>(lines: map<K, string>, order: seq<K>, keys: set<K>)
    requires IsOrderOf(order, keys) && lines.Keys <= keys
    ensures |Section(lines, order)| == |lines| + 1
  {
    EmitAll(lines, order, keys);
  }

  /** Maps over the same keys have the same size. */
  lemma SameKeys<A, B>(m1: map<string, A>, m2: map<string, B>)
    requires m1.Keys == m2.Keys
    ensures |m1| == |m2|
  {
    assert |m1| == |m1.Keys| && |m2| == |m2.Keys|;
  }

  /** The loops over stacks, buildpacks, organizations, spaces and apps
      write a line for every key. */
  lemma StackLineCount(stacks: map<string, StackInfo>)
    ensures |StackNodeLines(stacks)| == |stacks|
  {
    assert StackNodeLines(stacks).Keys == stacks.Keys;
    SameKeys(StackNodeLines(stacks), stacks);
  }

  lemma BuildpackLineCount(buildpacks: map<string, BuildpackInfo>)
    ensures |BuildpackNodeLines(buildpacks)| == |buildpacks|
  {
    assert BuildpackNodeLines(buildpacks).Keys == buildpacks.Keys;
    SameKeys(BuildpackNodeLines(buildpacks), buildpacks);
  }

  lemma OrgLineCount(orgs: map<string, OrganizationInfo>)
    ensures |OrgNodeLines(orgs)| == |orgs|
  {
    assert OrgNodeLines(orgs).Keys == orgs.Keys;
    SameKeys(OrgNodeLines(orgs), orgs);
  }

  lemma SpaceLineCount(spaces: map<string, SpaceInfo>, orgs: map<string, OrganizationInfo>)
    requires forall k :: k in spaces ==> spaces[k].entity.organizationGuid in orgs
    ensures |SpaceNodeLines(spaces)| == |spaces| && |OrgSpaceEdgeLines(spaces, orgs)| == |spaces|
  {
    assert SpaceNodeLines(spaces).Keys == spaces.Keys;
    SameKeys(SpaceNodeLines(spaces), spaces);
    assert OrgSpaceEdgeLines(spaces, orgs).Keys == spaces.Keys;
    SameKeys(OrgSpaceEdgeLines(spaces, orgs), spaces);
  }

  lemma AppLineCount(apps: map<string, AppInfo>, spaces: map<string, SpaceInfo>)
    requires forall k :: k in apps ==> apps[k].entity.spaceGuid in spaces
    ensures |AppNodeLines(apps)| == |apps| && |SpaceAppEdgeLines(apps, spaces)| == |apps|
  {
    assert AppNodeLines(apps).Keys == apps.Keys;
    SameKeys(AppNodeLines(apps), apps);
    assert SpaceAppEdgeLines(apps, spaces).Keys == apps.Keys;
    SameKeys(SpaceAppEdgeLines(apps, spaces), apps);
  }

  /** The sizes of the first four sections. */
  lemma UpperSectionSizes(l: Landscape, o: DiagramOrder)
    requires Renderable(l) && Iterates(o, l)
    ensures |Section(StackNodeLines(l.stacks), o.stacks)| == |l.stacks| + 1
    ensures |Section(BuildpackNodeLines(l.buildpacks), o.buildpacks)| == |l.buildpacks| + 1
    ensures |Section(BuildpackStackEdgeLines(l.buildpacks, l.stacks), o.buildpackEdges)| == |BoundBuildpacks(l)| + 1
    ensures |Section(OrgNodeLines(l.orgs), o.orgs)| == |l.orgs| + 1
  {
    var edges := BuildpackStackEdgeLines(l.buildpacks, l.stacks);
    assert edges.Keys == BoundBuildpacks(l);
    StackLineCount(l.stacks);
    BuildpackLineCount(l.buildpacks);
    OrgLineCount(l.orgs);
    SectionLength(StackNodeLines(l.stacks), o.stacks, l.stacks.Keys);
    SectionLength(BuildpackNodeLines(l.buildpacks), o.buildpacks, l.buildpacks.Keys);
    SectionLength(edges, o.buildpackEdges, l.buildpacks.Keys);
    SectionLength(OrgNodeLines(l.orgs), o.orgs, l.orgs.Keys);
  }

  /** The sizes of the two space sections. */
  lemma SpaceSectionSizes(l: Landscape, o: DiagramOrder)
    requires Renderable(l) && Iterates(o, l)
    ensures |Section(SpaceNodeLines(l.spaces), o.spaces)| == |l.spaces| + 1
    ensures |Section(OrgSpaceEdgeLines(l.spaces, l.orgs), o.orgSpaceEdges)| == |l.spaces| + 1
  {
    SpaceLineCount(l.spaces, l.orgs);
    SectionLength(SpaceNodeLines(l.spaces), o.spaces, l.spaces.Keys);
    SectionLength(OrgSpaceEdgeLines(l.spaces, l.orgs), o.orgSpaceEdges, l.spaces.Keys);
  }

  /** The sizes of the app node and space-to-app edge sections. */
  lemma AppSectionSizes(apps: map<string, AppInfo>, spaces: map<string, SpaceInfo>, o1: seq<string>, o2: seq<string>)
    requires forall k :: k in apps ==> apps[k].entity.spaceGuid in spaces
    requires IsOrderOf(o1, apps.Keys) && IsOrderOf(o2, apps.Keys)
    ensures |Section(AppNodeLines(apps), o1)| == |apps| + 1
    ensures |Section(SpaceAppEdgeLines(apps, spaces), o2)| == |apps| + 1
  {
    AppLineCount(apps, spaces);
    SectionLength(AppNodeLines(apps), o1, apps.Keys);
    SectionLength(SpaceAppEdgeLines(apps, spaces), o2, apps.Keys);
  }

  /** The app-to-buildpack section has a line for every app. */
  lemma AppBuildpackSectionSize(l: Landscape, o: DiagramOrder)
    requires Renderable(l) && Iterates(o, l)
    ensures |Section(AppBuildpackEdgeLines(l.apps, l.buildpacks), o.appBuildpackEdges)| == |l.apps| + 1
  {
    var m := AppBuildpackEdgeLines(l.apps, l.buildpacks);
    SameKeys(m, l.apps);
    SectionLength(m, o.appBuildpackEdges, l.apps.Keys);
  }

  /** The writes of the landscape diagram: one per stack, buildpack, bound
      buildpack and organization, two per space, three per app, nine blank
      section ends, the start tag and the end tag. (The end tag is one write
      of two lines of text, the footer and `@enduml`.) */
  lemma DiagramWriteCount(l: Landscape, o: DiagramOrder)
    requires Renderable(l) && Iterates(o, l)
    ensures |DiagramLines(l, o)| ==
      11 + |l.stacks| + |l.buildpacks| + |BoundBuildpacks(l)| + |l.orgs| + 2 * |l.spaces| + 3 * |l.apps|
  {
    UpperSectionSizes(l, o);
    SpaceSectionSizes(l, o);
    AppSectionSizes(l.apps, l.spaces, o.apps, o.spaceAppEdges);
    AppBuildpackSectionSize(l, o);
  }

  /** Two iteration orders of a map give sections with the same lines. */
  lemma SectionOrderIndependent<K>(lines: map<K, string>, o1: seq<K>, o2: seq<K>, keys: set<K>)
    requires IsOrderOf(o1, keys) && IsOrderOf(o2, keys)
    ensures multiset(Section(lines, o1)) == multiset(Section(lines, o2))
  {
    EmitOrderIndependent(lines, o1, o2, keys);
  }

  /** Proof helper: replacing each of nine parts between two tags by a rearrangement of it
      rearranges the whole. */
  lemma NineParts(t: string, e: string,
                  a1: seq<string>, a2: seq<string>, a3: seq<string>, a4: seq<string>, a5: seq<string>,
                  a6: seq<string>, a7: seq<string>, a8: seq<string>, a9: seq<string>,
                  b1: seq<string>, b2: seq<string>, b3: seq<string>, b4: seq<string>, b5: seq<string>,
                  b6: seq<string>, b7: seq<string>, b8: seq<string>, b9: seq<string>)
    requires multiset(a1) == multiset(b1) && multiset(a2) == multiset(b2) && multiset(a3) == multiset(b3)
    requires multiset(a4) == multiset(b4) && multiset(a5) == multiset(b5) && multiset(a6) == multiset(b6)
    requires multiset(a7) == multiset(b7) && multiset(a8) == multiset(b8) && multiset(a9) == multiset(b9)
    ensures multiset([t] + a1 + a2 + a3 + a4 + a5 + a6 + a7 + a8 + a9 + [e]) ==
            multiset([t] + b1 + b2 + b3 + b4 + b5 + b6 + b7 + b8 + b9 + [e])
  {
  }

  /** Whatever order Go's map iteration picks, the diagram consists of the
      same lines; only their order within a section may differ. */
  lemma DiagramOrderIndependent(l: Landscape, o1: DiagramOrder, o2: DiagramOrder)
    requires Renderable(l) && Iterates(o1, l) && Iterates(o2, l)
    ensures multiset(DiagramLines(l, o1)) == multiset(DiagramLines(l, o2))
  {
    var stacks, buildpacks, edges := StackNodeLines(l.stacks), BuildpackNodeLines(l.buildpacks), BuildpackStackEdgeLines(l.buildpacks, l.stacks);
    var orgs, spaces, orgSpaces := OrgNodeLines(l.orgs), SpaceNodeLines(l.spaces), OrgSpaceEdgeLines(l.spaces, l.orgs);
    var apps, spaceApps, appBuildpacks := AppNodeLines(l.apps), SpaceAppEdgeLines(l.apps, l.spaces), AppBuildpackEdgeLines(l.apps, l.buildpacks);
    SectionOrderIndependent(stacks, o1.stacks, o2.stacks, l.stacks.Keys);
    SectionOrderIndependent(buildpacks, o1.buildpacks, o2.buildpacks, l.buildpacks.Keys);
    SectionOrderIndependent(edges, o1.buildpackEdges, o2.buildpackEdges, l.buildpacks.Keys);
    SectionOrderIndependent(orgs, o1.orgs, o2.orgs, l.orgs.Keys);
    SectionOrderIndependent(spaces, o1.spaces, o2.spaces, l.spaces.Keys);
    SectionOrderIndependent(orgSpaces, o1.orgSpaceEdges, o2.orgSpaceEdges, l.spaces.Keys);
    SectionOrderIndependent(apps, o1.apps, o2.apps, l.apps.Keys);
    SectionOrderIndependent(spaceApps, o1.spaceAppEdges, o2.spaceAppEdges, l.apps.Keys);
    SectionOrderIndependent(appBuildpacks, o1.appBuildpackEdges, o2.appBuildpackEdges, l.apps.Keys);
    NineParts(StartTag, EndTag,
      Section(stacks, o1.stacks), Section(buildpacks, o1.buildpacks), Section(edges, o1.buildpackEdges),
      Section(orgs, o1.orgs), Section(spaces, o1.spaces), Section(orgSpaces, o1.orgSpaceEdges),
      Section(apps, o1.apps), Section(spaceApps, o1.spaceAppEdges), Section(appBuildpacks, o1.appBuildpackEdges),
      Section(stacks, o2.stacks), Section(buildpacks, o2.buildpacks), Section(edges, o2.buildpackEdges),
      Section(orgs, o2.orgs), Section(spaces, o2.spaces), Section(orgSpaces, o2.orgSpaceEdges),
      Section(apps, o2.apps), Section(spaceApps, o2.spaceAppEdges), Section(appBuildpacks, o2.appBuildpackEdges));
  }

  /** The diagram text opens with the start tag and closes with the footer
      and the end tag. */
  lemma DiagramFrame(l: Landscape, o: DiagramOrder)
    requires Renderable(l)
    ensures |StartTag| <= |Concat(DiagramLines(l, o))|
    ensures Concat(DiagramLines(l, o))[..|StartTag|] == StartTag
    ensures |EndTag| <= |Concat(DiagramLines(l, o))|
    ensures Concat(DiagramLines(l, o))[|Concat(DiagramLines(l, o))| - |EndTag|..] == EndTag
  {
    ConcatEnds(DiagramLines(l, o));
  }

  /** A section over a single key: that key's line, then the blank line. */
  lemma SectionOne<K>(lines: map<K, string>, k: K)
    requires k in lines
    ensures Section(lines, [k]) == [lines[k], BlankLine]
  {
    EmitStep(lines, [], k);
    assert [] + [k] == [k];
  }

  /** An example landscape: one organization with one space holding one
      app without a detected buildpack, and no stacks or buildpacks. */
  function ExampleLandscape(): Landscape
  {
    Landscape(map[], map[],
      map["o-1" := Info(Metadata("o-1", "", ""), OrganizationEntity("acme"))],
      map["s-1" := Info(Metadata("s-1", "", ""), SpaceEntity("dev", "o-1"))],
      map["a-1" := Info(Metadata("a-1", "", ""), AppEntity("web", "s-1", ""))])
  }

  /** The only order Go can visit its one-entry maps in. */
  function ExampleOrder(): DiagramOrder
  {
    DiagramOrder([], [], [], ["o-1"], ["s-1"], ["s-1"], ["a-1"], ["a-1"], ["a-1"])
  }

  lemma ExampleIterates()
    ensures Renderable(ExampleLandscape()) && Iterates(ExampleOrder(), ExampleLandscape())
  {
    assert Elems(["o-1"]) == {"o-1"} && Elems(["s-1"]) == {"s-1"} && Elems(["a-1"]) == {"a-1"};
    assert Elems<string>([]) == {};
  }

  /** The three non-empty organization and space sections of the example. */
  lemma ExampleSpaceSections()
    ensures var l, o := ExampleLandscape(), ExampleOrder();
      && Section(OrgNodeLines(l.orgs), o.orgs) == [NodeLine("acme", "org", "o1"), BlankLine]
      && Section(SpaceNodeLines(l.spaces), o.spaces) == [NodeLine("dev", "space", "s1"), BlankLine]
      && Section(OrgSpaceEdgeLines(l.spaces, l.orgs), o.orgSpaceEdges) == [EdgeLine("o1", "s1"), BlankLine]
  {
    var l := ExampleLandscape();
    TrimGuidShort('o', '1');
    TrimGuidShort('s', '1');
    SectionOne(OrgNodeLines(l.orgs), "o-1");
    SectionOne(SpaceNodeLines(l.spaces), "s-1");
    SectionOne(OrgSpaceEdgeLines(l.spaces, l.orgs), "s-1");
  }

  /** The three app sections of the example. */
  lemma ExampleAppSections()
    ensures var l, o := ExampleLandscape(), ExampleOrder();
      && Section(AppNodeLines(l.apps), o.apps) == [NodeLine("web", "app", "a1"), BlankLine]
      && Section(SpaceAppEdgeLines(l.apps, l.spaces), o.spaceAppEdges) == [EdgeLine("s1", "a1"), BlankLine]
      && Section(AppBuildpackEdgeLines(l.apps, l.buildpacks), o.appBuildpackEdges) == ["\n", BlankLine]
  {
    var l := ExampleLandscape();
    TrimGuidShort('s', '1');
    TrimGuidShort('a', '1');
    SectionOne(AppNodeLines(l.apps), "a-1");
    SectionOne(SpaceAppEdgeLines(l.apps, l.spaces), "a-1");
    SectionOne(AppBuildpackEdgeLines(l.apps, l.buildpacks), "a-1");
  }

  /** Proof helper: the tags around three empty sections and six sections of one line
      each (over plain strings, so that no literal is unfolded). */
  lemma ElevenSections(t: string, b: string, x4: string, x5: string, x6: string, x7: string, x8: string, x9: string, e: string)
    ensures [t] + [b] + [b] + [b] + [x4, b] + [x5, b] + [x6, b] + [x7, b] + [x8, b] + [x9, b] + [e] ==
      [t, b, b, b, x4, b, x5, b, x6, b, x7, b, x8, b, x9, b, e]
  {
  }

  /** The whole text of the example landscape: the app without a detected
      buildpack still gets an empty line in the last section. */
  lemma SmallLandscapeExample()
    ensures Renderable(ExampleLandscape()) && Iterates(ExampleOrder(), ExampleLandscape())
    ensures DiagramLines(ExampleLandscape(), ExampleOrder()) == [
        StartTag, BlankLine, BlankLine, BlankLine,
        NodeLine("acme", "org", "o1"), BlankLine,
        NodeLine("dev", "space", "s1"), BlankLine,
        EdgeLine("o1", "s1"), BlankLine,
        NodeLine("web", "app", "a1"), BlankLine,
        EdgeLine("s1", "a1"), BlankLine,
        "\n", BlankLine,
        EndTag]
  {
    var l, o := ExampleLandscape(), ExampleOrder();
    ExampleIterates();
    ExampleSpaceSections();
    ExampleAppSections();
    var empty := [BlankLine];
    assert Section(StackNodeLines(l.stacks), o.stacks) == empty;
    assert Section(BuildpackNodeLines(l.buildpacks), o.buildpacks) == empty;
    assert Section(BuildpackStackEdgeLines(l.buildpacks, l.stacks), o.buildpackEdges) == empty;
    ElevenSections(StartTag, BlankLine, NodeLine("acme", "org", "o1"), NodeLine("dev", "space", "s1"),
      EdgeLine("o1", "s1"), NodeLine("web", "app", "a1"), EdgeLine("s1", "a1"), "\n", EndTag);
  }

  // ---------------------------------------------------------------------
  // The single-app diagram

  /** Each listed buildpack gets its node and then its edge from the app,
      in the order listed. */
  lemma {:induction false} BuildpackLinesShape(appGuid: string, buildpacks: seq<string>)
    ensures |BuildpackLines(appGuid, buildpacks)| == 2 * |buildpacks|
    ensures forall i :: 0 <= i < |buildpacks| ==>
      BuildpackLines(appGuid, buildpacks)[2 * i] == BoldNodeLine(buildpacks[i], "buildpack", buildpacks[i]) &&
      BuildpackLines(appGuid, buildpacks)[2 * i + 1] == EdgeLine(TrimGuid(appGuid), buildpacks[i])
  {
    if buildpacks != [] {
      var init := buildpacks[..|buildpacks| - 1];
      BuildpackLinesShape(appGuid, init);
      assert forall i :: 0 <= i < |init| ==> init[i] == buildpacks[i];
    }
  }

  /** The writes of the single-app diagram: start tag, skin, title, space,
      organization, their edge and the app; two writes per buildpack plus the
      stack and its edge for a buildpack app; the space-to-app edge and the
      end tag. The skin, the app component and the end tag are writes of
      several lines of text each. */
  lemma SingleAppShape(skin: string, spaces: map<string, SpaceInfo>, orgs: map<string, OrganizationInfo>, app: App)
    requires SingleAppRenderable(spaces, orgs, app)
    ensures var lines := SingleAppLines(skin, spaces, orgs, app);
      && |lines| == (if app.lifecycle.kind == "buildpack" then 11 + 2 * |app.lifecycle.data.buildpacks| else 9)
      && lines[0] == StartTag
      && lines[1] == skin + "\n"
      && lines[2] == TitleLine("Single App Diagram - " + app.name)
      && lines[6] == AppComponent(app)
      && lines[|lines| - 2] == EdgeLine(TrimGuid(app.relationships.spaceGuid), TrimGuid(app.guid))
      && lines[|lines| - 1] == EndTag
  {
    BuildpackLinesShape(app.guid, app.lifecycle.data.buildpacks);
  }

  /** The single-app text opens with the start tag and closes with the
      footer and the end tag. */
  lemma SingleAppFrame(skin: string, spaces: map<string, SpaceInfo>, orgs: map<string, OrganizationInfo>, app: App)
    requires SingleAppRenderable(spaces, orgs, app)
    ensures var text := Concat(SingleAppLines(skin, spaces, orgs, app));
      && |StartTag| <= |text| && text[..|StartTag|] == StartTag
      && |EndTag| <= |text| && text[|text| - |EndTag|..] == EndTag
  {
    SingleAppShape(skin, spaces, orgs, app);
    ConcatEnds(SingleAppLines(skin, spaces, orgs, app));
  }

  /** The example app of `SingleAppExample`: a buildpack app with one
      buildpack, in space `s-1`. */
  function ExampleApp(): App
  {
    App("a-1", "web", "STARTED", "t0", "t1",
      Lifecycle("buildpack", LifecycleData(["ruby_buildpack"], "cflinuxfs3")), Relationships("s-1"))
  }

  /** Proof helper: seven head lines, four lifecycle lines and two tail lines (over plain
      strings, so that no literal is unfolded). */
  lemma ThirteenLines(h0: string, h1: string, h2: string, h3: string, h4: string, h5: string, h6: string,
                      l0: string, l1: string, l2: string, l3: string, t0: string, t1: string)
    ensures [h0, h1, h2, h3, h4, h5, h6] + [l0, l1, l2, l3] + [t0, t1] ==
      [h0, h1, h2, h3, h4, h5, h6, l0, l1, l2, l3, t0, t1]
  {
  }

  /** A buildpack app with one buildpack in a space of one organization;
      buildpack and stack are shown under their names. */
  lemma SingleAppExample(skin: string)
    ensures
      var spaces := ExampleLandscape().spaces;
      var orgs := ExampleLandscape().orgs;
      SingleAppRenderable(spaces, orgs, ExampleApp()) &&
      SingleAppLines(skin, spaces, orgs, ExampleApp()) == [
        StartTag,
        skin + "\n",
        TitleLine("Single App Diagram - " + "web"),
        BoldNodeLine("dev", "space", "s1"),
        BoldNodeLine("acme", "organization", "o1"),
        EdgeLine("o1", "s1"),
        AppComponent(ExampleApp()),
        BoldNodeLine("ruby_buildpack", "buildpack", "ruby_buildpack"),
        EdgeLine("a1", "ruby_buildpack"),
        BoldNodeLine("cflinuxfs3", "stack", "cflinuxfs3"),
        EdgeLine("a1", "cflinuxfs3"),
        EdgeLine("s1", "a1"),
        EndTag]
  {
    var spaces, orgs, app := ExampleLandscape().spaces, ExampleLandscape().orgs, ExampleApp();
    TrimGuidShort('o', '1');
    TrimGuidShort('s', '1');
    TrimGuidShort('a', '1');
    assert ["ruby_buildpack"][..0] == [];
    assert BuildpackLines("a-1", []) == [];
    assert LifecycleLines(app) ==
      [ BoldNodeLine("ruby_buildpack", "buildpack", "ruby_buildpack"), EdgeLine("a1", "ruby_buildpack"),
        BoldNodeLine("cflinuxfs3", "stack", "cflinuxfs3"), EdgeLine("a1", "cflinuxfs3")];
    assert SingleAppHeadLines(skin, spaces, orgs, app) ==
      [ StartTag, skin + "\n", TitleLine("Single App Diagram - " + "web"),
        BoldNodeLine("dev", "space", "s1"), BoldNodeLine("acme", "organization", "o1"),
        EdgeLine("o1", "s1"), AppComponent(app)];
    assert SingleAppTailLines(app) == [EdgeLine("s1", "a1"), EndTag];
    ThirteenLines(StartTag, skin + "\n", TitleLine("Single App Diagram - " + "web"),
      BoldNodeLine("dev", "space", "s1"), BoldNodeLine("acme", "organization", "o1"),
      EdgeLine("o1", "s1"), AppComponent(app),
      BoldNodeLine("ruby_buildpack", "buildpack", "ruby_buildpack"), EdgeLine("a1", "ruby_buildpack"),
      BoldNodeLine("cflinuxfs3", "stack", "cflinuxfs3"), EdgeLine("a1", "cflinuxfs3"),
      EdgeLine("s1", "a1"), EndTag);
  }
}
