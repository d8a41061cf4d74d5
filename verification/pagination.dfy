/** The pages of a v2 collection and what `GetResourceList` accumulates from
    them (adapter/cloudfoundry/resourcelist.go). The HTTP exchanges are
    abstract: the k-th request of a listing receives the k-th `PageResult`. */
module Pagination {
  import opened Common
  import opened CfModel

  /** The result of one page request: a transport failure, or the state of the
      reused `ResourceList` after the body was decoded into it (its `next_url`
      cleared beforehand), together with the error the decoder reported. */
  datatype PageResult =
    | TransportFailure(err: Error)
    | Page(resources: seq<Resource>, nextUrl: string, decodeError: Option<Error>)

  /** The listing loop ends after this page. */
  predicate Stops(p: PageResult)
  {
    p.TransportFailure? || p.nextUrl == ""
  }

  /** Some page of the conversation ends the listing; without one the
      listing loop would never stop. */
  ghost predicate ConversationEnds(pages: seq<PageResult>)
  {
    exists k :: 0 <= k < |pages| && Stops(pages[k])
  }

  lemma ConversationEndsTail(pages: seq<PageResult>)
    requires ConversationEnds(pages) && !Stops(pages[0])
    ensures ConversationEnds(pages[1..])
  {
    var k :| 0 <= k < |pages| && Stops(pages[k]);
    assert pages[1..][k - 1] == pages[k];
  }

  /** The index of the page that ends the listing: the first page that failed
      or came without a `next_url`. */
  function FirstStop(pages: seq<PageResult>): (k: nat)
    requires ConversationEnds(pages)
    ensures k < |pages| && Stops(pages[k])
    ensures forall i :: 0 <= i < k ==> !Stops(pages[i])
  {
    if Stops(pages[0]) then 0
    else ConversationEndsTail(pages); 1 + FirstStop(pages[1..])
  }

  /** The listing ends with a transport failure. */
  predicate FetchFails(pages: seq<PageResult>)
    requires ConversationEnds(pages)
  {
    pages[FirstStop(pages)].TransportFailure?
  }

  /** Every resource of the given decoded pages, in the order processed. */
  function AllResources(pages: seq<PageResult>): seq<Resource>
    requires forall i :: 0 <= i < |pages| ==> pages[i].Page?
  {
    if pages == [] then []
    else AllResources(pages[..|pages| - 1]) + pages[|pages| - 1].resources
  }

  /** The map built by inserting each resource under its own GUID, in order;
      a later insertion under the same GUID overwrites an earlier one. */
  function Accumulate(resources: seq<Resource>): map<string, Resource>
  {
    if resources == [] then map[]
    else
      var last := resources[|resources| - 1];
      Accumulate(resources[..|resources| - 1])[last.metadata.guid := last]
  }

  /** The pages the listing loop processes (all of them decoded). */
  function Processed(pages: seq<PageResult>): (done: seq<PageResult>)
    requires ConversationEnds(pages) && !FetchFails(pages)
    ensures |done| == FirstStop(pages) + 1
    ensures forall i :: 0 <= i < |done| ==> done[i] == pages[i] && done[i].Page?
  {
    pages[..FirstStop(pages) + 1]
  }

  /** The map `GetResourceList` returns when no transport failure occurs. */
  function Fetched(pages: seq<PageResult>): map<string, Resource>
    requires ConversationEnds(pages) && !FetchFails(pages)
  {
    Accumulate(AllResources(Processed(pages)))
  }

  /** Every stored resource sits under its own GUID. */
  predicate KeyedByGuid(m: map<string, Resource>)
  {
    forall g :: g in m ==> m[g].metadata.guid == g
  }

  /** The first request of a listing: the path resolved against the API URL,
      the page size as query, and the bearer token. */
  function FirstRequest(apiUrl: Url, apiPath: string, token: string): Request
  {
    Request(
      "GET",
      Resolved(apiUrl, apiPath, "results-per-page=100"),
      map["Accept" := "application/json", "Authorization" := "Bearer " + token],
      None,
      "")
  }

  /** The request for the page after one carrying `nextUrl`: the same request
      with its URL replaced by the API URL's text followed by `nextUrl`. */
  function NextRequest(first: Request, apiUrl: Url, nextUrl: string): Request
  {
    first.(target := Parsed(apiUrl.text + nextUrl))
  }

  /** The requests of a listing that has processed `k` pages and goes on. */
  function RequestsUpTo(first: Request, apiUrl: Url, pages: seq<PageResult>, k: nat): (rs: seq<Request>)
    requires k < |pages|
    requires forall i :: 0 <= i < k ==> pages[i].Page?
  {
    seq(k + 1, i requires 0 <= i <= k =>
      if i == 0 then first else NextRequest(first, apiUrl, pages[i - 1].nextUrl))
  }

  // ---------------------------------------------------------------------
  // Properties of the accumulation

  function Guids(resources: seq<Resource>): set<string>
  {
    set r | r in resources :: r.metadata.guid
  }

  /** The keys are exactly the GUIDs of the resources. */
  lemma {:induction false} AccumulateKeys(resources: seq<Resource>)
    ensures Accumulate(resources).Keys == Guids(resources)
  {
    if resources != [] {
      var init := resources[..|resources| - 1];
      var last := resources[|resources| - 1];
      AccumulateKeys(init);
      assert resources == init + [last];
      assert Guids(resources) == Guids(init) + {last.metadata.guid};
    }
  }

  /** Each resource is stored under its own GUID, and every stored value is
      one of the resources. */
  lemma {:induction false} AccumulateValues(resources: seq<Resource>)
    ensures KeyedByGuid(Accumulate(resources))
    ensures forall g :: g in Accumulate(resources) ==> Accumulate(resources)[g] in resources
  {
    if resources != [] {
      var init := resources[..|resources| - 1];
      AccumulateValues(init);
      assert resources == init + [resources[|resources| - 1]];
    }
  }

  /** The occurrence processed last wins. */
  lemma {:induction false} AccumulateLastWins(resources: seq<Resource>, i: nat)
    requires i < |resources|
    requires forall j :: i < j < |resources| ==> resources[j].metadata.guid != resources[i].metadata.guid
    ensures resources[i].metadata.guid in Accumulate(resources)
    ensures Accumulate(resources)[resources[i].metadata.guid] == resources[i]
  {
    if i < |resources| - 1 {
      var init := resources[..|resources| - 1];
      AccumulateLastWins(init, i);
    }
  }

  /** Accumulating two runs of resources one after the other is the union of
      the two maps, the second overriding the first. */
  lemma {:induction false} AccumulateConcat(a: seq<Resource>, b: seq<Resource>)
    ensures Accumulate(a + b) == Accumulate(a) + Accumulate(b)
  {
    if b != [] {
      var init := b[..|b| - 1];
      var last := b[|b| - 1];
      assert (a + b)[..|a + b| - 1] == a + init;
      AccumulateConcat(a, init);
    } else {
      assert a + b == a;
    }
  }

  lemma {:induction false} AllResourcesMembers(pages: seq<PageResult>, r: Resource)
    requires forall i :: 0 <= i < |pages| ==> pages[i].Page?
    ensures r in AllResources(pages) <==> exists i :: 0 <= i < |pages| && r in pages[i].resources
  {
    if pages != [] {
      var init := pages[..|pages| - 1];
      AllResourcesMembers(init, r);
      if r in AllResources(pages) && r !in AllResources(init) {
        assert r in pages[|pages| - 1].resources;
      }
      if exists i :: 0 <= i < |pages| && r in pages[i].resources {
        var i :| 0 <= i < |pages| && r in pages[i].resources;
        if i < |pages| - 1 {
          assert init[i] == pages[i];
        }
      }
    }
  }

  /** The keys of the fetched map are exactly the GUIDs of all resources of
      all processed pages, each stored under its own GUID. */
  lemma FetchedKeys(pages: seq<PageResult>)
    requires ConversationEnds(pages) && !FetchFails(pages)
    ensures Fetched(pages).Keys ==
      set i, r | 0 <= i <= FirstStop(pages) && r in pages[i].resources :: r.metadata.guid
    ensures KeyedByGuid(Fetched(pages))
  {
    var done := Processed(pages);
    AccumulateKeys(AllResources(done));
    AccumulateValues(AllResources(done));
    forall r ensures r in AllResources(done) <==> exists i :: 0 <= i <= FirstStop(pages) && r in pages[i].resources {
      AllResourcesMembers(done, r);
    }
  }

  /** A collection whose only page is empty and has no successor yields the
      empty map. */
  lemma EmptyCollection(e: Option<Error>)
    ensures ConversationEnds([Page([], "", e)]) && !FetchFails([Page([], "", e)])
    ensures Fetched([Page([], "", e)]) == map[]
  {
    var pages := [Page([], "", e)];
    assert Stops(pages[0]);
    assert AllResources(Processed(pages)) == AllResources([]) + [];
  }
}
