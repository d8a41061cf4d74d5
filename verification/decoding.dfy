/** The decode-and-insert loop shared by `GetApps`, `GetOrganizations`,
    `GetSpaces`, `GetStacks`, `GetBuildpacks` and `GetQuotaDefinitions`:
    decode each fetched envelope's entity, keep the envelope's metadata, and
    insert the record into a fresh map under a key taken from the record. */
module Decoding {
  import opened Common
  import opened CfModel
  import opened Pagination

  /** The record an envelope decodes to. */
  function InfoOf<E>(r: Resource, decode: Decoder<E>): Info<E>
    requires decode(r.entity).Success?
  {
    Info(r.metadata, decode(r.entity).value)
  }

  /** Every fetched entity decodes. */
  ghost predicate AllDecode<E>(resources: map<string, Resource>, decode: Decoder<E>)
  {
    forall k :: k in resources ==> decode(resources[k].entity).Success?
  }

  /** `m` is a map the loop can build when every entity decodes: its keys are
      the keys of the decoded records, and each entry is the record of some
      envelope, stored under that record's key. When two records share a key,
      the one Go's map iteration visits last is kept, so which one is not
      fixed. */
  ghost predicate DecodedMap<E>(resources: map<string, Resource>, decode: Decoder<E>, key: Info<E> -> string, m: map<string, Info<E>>)
    requires AllDecode(resources, decode)
  {
    && m.Keys == (set k | k in resources :: key(InfoOf(resources[k], decode)))
    && forall n :: n in m ==>
         key(m[n]) == n && exists k :: k in resources && m[n] == InfoOf(resources[k], decode)
  }

  /** The range loop over the fetched map. It stops at the first entity, in
      iteration order, that fails to decode and reports that error. */
  method DecodeAll<E>(resources: map<string, Resource>, decode: Decoder<E>, key: Info<E> -> string)
    returns (r: Result<map<string, Info<E>>>)
    ensures r.Success? <==> AllDecode(resources, decode)
    ensures r.Failure? ==> exists k :: k in resources && decode(resources[k].entity) == Failure(r.error)
    ensures r.Success? ==> DecodedMap(resources, decode, key, r.value)
  {
    var resultMap: map<string, Info<E>> := map[];
    var remaining := resources.Keys;
    while remaining != {}
      invariant remaining <= resources.Keys
      invariant forall k :: k in resources && k !in remaining ==> decode(resources[k].entity).Success?
      invariant resultMap.Keys ==
        (set k | k in resources && k !in remaining :: key(InfoOf(resources[k], decode)))
      invariant forall n :: n in resultMap ==>
        key(resultMap[n]) == n &&
        exists k :: k in resources && k !in remaining && resultMap[n] == InfoOf(resources[k], decode)
      decreases remaining
    {
      var k :| k in remaining;
      var value := resources[k];
      var decoded := decode(value.entity);
      if decoded.Failure? {
        return Failure(decoded.error);
      }
      var info := Info(value.metadata, decoded.value);
      resultMap := resultMap[key(info) := info];
      remaining := remaining - {k};
    }
    return Success(resultMap);
  }

  /** The map of records keyed by the envelope keys. */
  function GuidMap<E>(resources: map<string, Resource>, decode: Decoder<E>): map<string, Info<E>>
    requires AllDecode(resources, decode)
  {
    map k | k in resources :: InfoOf(resources[k], decode)
  }

  /** Keyed by GUID over a map that holds each envelope under its own GUID,
      the decoded map is unique: same keys as the fetched map, and each entry
      is the record of the envelope under the same key, metadata unchanged. */
  lemma GuidKeyedDecode<E>(resources: map<string, Resource>, decode: Decoder<E>, key: Info<E> -> string, m: map<string, Info<E>>)
    requires KeyedByGuid(resources) && AllDecode(resources, decode)
    requires forall i :: key(i) == i.metadata.guid
    requires DecodedMap(resources, decode, key, m)
    ensures m == GuidMap(resources, decode)
    ensures m.Keys == resources.Keys
    ensures forall k :: k in m ==> m[k].metadata == resources[k].metadata
  {
    forall k | k in resources ensures k in m {
      var i := InfoOf(resources[k], decode);
      assert key(i) == k;
    }
    forall n | n in m ensures n in resources && m[n] == InfoOf(resources[n], decode) {
      var k :| k in resources && m[n] == InfoOf(resources[k], decode);
      assert key(m[n]) == k;
    }
    assert m.Keys == resources.Keys;
  }

  /** Keyed by name, the decoded map holds exactly the decoded names; records
      that share a name collapse into one entry whose name is its key. */
  lemma NameKeyedDecode(resources: map<string, Resource>, decode: Decoder<StackEntity>, key: StackInfo -> string, m: map<string, StackInfo>)
    requires AllDecode(resources, decode)
    requires forall i :: key(i) == i.entity.name
    requires DecodedMap(resources, decode, key, m)
    ensures m.Keys == set k | k in resources :: decode(resources[k].entity).value.name
    ensures forall n :: n in m ==> m[n].entity.name == n
    ensures forall k :: k in resources ==>
      var name := decode(resources[k].entity).value.name;
      name in m && exists k' :: k' in resources && m[name] == InfoOf(resources[k'], decode)
  {
  }
}
