/**
 * The caching REST mapper each cluster handle owns (pkg/mapper/restmapper.go).
 *
 * It answers "which kind is served under this resource?" from a positive
 * cache, fails fast for a resource whose lookup failed less than a recheck
 * window ago, and memoises single-version REST mappings.  The mapper it
 * wraps is an oracle: a record of total functions that stays fixed until the
 * dynamic mapper reloads the discovery data, which also empties every cache.
 * Time is an integer count of nanoseconds passed in by the caller.
 */
module Mapper {
  import opened Results

  datatype GroupVersionResource = GroupVersionResource(group: string, version: string, resource: string)
  datatype GroupVersionKind = GroupVersionKind(group: string, version: string, kind: string)
  datatype GroupKind = GroupKind(group: string, kind: string)

  /** A REST mapping: the resource that serves a kind (its scope is left out). */
  datatype RESTMapping = RESTMapping(resource: GroupVersionResource, kind: GroupVersionKind)

  function WithVersion(gk: GroupKind, version: string): (gvk: GroupVersionKind)
    ensures gvk.group == gk.group && gvk.kind == gk.kind && gvk.version == version
  {
    GroupVersionKind(gk.group, version, gk.kind)
  }

  function KindOf(gvk: GroupVersionKind): (gk: GroupKind)
    ensures WithVersion(gk, gvk.version) == gvk
  {
    GroupKind(gvk.group, gvk.kind)
  }

  /** The errors a cached lookup can return. */
  datatype MapperError =
    | NearErr              // a lookup of the same resource failed within the recheck window
    | NoVersion            // "expected at least one version"
    | Underlying(cause: string)  // the wrapped mapper's own error, passed on verbatim

  /** The wrapped mapper, as the answers it gives for every input. */
  datatype Source = Source(
    kindFor: GroupVersionResource -> Result<GroupVersionKind, string>,
    kindsFor: GroupVersionResource -> Result<seq<GroupVersionKind>, string>,
    resourceFor: GroupVersionResource -> Result<GroupVersionResource, string>,
    resourcesFor: GroupVersionResource -> Result<seq<GroupVersionResource>, string>,
    restMapping: (GroupKind, seq<string>) -> Result<RESTMapping, string>,
    restMappings: (GroupKind, seq<string>) -> Result<seq<RESTMapping>, string>,
    resourceSingularizer: string -> Result<string, string>)

  /** The wrapped mapper's error, as the cached mapper returns it. */
  function Lift<T>(x: Result<T, string>): (y: Result<T, MapperError>)
    ensures y.Ok? <==> x.Ok?
    ensures x.Ok? ==> y.value == x.value
    ensures x.Err? ==> y.error == Underlying(x.error)
  {
    match x
    case Ok(v) => Ok(v)
    case Err(e) => Err(Underlying(e))
  }

  /** The default recheck window, 300 seconds, in nanoseconds. */
  const DefaultRecheckTime: int := 300 * 1_000_000_000

  class CachedMapper {
    /** The wrapped mapper. */
    var source: Source
    /** How long a recorded failure suppresses a new query. */
    const window: int
    /** Whether a reload callback is registered (no underlying mapper was given). */
    const reloadable: bool
    /** Positive cache: resource to kind (`gvrToGVK`). */
    var kinds: map<GroupVersionResource, GroupVersionKind>
    /** Negative cache: resource to the time its lookup last failed (`gvrToGVKErr`). */
    var failures: map<GroupVersionResource, int>
    /** Single-version REST mappings, keyed by kind and version (`gvkToGVR`). */
    var mappings: map<GroupVersionKind, RESTMapping>
    /** Number of times KindFor consulted the wrapped mapper. */
    ghost var kindQueries: nat
    /** Number of times RESTMapping consulted the wrapped mapper. */
    ghost var mappingQueries: nat

    /** Every cache entry agrees with the current wrapped mapper. */
    ghost predicate Valid()
      reads this
    {
      && (forall r :: r in kinds ==> source.kindFor(r) == Ok(kinds[r]))
      && (forall r :: r in failures ==> source.kindFor(r).Err?)
      && (forall g :: g in mappings ==> source.restMapping(KindOf(g), [g.version]) == Ok(mappings[g]))
    }

    constructor (source: Source, window: int, reloadable: bool)
      ensures this.source == source && this.window == window && this.reloadable == reloadable
      ensures kinds == map[] && failures == map[] && mappings == map[]
      ensures kindQueries == 0 && mappingQueries == 0
      ensures Valid()
    {
      this.source := source;
      this.window := window;
      this.reloadable := reloadable;
      kinds, failures, mappings := map[], map[], map[];
      kindQueries, mappingQueries := 0, 0;
    }

    /**
     * The kind served under resource `r`, looked up at time `now`: a positive
     * entry wins; otherwise a failure younger than the window answers NearErr;
     * otherwise the wrapped mapper is asked once and its answer is recorded.
     */
    method KindFor(r: GroupVersionResource, now: int) returns (res: Result<GroupVersionKind, MapperError>)
      requires Valid()
      modifies this
      ensures Valid()
      ensures source == old(source) && mappings == old(mappings) && mappingQueries == old(mappingQueries)
      // a positive entry is returned without asking the wrapped mapper
      ensures r in old(kinds) ==>
        && res == Ok(old(kinds)[r])
        && kinds == old(kinds) && failures == old(failures) && kindQueries == old(kindQueries)
      // a recent failure answers NearErr without asking the wrapped mapper
      ensures r !in old(kinds) && r in old(failures) && now - old(failures)[r] < window ==>
        && res == Err(NearErr)
        && kinds == old(kinds) && failures == old(failures) && kindQueries == old(kindQueries)
      // otherwise the wrapped mapper is asked exactly once
      ensures r !in old(kinds) && (r in old(failures) ==> now - old(failures)[r] >= window) ==>
        && kindQueries == old(kindQueries) + 1
        && res == Lift(source.kindFor(r))
        && (res.Ok? ==> kinds == old(kinds)[r := res.value] && failures == old(failures))
        && (res.Err? ==> failures == old(failures)[r := now] && kinds == old(kinds))
      // the cache never changes an answer, and NearErr is returned only for a
      // resource the last discovered mapper fails on
      ensures res.Ok? ==> source.kindFor(r) == Ok(res.value)
      ensures res.Err? ==> source.kindFor(r).Err?
      ensures res == Err(NearErr) || res == Lift(source.kindFor(r))
    {
      if r in kinds {
        return Ok(kinds[r]);
      }
      if r in failures && now - failures[r] < window {
        return Err(NearErr);
      }
      var answer := source.kindFor(r);
      kindQueries := kindQueries + 1;
      match answer {
        case Err(e) =>
          failures := failures[r := now];
          res := Err(Underlying(e));
        case Ok(k) =>
          kinds := kinds[r := k];
          res := Ok(k);
      }
    }

    /** Every kind served under `r`, straight from the wrapped mapper. */
    function KindsFor(r: GroupVersionResource): (res: Result<seq<GroupVersionKind>, string>)
      reads this
      ensures res == source.kindsFor(r)
    {
      source.kindsFor(r)
    }

    /** The preferred resource for a partial resource, straight from the wrapped mapper. */
    function ResourceFor(input: GroupVersionResource): (res: Result<GroupVersionResource, string>)
      reads this
      ensures res == source.resourceFor(input)
    {
      source.resourceFor(input)
    }

    /** Every resource matching a partial resource, straight from the wrapped mapper. */
    function ResourcesFor(input: GroupVersionResource): (res: Result<seq<GroupVersionResource>, string>)
      reads this
      ensures res == source.resourcesFor(input)
    {
      source.resourcesFor(input)
    }

    /**
     * The REST mapping of a kind: more than one version bypasses the cache,
     * no version is an error, and a single version is memoised on success.
     */
    method RESTMapping(gk: GroupKind, versions: seq<string>) returns (res: Result<RESTMapping, MapperError>)
      requires Valid()
      modifies this
      ensures Valid()
      ensures source == old(source) && kinds == old(kinds) && failures == old(failures)
      ensures kindQueries == old(kindQueries)
      ensures |versions| > 1 ==>
        && res == Lift(source.restMapping(gk, versions))
        && mappings == old(mappings) && mappingQueries == old(mappingQueries) + 1
      ensures |versions| == 0 ==>
        && res == Err(NoVersion)
        && mappings == old(mappings) && mappingQueries == old(mappingQueries)
      ensures |versions| == 1 && WithVersion(gk, versions[0]) in old(mappings) ==>
        && res == Ok(old(mappings)[WithVersion(gk, versions[0])])
        && mappings == old(mappings) && mappingQueries == old(mappingQueries)
      ensures |versions| == 1 && WithVersion(gk, versions[0]) !in old(mappings) ==>
        && mappingQueries == old(mappingQueries) + 1
        && (res.Ok? ==> mappings == old(mappings)[WithVersion(gk, versions[0]) := res.value])
        && (res.Err? ==> mappings == old(mappings))
      // with at least one version the answer is always the wrapped mapper's own
      ensures |versions| > 0 ==> res == Lift(source.restMapping(gk, versions))
    {
      if |versions| > 1 {
        mappingQueries := mappingQueries + 1;
        return Lift(source.restMapping(gk, versions));
      }
      if |versions| == 0 {
        return Err(NoVersion);
      }
      var gvk := WithVersion(gk, versions[0]);
      assert KindOf(gvk) == gk && [gvk.version] == versions;
      if gvk in mappings {
        return Ok(mappings[gvk]);
      }
      var answer := source.restMapping(gk, versions);
      mappingQueries := mappingQueries + 1;
      match answer {
        case Err(e) =>
          res := Err(Underlying(e));
        case Ok(mapping) =>
          mappings := mappings[gvk := mapping];
          res := Ok(mapping);
      }
    }

    /** Every REST mapping of a kind, straight from the wrapped mapper. */
    function RESTMappings(gk: GroupKind, versions: seq<string>): (res: Result<seq<RESTMapping>, string>)
      reads this
      ensures res == source.restMappings(gk, versions)
    {
      source.restMappings(gk, versions)
    }

    /** The singular of a resource name, straight from the wrapped mapper. */
    function ResourceSingularizer(resource: string): (res: Result<string, string>)
      reads this
      ensures res == source.resourceSingularizer(resource)
    {
      source.resourceSingularizer(resource)
    }

    /**
     * The reload callback the dynamic mapper runs when the API surface
     * changes: when discovery succeeds, all three caches are emptied and the
     * freshly discovered mapper takes over; when it fails nothing changes.
     */
    method Reload(discovered: Result<Source, string>) returns (err: Option<string>)
      requires Valid() && reloadable
      modifies this
      ensures Valid()
      ensures kindQueries == old(kindQueries) && mappingQueries == old(mappingQueries)
      ensures discovered.Err? ==>
        && err == Some(discovered.error)
        && source == old(source) && kinds == old(kinds) && failures == old(failures) && mappings == old(mappings)
      ensures discovered.Ok? ==>
        && err == None
        && source == discovered.value && kinds == map[] && failures == map[] && mappings == map[]
    {
      match discovered {
        case Err(e) =>
          err := Some(e);
        case Ok(next) =>
          mappings, kinds, failures := map[], map[], map[];
          source := next;
          err := None;
      }
    }
  }

  /** A valid cache never holds a positive and a negative entry for one resource. */
  lemma CachesDisjoint(m: CachedMapper)
    requires m.Valid()
    ensures m.kinds.Keys !! m.failures.Keys
  {
  }

  /** The resource that serves `gvk`, through the single-version mapping cache. */
  method GetGroupVersionResource(m: CachedMapper, gvk: GroupVersionKind) returns (res: Result<GroupVersionResource, MapperError>)
    requires m.Valid()
    modifies m
    ensures m.Valid() && m.source == old(m.source)
    ensures m.kinds == old(m.kinds) && m.failures == old(m.failures) && m.kindQueries == old(m.kindQueries)
    // the single-version mapping cache is consulted first, and filled only on success
    ensures gvk in old(m.mappings) ==>
      m.mappings == old(m.mappings) && m.mappingQueries == old(m.mappingQueries)
    ensures gvk !in old(m.mappings) ==>
      && m.mappingQueries == old(m.mappingQueries) + 1
      && (m.source.restMapping(KindOf(gvk), [gvk.version]).Ok? ==>
            m.mappings == old(m.mappings)[gvk := m.source.restMapping(KindOf(gvk), [gvk.version]).value])
      && (m.source.restMapping(KindOf(gvk), [gvk.version]).Err? ==> m.mappings == old(m.mappings))
    ensures m.source.restMapping(KindOf(gvk), [gvk.version]).Err? ==>
      res == Err(Underlying(m.source.restMapping(KindOf(gvk), [gvk.version]).error))
    ensures m.source.restMapping(KindOf(gvk), [gvk.version]).Ok? ==>
      res == Ok(m.source.restMapping(KindOf(gvk), [gvk.version]).value.resource)
  {
    var mapping := m.RESTMapping(KindOf(gvk), [gvk.version]);
    match mapping {
      case Err(e) => res := Err(e);
      case Ok(mp) => res := Ok(mp.resource);
    }
  }

  /**
   * Wraps a mapper.  Given an underlying mapper, it is wrapped as is and no
   * reload callback exists.  Otherwise a discovery client and then a dynamic
   * mapper are built (either can fail), and the dynamic mapper reloads through
   * the callback.  Either way the caches start empty and the window is the
   * default one.
   */
  method NewCachedRESTMapper(
    underlying: Option<Source>,
    discoveryClient: Result<(), string>,
    dynamicMapper: Result<Source, string>)
    returns (r: Result<CachedMapper, string>)
    ensures underlying.Some? ==> r.Ok? && r.value.source == underlying.value && !r.value.reloadable
    ensures underlying.None? && discoveryClient.Err? ==> r == Err(discoveryClient.error)
    ensures underlying.None? && discoveryClient.Ok? && dynamicMapper.Err? ==> r == Err(dynamicMapper.error)
    ensures underlying.None? && discoveryClient.Ok? && dynamicMapper.Ok? ==>
      r.Ok? && r.value.source == dynamicMapper.value && r.value.reloadable
    ensures r.Ok? ==>
      && fresh(r.value) && r.value.Valid() && r.value.window == DefaultRecheckTime
      && r.value.kinds == map[] && r.value.failures == map[] && r.value.mappings == map[]
  {
    if underlying.Some? {
      var m := new CachedMapper(underlying.value, DefaultRecheckTime, false);
      return Ok(m);
    }
    if discoveryClient.Err? {
      return Err(discoveryClient.error);
    }
    if dynamicMapper.Err? {
      return Err(dynamicMapper.error);
    }
    var m := new CachedMapper(dynamicMapper.value, DefaultRecheckTime, true);
    r := Ok(m);
  }

  /** The mapper a cluster handle uses: always the reloading, discovery-backed one. */
  method Provider(discoveryClient: Result<(), string>, dynamicMapper: Result<Source, string>)
    returns (r: Result<CachedMapper, string>)
    ensures discoveryClient.Err? ==> r == Err(discoveryClient.error)
    ensures discoveryClient.Ok? && dynamicMapper.Err? ==> r == Err(dynamicMapper.error)
    ensures discoveryClient.Ok? && dynamicMapper.Ok? ==> r.Ok? && r.value.source == dynamicMapper.value
    ensures r.Ok? ==>
      && fresh(r.value) && r.value.Valid() && r.value.reloadable && r.value.window == DefaultRecheckTime
      && r.value.kinds == map[] && r.value.failures == map[] && r.value.mappings == map[]
  {
    r := NewCachedRESTMapper(None, discoveryClient, dynamicMapper);
  }

  /**
   * A failed lookup at time `t` is answered with NearErr, without a query,
   * at `t + eps` inside the window, and is queried again once the window has
   * passed.
   */
  method ThrottleThenRecheck(m: CachedMapper, r: GroupVersionResource, t: int, eps: int)
    returns (first: Result<GroupVersionKind, MapperError>, second: Result<GroupVersionKind, MapperError>, third: Result<GroupVersionKind, MapperError>)
    requires m.Valid() && r !in m.kinds && r !in m.failures
    requires m.source.kindFor(r).Err?
    requires 0 <= eps < m.window
    modifies m
    ensures first == Err(Underlying(old(m.source).kindFor(r).error))
    ensures second == Err(NearErr)
    ensures third == first
    ensures m.kindQueries == old(m.kindQueries) + 2
  {
    first := m.KindFor(r, t);
    ghost var afterFirst := m.kindQueries;
    second := m.KindFor(r, t + eps);
    assert m.kindQueries == afterFirst;
    third := m.KindFor(r, t + m.window + eps);
  }
}
