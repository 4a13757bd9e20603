/**
 * The fluent builder that turns a cluster name into a handle
 * (pkg/cluster/builder.go).
 *
 * The master cluster's client is a lookup of cluster descriptions by name;
 * the credential resolver (`utils.BuildConfig` reading secrets through the
 * master) and the sub-client constructors are parameters of Complete.
 */
module ClusterBuilder {
  import opened Results
  import opened ClusterStatus
  import opened Api
  import opened Cluster

  /** The master cluster's client: fetching a cluster description by name. */
  datatype Master = Master(get: string -> Result<Description, string>)

  /** The external steps Complete takes, in the order it takes them. */
  datatype Step = FetchDescription | ResolveConfig | ConstructHandle | DisableHandle

  const NilScheme: string := "must provide a non-nil scheme"
  const NilMaster: string := "must provide a non-nil master cluster client"
  const EmptyName: string := "must provide a non-empty cluster name"

  class Builder {
    var clusterName: string
    var master: Option<Master>
    var scheme: Option<Scheme>
    var options: seq<InitOption>

    /** `By`: a builder holding only the master client. */
    constructor By(master: Option<Master>)
      ensures this.master == master && clusterName == "" && scheme == None && options == []
    {
      this.master := master;
      clusterName, scheme, options := "", None, [];
    }

    /** Stores the scheme, nil included, and returns the same builder. */
    method WithScheme(s: Option<Scheme>) returns (b: Builder)
      modifies this
      ensures b == this && scheme == s
      ensures clusterName == old(clusterName) && master == old(master) && options == old(options)
    {
      scheme := s;
      b := this;
    }

    /** Replaces the options with `opts` and returns the same builder. */
    method WithOptions(opts: seq<InitOption>) returns (b: Builder)
      modifies this
      ensures b == this && options == opts
      ensures clusterName == old(clusterName) && master == old(master) && scheme == old(scheme)
    {
      options := opts;
      b := this;
    }

    /** Stores the cluster name and returns the same builder. */
    method Named(name: string) returns (b: Builder)
      modifies this
      ensures b == this && clusterName == name
      ensures master == old(master) && scheme == old(scheme) && options == old(options)
    {
      clusterName := name;
      b := this;
    }

    /**
     * Fetches the named description from the master, after checking that
     * there is a master client and a name to ask for.
     */
    function LoadClusterCR(): (r: Result<Description, string>)
      reads this
      ensures master.None? ==> r == Err(NilMaster)
      ensures master.Some? && clusterName == "" ==> r == Err(EmptyName)
      ensures master.Some? && clusterName != "" ==> r == master.value.get(clusterName)
    {
      if master.None? then Err(NilMaster)
      else if |clusterName| == 0 then Err(EmptyName)
      else master.value.get(clusterName)
    }

    /**
     * Checks the scheme, fetches the description, resolves the connection
     * parameters, builds the handle with the stored options and disables it
     * when the description says so; the first failure ends the chain with an
     * error and no handle.  `steps` records the external steps taken.
     */
    method Complete(
      resolve: (string, ConnectConfig) -> Result<RestConfig, string>,
      wire: RestConfig -> Wiring)
      returns (r: Result<Handle, string>, ghost steps: seq<Step>)
      ensures scheme.None? ==> r == Err(NilScheme) && steps == []
      ensures scheme.Some? && LoadClusterCR().Err? ==>
        && r == Err("failed to load cluster resource: " + LoadClusterCR().error)
        && steps == (if master.Some? && clusterName != "" then [FetchDescription] else [])
      ensures scheme.Some? && LoadClusterCR().Ok? ==>
        var desc := LoadClusterCR().value;
        var config := resolve(clusterName, desc.spec.connect);
        && (config.Err? ==>
              r == Err("failed to load client rest config: " + config.error)
              && steps == [FetchDescription, ResolveConfig])
        && (config.Ok? && WiringError(wire(config.value)).Some? ==>
              r == Err("failed to create cluster: " + WiringError(wire(config.value)).value)
              && steps == [FetchDescription, ResolveConfig, ConstructHandle])
        && (config.Ok? && WiringError(wire(config.value)).None? && FirstFailure(options).Some? ==>
              r == Err("failed to create cluster: " + ("failed to initialize options: " + FirstFailure(options).value))
              && steps == [FetchDescription, ResolveConfig, ConstructHandle])
        && (config.Ok? && WiringError(wire(config.value)).None? && FirstFailure(options).None? ==>
              && r.Ok?
              && r.value.status == (if desc.spec.disabled then Disabled else Stopped)
              // the handle is bound to the sub-clients built from the resolved configuration
              && var w := wire(config.value);
              && r.value.client == w.client.value && r.value.cache == w.cache.value
              && r.value.dynamic == w.dynamic.value && r.value.extensions == w.extensions.value
              && r.value.discovery == w.discovery.value
              && r.value.mapper.source == w.mapperDynamic.value && r.value.mapper.reloadable
              && r.value.mapper.kinds == map[] && r.value.mapper.failures == map[] && r.value.mapper.mappings == map[]
              && steps == [FetchDescription, ResolveConfig, ConstructHandle]
                          + (if desc.spec.disabled then [DisableHandle] else []))
      ensures r.Ok? ==>
        && fresh(r.value) && r.value.Valid() && !r.value.taskLive
        && r.value.tokens == 0 && r.value.cancels == 0 && r.value.config == None
        && r.value.scheme == scheme && r.value.name == ""
        && (r.value.status == Disabled || r.value.status == Stopped)
    {
      if scheme.None? {
        return Err(NilScheme), [];
      }
      var loaded := LoadClusterCR();
      steps := if master.Some? && clusterName != "" then [FetchDescription] else [];
      if loaded.Err? {
        return Err("failed to load cluster resource: " + loaded.error), steps;
      }
      var desc := loaded.value;
      var config := resolve(clusterName, desc.spec.connect);
      steps := steps + [ResolveConfig];
      if config.Err? {
        return Err("failed to load client rest config: " + config.error), steps;
      }
      var built := New(config.value, scheme, wire(config.value), options);
      steps := steps + [ConstructHandle];
      if built.Err? {
        return Err("failed to create cluster: " + built.error), steps;
      }
      var h := built.value;
      if desc.spec.disabled {
        h.Disable();
        steps := steps + [DisableHandle];
      }
      r := Ok(h);
    }
  }
}
