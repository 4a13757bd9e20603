/**
 * The handle on one member cluster (pkg/cluster/cluster.go): its lifecycle
 * state machine and the sub-clients built once, at construction.
 *
 * The background cache task and its cancel function are ghost state: a count
 * of the cancellable contexts Start has created, a count of the cancel calls
 * Stop has made, and whether the cache task is running and not yet cancelled.
 */
module Cluster {
  import opened Results
  import opened ClusterStatus
  import Mapper

  /** Identity of an external client object; only its identity matters here. */
  type Ref = nat

  /** The type registry handed to the runtime client and cache. */
  datatype Scheme = Scheme(id: nat)

  /** Resolved connection parameters (a `*rest.Config`). */
  datatype RestConfig = RestConfig(host: string)

  /** A post-construction option, reduced to whether it fails and why. */
  datatype InitOption = Succeeds | FailsWith(cause: string)

  /**
   * What the external constructors New calls return for one configuration,
   * in the order New calls them: the mapper's discovery client and dynamic
   * mapper, then the runtime client, the cache, the dynamic client, the
   * api-extensions client and the discovery client.
   */
  datatype Wiring = Wiring(
    mapperDiscovery: Result<(), string>,
    mapperDynamic: Result<Mapper.Source, string>,
    client: Result<Ref, string>,
    cache: Result<Ref, string>,
    dynamic: Result<Ref, string>,
    extensions: Result<Ref, string>,
    discovery: Result<Ref, string>)

  /** Start's error for a status below Disabled. */
  datatype StartError = UnknownStatus(name: string, status: Code)

  /** The status Start leaves behind. */
  function AfterStart(c: Code): Code {
    if c == Stopped then Started else c
  }

  /** The status Stop leaves behind. */
  function AfterStop(c: Code): Code {
    if c > Stopped then Stopped else c
  }

  /** The public lifecycle operations of a handle. */
  datatype Op = StartOp | StopOp | DisableOp

  function Apply(c: Code, op: Op): Code {
    match op
    case StartOp => AfterStart(c)
    case StopOp => AfterStop(c)
    case DisableOp => Disabled
  }

  /** The status after a sequence of public operations. */
  function Run(c: Code, ops: seq<Op>): Code
    decreases |ops|
  {
    if ops == [] then c else Run(Apply(c, ops[0]), ops[1..])
  }

  class Handle {
    const name: string
    const config: Option<RestConfig>
    const scheme: Option<Scheme>
    const client: Ref
    const cache: Ref
    const mapper: Mapper.CachedMapper
    const dynamic: Ref
    const extensions: Ref
    const discovery: Ref
    var status: Code
    /** Cancellable contexts created by Start so far. */
    ghost var tokens: nat
    /** Cancel functions invoked by Stop so far. */
    ghost var cancels: nat
    /** The background cache task runs under a context not yet cancelled. */
    ghost var taskLive: bool

    /**
     * The cache task runs exactly while the status is Started or above, and every
     * context Start created except the live one has been cancelled once.
     */
    ghost predicate Valid()
      reads this
    {
      && (taskLive <==> status >= Started)
      && tokens == cancels + (if taskLive then 1 else 0)
    }

    constructor (
      name: string, config: Option<RestConfig>, scheme: Option<Scheme>,
      client: Ref, cache: Ref, mapper: Mapper.CachedMapper,
      dynamic: Ref, extensions: Ref, discovery: Ref)
      ensures Valid() && status == Stopped && !taskLive && tokens == 0 && cancels == 0
      ensures this.name == name && this.config == config && this.scheme == scheme
      ensures this.client == client && this.cache == cache && this.mapper == mapper
      ensures this.dynamic == dynamic && this.extensions == extensions && this.discovery == discovery
    {
      this.name, this.config, this.scheme := name, config, scheme;
      this.client, this.cache, this.mapper := client, cache, mapper;
      this.dynamic, this.extensions, this.discovery := dynamic, extensions, discovery;
      status := Stopped;
      tokens, cancels, taskLive := 0, 0, false;
    }

    /**
     * Only a stopped handle starts: it gets a new cancellable context, the
     * cache task is launched under it and the status becomes Started.  A
     * disabled or already started handle is left alone.
     */
    method Start() returns (err: Option<StartError>)
      requires Valid()
      modifies this
      ensures Valid()
      ensures status == AfterStart(old(status))
      ensures err.Some? <==> old(status) < Disabled
      ensures err.Some? ==> err.value == UnknownStatus(name, old(status))
      ensures old(status) == Stopped ==> taskLive && tokens == old(tokens) + 1
      ensures old(status) != Stopped ==> taskLive == old(taskLive) && tokens == old(tokens)
      ensures cancels == old(cancels)
    {
      if status == Disabled {
        err := None;
      } else if status >= Started {
        err := None;
      } else if status == Stopped {
        tokens := tokens + 1;
        taskLive := true;
        status := Started;
        err := None;
      } else {
        err := Some(UnknownStatus(name, status));
      }
    }

    /** A handle above Stopped has its context cancelled once and becomes Stopped. */
    method Stop()
      requires Valid()
      modifies this
      ensures Valid()
      ensures status == AfterStop(old(status))
      ensures !taskLive && tokens == old(tokens)
      ensures cancels == old(cancels) + (if old(status) > Stopped then 1 else 0)
    {
      if status > Stopped {
        cancels := cancels + 1;
        taskLive := false;
        status := Stopped;
      }
    }

    /** Stops a running handle first, then always marks it Disabled. */
    method Disable()
      requires Valid()
      modifies this
      ensures Valid()
      ensures status == Disabled && !taskLive && tokens == old(tokens)
      ensures cancels == old(cancels) + (if old(status) >= Started then 1 else 0)
    {
      if status >= Started {
        Stop();
      }
      status := Disabled;
    }
  }

  /** The first failing constructor's error, worded as New wraps it. */
  function WiringError(w: Wiring): (e: Option<string>)
    ensures e.None? <==>
      && w.mapperDiscovery.Ok? && w.mapperDynamic.Ok? && w.client.Ok? && w.cache.Ok?
      && w.dynamic.Ok? && w.extensions.Ok? && w.discovery.Ok?
  {
    if w.mapperDiscovery.Err? then Some("failed to create mapper: " + w.mapperDiscovery.error)
    else if w.mapperDynamic.Err? then Some("failed to create mapper: " + w.mapperDynamic.error)
    else if w.client.Err? then Some("failed to create runtime client: " + w.client.error)
    else if w.cache.Err? then Some("failed to create runtime cache: " + w.cache.error)
    else if w.dynamic.Err? then Some("failed to create dynamic client: " + w.dynamic.error)
    else if w.extensions.Err? then Some("failed to create api-extensions client: " + w.extensions.error)
    else if w.discovery.Err? then Some("failed to create discovery client: " + w.discovery.error)
    else None
  }

  /** The cause of the first failing option, if any option fails. */
  function FirstFailure(options: seq<InitOption>): (e: Option<string>)
    ensures e.None? <==> forall i :: 0 <= i < |options| ==> options[i].Succeeds?
    decreases |options|
  {
    if options == [] then None
    else if options[0].FailsWith? then Some(options[0].cause)
    else FirstFailure(options[1..])
  }

  /** When option `i` fails and all before it succeed, its cause is the first failure. */
  lemma {:induction false} FirstFailureAt(options: seq<InitOption>, i: nat)
    requires i < |options| && options[i].FailsWith?
    requires forall j :: 0 <= j < i ==> options[j].Succeeds?
    ensures FirstFailure(options) == Some(options[i].cause)
    decreases i
  {
    if i > 0 {
      FirstFailureAt(options[1..], i - 1);
    }
  }

  /** The first failure is the cause of a failing option that every earlier option passed. */
  lemma {:induction false} FirstFailureIsEarliest(options: seq<InitOption>)
    requires FirstFailure(options).Some?
    ensures exists i :: 0 <= i < |options| && options[i] == FailsWith(FirstFailure(options).value)
                     && (forall j :: 0 <= j < i ==> options[j].Succeeds?)
    decreases |options|
  {
    if options[0].Succeeds? {
      FirstFailureIsEarliest(options[1..]);
      var i :| 0 <= i < |options[1..]| && options[1..][i] == FailsWith(FirstFailure(options[1..]).value)
               && (forall j :: 0 <= j < i ==> options[1..][j].Succeeds?);
      assert options[i + 1] == options[1..][i];
      assert forall j :: 1 <= j < i + 1 ==> options[j] == options[1..][j - 1];
    } else {
      assert options[0] == FailsWith(FirstFailure(options).value);
    }
  }

  /**
   * Builds a handle: the sub-clients in order, stopping at the first that
   * fails; then status Stopped and the scheme; then the options in order,
   * stopping at the first that fails.  The name and the configuration are
   * never assigned, so they keep their zero values.
   */
  method New(config: RestConfig, scheme: Option<Scheme>, w: Wiring, options: seq<InitOption>)
    returns (r: Result<Handle, string>)
    ensures WiringError(w).Some? ==> r == Err(WiringError(w).value)
    ensures WiringError(w).None? && FirstFailure(options).Some? ==>
      r == Err("failed to initialize options: " + FirstFailure(options).value)
    ensures WiringError(w).None? && FirstFailure(options).None? ==> r.Ok?
    ensures r.Ok? ==>
      && fresh(r.value) && r.value.Valid()
      && r.value.status == Stopped && !r.value.taskLive && r.value.tokens == 0 && r.value.cancels == 0
      && r.value.name == "" && r.value.config == None && r.value.scheme == scheme
      && r.value.client == w.client.value && r.value.cache == w.cache.value
      && r.value.dynamic == w.dynamic.value && r.value.extensions == w.extensions.value
      && r.value.discovery == w.discovery.value
      && fresh(r.value.mapper) && r.value.mapper.Valid() && r.value.mapper.reloadable
      && r.value.mapper.source == w.mapperDynamic.value
      && r.value.mapper.kinds == map[] && r.value.mapper.failures == map[] && r.value.mapper.mappings == map[]
  {
    var m := Mapper.Provider(w.mapperDiscovery, w.mapperDynamic);
    if m.Err? {
      return Err("failed to create mapper: " + m.error);
    }
    if w.client.Err? {
      return Err("failed to create runtime client: " + w.client.error);
    }
    if w.cache.Err? {
      return Err("failed to create runtime cache: " + w.cache.error);
    }
    if w.dynamic.Err? {
      return Err("failed to create dynamic client: " + w.dynamic.error);
    }
    if w.extensions.Err? {
      return Err("failed to create api-extensions client: " + w.extensions.error);
    }
    if w.discovery.Err? {
      return Err("failed to create discovery client: " + w.discovery.error);
    }
    var h := new Handle("", None, scheme, w.client.value, w.cache.value, m.value,
                        w.dynamic.value, w.extensions.value, w.discovery.value);
    for i := 0 to |options|
      invariant forall j :: 0 <= j < i ==> options[j].Succeeds?
    {
      if options[i].FailsWith? {
        FirstFailureAt(options, i);
        return Err("failed to initialize options: " + options[i].cause);
      }
    }
    r := Ok(h);
  }

  /** Start and Stop repeat harmlessly. */
  lemma LifecycleIdempotent(c: Code)
    ensures AfterStart(AfterStart(c)) == AfterStart(c)
    ensures AfterStop(AfterStop(c)) == AfterStop(c)
  {
  }

  /**
   * Starting and then stopping a stopped handle leaves it stopped, with one
   * more context created and that same context cancelled.
   */
  method StartStopRoundTrip(h: Handle)
    requires h.Valid() && h.status == Stopped
    modifies h
    ensures h.Valid() && h.status == Stopped && !h.taskLive
    ensures h.tokens == old(h.tokens) + 1 && h.cancels == old(h.cancels) + 1
  {
    var err := h.Start();
    assert err.None? && h.status == Started;
    h.Stop();
  }

  /** No sequence of public operations re-enables a disabled handle. */
  lemma {:induction false} DisabledStaysDisabled(ops: seq<Op>)
    ensures Run(Disabled, ops) == Disabled
    decreases |ops|
  {
    if ops != [] {
      DisabledStaysDisabled(ops[1..]);
    }
  }

  /**
   * From Disabled, Stopped or Started, no sequence of public operations
   * reaches Waiting or Ready: only the out-of-scope cache task could.
   */
  lemma {:induction false} NeverWaitingOrReady(c: Code, ops: seq<Op>)
    requires Disabled <= c <= Started
    ensures Disabled <= Run(c, ops) <= Started
    decreases |ops|
  {
    if ops != [] {
      NeverWaitingOrReady(Apply(c, ops[0]), ops[1..]);
    }
  }
}
