/**
 * The registry of member clusters (pkg/pool/pool.go): a name-to-handle map
 * in which an active handle cannot be replaced, and which fans Start and
 * Stop out to every handle.  The reader/writer lock is left out: every
 * operation runs alone.  Go visits a map in no fixed order; the loops here
 * pick the next name arbitrarily.
 */
module Pool {
  import opened Results
  import opened ClusterStatus
  import opened Cluster

  /** Add's error: the new handle's name and status, for the message. */
  datatype AddError = CannotReplace(name: string, status: Code)

  /** A handle whose background task may be running. */
  predicate Active(c: Code) {
    c == Started || c == Ready || c == Waiting
  }

  class Pool {
    var clusters: map<string, Handle>

    /** Every handle is valid and filed under its own name. */
    ghost predicate Valid()
      reads this, clusters.Values
    {
      forall n :: n in clusters ==> clusters[n].name == n && clusters[n].Valid()
    }

    constructor ()
      ensures Valid() && clusters == map[]
    {
      clusters := map[];
    }

    /**
     * Files `clu` under its name, unless an active handle is already filed
     * there, in which case nothing changes.
     */
    method Add(clu: Handle) returns (err: Option<AddError>)
      requires Valid() && clu.Valid()
      modifies this
      ensures Valid()
      ensures err.Some? <==> clu.name in old(clusters) && Active(old(clusters)[clu.name].status)
      ensures err.Some? ==> clusters == old(clusters) && err.value == CannotReplace(clu.name, clu.status)
      ensures err.None? ==> clusters == old(clusters)[clu.name := clu]
    {
      if clu.name in clusters {
        var existing := clusters[clu.name];
        if existing.status == Started || existing.status == Ready || existing.status == Waiting {
          return Some(CannotReplace(clu.name, clu.status));
        }
      }
      clusters := clusters[clu.name := clu];
      err := None;
    }

    /** Stops the handle filed under `name`, if any, then forgets it. */
    method Remove(name: string)
      requires Valid()
      modifies this, if name in clusters then {clusters[name]} else {}
      ensures Valid()
      ensures clusters == old(clusters) - {name}
      ensures name in old(clusters) ==>
        var h := old(clusters)[name];
        && h.Valid() && h.status == AfterStop(old(h.status)) && !h.taskLive
        && h.tokens == old(h.tokens)
        && h.cancels == old(h.cancels) + (if old(h.status) > Stopped then 1 else 0)
    {
      if name in clusters {
        clusters[name].Stop();
        clusters := clusters - {name};
      }
    }

    /** The handle filed under `name`, or null. */
    function Cluster(name: string): (h: Handle?)
      reads this
      ensures h != null <==> name in clusters
      ensures h != null ==> h == clusters[name]
    {
      if name in clusters then clusters[name] else null
    }

    /** A copy of the registry, entry by entry. */
    method Clusters() returns (snapshot: map<string, Handle>)
      ensures snapshot == clusters
    {
      snapshot := map[];
      var rest := clusters.Keys;
      while rest != {}
        invariant rest <= clusters.Keys
        invariant snapshot.Keys == clusters.Keys - rest
        invariant forall n :: n in snapshot ==> snapshot[n] == clusters[n]
        decreases rest
      {
        var n :| n in rest;
        snapshot := snapshot[n := clusters[n]];
        rest := rest - {n};
      }
    }

    /**
     * Starts the handles one by one; the first error ends the loop and is
     * returned, so handles not yet visited keep their status.
     */
    method Start() returns (err: Option<StartError>)
      requires Valid()
      modifies clusters.Values
      ensures Valid()
      ensures err.None? ==>
        forall n :: n in clusters ==> clusters[n].status == AfterStart(old(clusters[n].status))
      ensures err.None? <==> forall n :: n in clusters ==> old(clusters[n].status) >= Disabled
      ensures err.Some? ==>
        exists n :: n in clusters && old(clusters[n].status) < Disabled
                 && err.value == UnknownStatus(n, old(clusters[n].status))
      ensures forall n :: n in clusters ==>
        clusters[n].status == old(clusters[n].status) || clusters[n].status == AfterStart(old(clusters[n].status))
      // a context is created exactly for each handle moved from Stopped to Started; none is cancelled
      ensures forall n :: n in clusters ==>
        && clusters[n].cancels == old(clusters[n].cancels)
        && clusters[n].tokens == old(clusters[n].tokens)
             + (if old(clusters[n].status) == Stopped && clusters[n].status == Started then 1 else 0)
    {
      var rest := clusters.Keys;
      while rest != {}
        invariant rest <= clusters.Keys
        invariant Valid()
        invariant forall n :: n in clusters && n !in rest ==>
          && old(clusters[n].status) >= Disabled
          && clusters[n].status == AfterStart(old(clusters[n].status))
          && clusters[n].cancels == old(clusters[n].cancels)
          && clusters[n].tokens == old(clusters[n].tokens) + (if old(clusters[n].status) == Stopped then 1 else 0)
        invariant forall n :: n in rest ==>
          && clusters[n].status == old(clusters[n].status)
          && clusters[n].cancels == old(clusters[n].cancels)
          && clusters[n].tokens == old(clusters[n].tokens)
        decreases rest
      {
        var n :| n in rest;
        var h := clusters[n];
        err := h.Start();
        if err.Some? {
          return;
        }
        rest := rest - {n};
      }
      err := None;
    }

    /** Stops every handle. */
    method Stop()
      requires Valid()
      modifies clusters.Values
      ensures Valid()
      ensures forall n :: n in clusters ==>
        clusters[n].status == AfterStop(old(clusters[n].status)) && !clusters[n].taskLive
      // each handle above Stopped has its context cancelled exactly once
      ensures forall n :: n in clusters ==>
        && clusters[n].tokens == old(clusters[n].tokens)
        && clusters[n].cancels == old(clusters[n].cancels) + (if old(clusters[n].status) > Stopped then 1 else 0)
    {
      var rest := clusters.Keys;
      while rest != {}
        invariant rest <= clusters.Keys
        invariant Valid()
        invariant forall n :: n in clusters && n !in rest ==>
          && clusters[n].status == AfterStop(old(clusters[n].status)) && !clusters[n].taskLive
          && clusters[n].tokens == old(clusters[n].tokens)
          && clusters[n].cancels == old(clusters[n].cancels) + (if old(clusters[n].status) > Stopped then 1 else 0)
        invariant forall n :: n in rest ==>
          && clusters[n].status == old(clusters[n].status)
          && clusters[n].tokens == old(clusters[n].tokens)
          && clusters[n].cancels == old(clusters[n].cancels)
        decreases rest
      {
        var n :| n in rest;
        clusters[n].Stop();
        rest := rest - {n};
      }
    }
  }

  /**
   * With "a" started and "b" stopped, stopping the registry stops both;
   * removing "a" then leaves "b" alone in the registry.
   */
  method StopAllThenRemove(p: Pool, a: Handle, b: Handle)
    requires p.Valid() && p.clusters == map["a" := a, "b" := b]
    requires a.status == Started && b.status == Stopped
    modifies p, a, b
    ensures a.status == Stopped && b.status == Stopped
    ensures p.Valid() && p.Cluster("a") == null && p.Cluster("b") == b
  {
    p.Stop();
    p.Remove("a");
  }
}
