/** Listener, pool and health monitor steps of a reconciling pass. */
module PortSteps {
  import opened Sequences
  import opened CloudModel
  import opened ClusterModel

  predicate MonitorPresent(monitors: seq<Monitor>, poolName: string) {
    exists m | m in monitors :: m.name == poolName + "-hm"
  }

  /** Only listeners, pools and monitors changed, and only by additions under new IDs. */
  ghost predicate PortFrame(c: Cloud, d: Cloud) {
    && PortsGrew(c, d)
    && c.monitors <= d.monitors
    && c.networks == d.networks && c.subnets == d.subnets && c.lbs == d.lbs && c.members == d.members
    && c.fips == d.fips && c.gateways == d.gateways && c.instances == d.instances && c.groups == d.groups
    && c.records == d.records && c.flavors == d.flavors
  }

  /** Under every name and load balancer, each step is one find-or-create. */
  ghost predicate PortsFoundOrCreated(c: Cloud, j: Journal, d: Cloud, k: Journal) {
    && (forall n, l :: FindOrCreate(ListenerTally(c, j, n, l), ListenerTally(d, k, n, l)))
    && (forall n, l :: FindOrCreate(PoolTally(c, j, n, l), PoolTally(d, k, n, l)))
  }

  ghost predicate PortStep(c: Cloud, j: Journal, d: Cloud, k: Journal) {
    && PortFrame(c, d) && Calls(j, k) && PortsFoundOrCreated(c, j, d, k)
    && NewListeners(c.listeners, d.listeners) && NewPools(c.pools, d.pools) && NewMonitors(c.monitors, d.monitors)
    && (ValidListeners(c) && ValidPools(c) ==> ValidListeners(d) && ValidPools(d))
  }

  /** One find-or-create of a listener. */
  ghost predicate ListenerPhase(c: Cloud, j: Journal, d: Cloud, k: Journal) {
    && d == c.(listeners := d.listeners, issued := d.issued) && NewListeners(c.listeners, d.listeners)
    && PortsGrew(c, d) && Calls(j, k)
    && (ValidListeners(c) ==> ValidListeners(d))
    && (forall n, l :: FindOrCreate(ListenerTally(c, j, n, l), ListenerTally(d, k, n, l)))
  }

  ghost predicate PoolPhase(c: Cloud, j: Journal, d: Cloud, k: Journal) {
    && d == c.(pools := d.pools, issued := d.issued) && NewPools(c.pools, d.pools)
    && PortsGrew(c, d) && Calls(j, k)
    && (ValidPools(c) ==> ValidPools(d))
    && (forall n, l :: FindOrCreate(PoolTally(c, j, n, l), PoolTally(d, k, n, l)))
  }

  ghost predicate MonitorPhase(c: Cloud, j: Journal, d: Cloud, k: Journal) {
    && d == c.(monitors := d.monitors, issued := d.issued) && NewMonitors(c.monitors, d.monitors)
    && c.issued <= d.issued && c.monitors <= d.monitors && Calls(j, k)
  }

  /** A listener created when the load balancer had none of its name. */
  lemma ListenerCreated(
    c: Cloud, j: Journal, i: Journal, d: Cloud, k: Journal, name: string, port: int, lbID: string)
    requires d == c.(listeners := d.listeners, issued := d.issued) && c.issued <= d.issued
    requires Grew(c.listeners, d.listeners, i, k) && Reads(j, i) && Writes(i, k)
    requires forall n | |c.listeners| <= n < |d.listeners| ::
               var x := d.listeners[n];
               x.name == name && x.port == port && x.lbIDs == [lbID] && Fresh(x.id, c, d)
    requires First(ListenerKey(name, lbID), c.listeners).None? && PortOf(name, port)
    ensures ListenerPhase(c, j, d, k)
  {
    FirstNone(ListenerKey(name, lbID), c.listeners);
    forall n, l ensures FindOrCreate(ListenerTally(c, j, n, l), ListenerTally(d, k, n, l)) {
      CountGrown(ListenerKey(n, l), c.listeners, d.listeners);
    }
    hide PortOf;
  }

  lemma PoolCreated(
    c: Cloud, j: Journal, i: Journal, d: Cloud, k: Journal, name: string, listenerID: string, lbID: string)
    requires d == c.(pools := d.pools, issued := d.issued) && c.issued <= d.issued
    requires Grew(c.pools, d.pools, i, k) && Reads(j, i) && Writes(i, k)
    requires forall n | |c.pools| <= n < |d.pools| ::
               var x := d.pools[n];
               x.name == name && x.listenerID == listenerID && x.lbID == lbID && Fresh(x.id, c, d)
    requires First(PoolKey(name, lbID), c.pools).None? && name in {API_POOL, REGISTER_POOL}
    ensures PoolPhase(c, j, d, k)
  {
    FirstNone(PoolKey(name, lbID), c.pools);
    forall n, l ensures FindOrCreate(PoolTally(c, j, n, l), PoolTally(d, k, n, l)) {
      CountGrown(PoolKey(n, l), c.pools, d.pools);
    }
  }

  lemma LookupPhases(c: Cloud, j: Journal, k: Journal)
    requires Calls(j, k)
    ensures ListenerPhase(c, j, c, k) && PoolPhase(c, j, c, k)
  {
  }

  lemma ListenerPhaseStep(c: Cloud, j: Journal, d: Cloud, k: Journal)
    requires ListenerPhase(c, j, d, k)
    ensures PortStep(c, j, d, k) && d.pools == c.pools && d.monitors == c.monitors
    ensures ValidPools(c) ==> ValidPools(d)
  {
  }

  lemma PoolPhaseStep(c: Cloud, j: Journal, d: Cloud, k: Journal, e: Cloud, l: Journal)
    requires ListenerPhase(c, j, d, k) && PoolPhase(d, k, e, l)
    ensures PortStep(c, j, e, l) && e.monitors == c.monitors
    ensures PortsGrew(d, e) && j.faults <= k.faults <= l.faults
  {
  }

  lemma MonitorPhaseStep(c: Cloud, j: Journal, d: Cloud, k: Journal, e: Cloud, l: Journal)
    requires PortStep(c, j, d, k) && MonitorPhase(d, k, e, l)
    ensures PortStep(c, j, e, l) && PortsGrew(d, e) && j.faults <= k.faults <= l.faults
  {
  }

  lemma PortStepKept(spec: ClusterSpec, c: Cloud, j: Journal, d: Cloud, k: Journal)
    requires PortStep(c, j, d, k)
    ensures Kept(spec, c, j, d, k)
  {
    forall n, l ensures GrowsBy(ListenerTally(c, j, n, l), ListenerTally(d, k, n, l)) {
      FindOrCreateGrows(ListenerTally(c, j, n, l), ListenerTally(d, k, n, l));
    }
    forall n, l ensures GrowsBy(PoolTally(c, j, n, l), PoolTally(d, k, n, l)) {
      FindOrCreateGrows(PoolTally(c, j, n, l), PoolTally(d, k, n, l));
    }
  }

  lemma PortFrameCompose(c: Cloud, d: Cloud, e: Cloud)
    requires PortFrame(c, d) && PortFrame(d, e)
    ensures PortFrame(c, e)
  {
    forall i | |c.listeners| <= i < |e.listeners| ensures e.listeners[i].id !in c.issued {
      if i < |d.listeners| { assert e.listeners[i] == d.listeners[i]; }
    }
    forall i | |c.pools| <= i < |e.pools| ensures e.pools[i].id !in c.issued {
      if i < |d.pools| { assert e.pools[i] == d.pools[i]; }
    }
  }

  lemma PortFrameMonitors(c: Cloud, d: Cloud, poolName: string)
    requires PortFrame(c, d)
    ensures MonitorPresent(c.monitors, poolName) ==> MonitorPresent(d.monitors, poolName)
  {
  }

  lemma PortStepFacts(c: Cloud, j: Journal, d: Cloud, k: Journal)
    requires PortStep(c, j, d, k)
    ensures PortFrame(c, d) && j.faults <= k.faults && SameLookups(j, k)
  {
  }

  lemma PortFrameFacts(c: Cloud, d: Cloud)
    requires PortFrame(c, d)
    ensures c.lbs == d.lbs && c.fips == d.fips && c.gateways == d.gateways && SameSurroundings(c, d)
    ensures c.issued <= d.issued
  {
  }
}
