/** Where the reconcilers promise less than one might expect: exactly when, and an input. */
module Limits {
  import opened Sequences
  import opened CloudModel
  import opened OvhClient
  import opened ClusterModel
  import opened NetworkSteps
  import opened FipSteps
  import opened LbSteps
  import opened ClusterPass
  import opened Runs

  // ----- the register pair of a vanished load balancer

  /** A recorded register listener and pool, of one load balancer each. */
  predicate RegisterPair(c: Cloud, s: ClusterStatus, x: Listener, p: Pool) {
    && x in c.listeners && x.id == s.registerListenerID != "" && |x.lbIDs| == 1
    && p in c.pools && p.id == s.registerPoolID != ""
  }

  predicate PairAtHome(lbID: string, x: Listener, p: Pool) {
    lbID in x.lbIDs && p.lbID == lbID
  }

  /** With the finalizer set and the network settled, a fault-free pass gets to the load balancer. */
  lemma ReachesLb(
    spec: ClusterSpec, c: Cloud, j: Journal, s: ClusterStatus, d: Cloud, k: Journal, t: ClusterStatus, out: PassOutcome)
    requires NormalPass(spec, c, j, s, d, k, t, out) && Clean(j, k)
    requires s.finalizer && NetworkSettled(spec, c, s.networkID, s.subnetID)
    ensures CleanLbStep(spec, c, s, d, t, LbResultOf(out))
  {
    hide Kept, RecordSources, LbReady, OwnsNetwork, StatusKept, NetworksStep, LookupStep,
         CleanLbStep, LaterSettled, ExposureLeft, SubnetSettled;
  }

  /** A load balancer recorded in place of one that is gone has another ID. */
  lemma NewLbDiffers(spec: ClusterSpec, c: Cloud, s: ClusterStatus, d: Cloud, t: ClusterStatus, r: LbResult)
    requires Grown(c, d) && s.lbID in c.issued && First(LbWithId(s.lbID), c.lbs).None?
    requires LbCreated(spec, c.lbs, d, t.networkID, t.subnetID, t.lbID, r) && s.lbID != ""
    ensures t.lbID != s.lbID
  {
    hide LbName, CreationReady, PortsGrew;
    if r.LbWaiting? {
      var l := First(ListedNamed(LbName(spec)), d.lbs).value;
      var i :| 0 <= i < |d.lbs| && d.lbs[i] == l;
      if i < |c.lbs| {
        assert !LbWithId(s.lbID)(c.lbs[i]);
      }
    }
  }

  /**
   * A pass keeps a recorded register pair whatever happens. A pair that is at home stays at home in a
   * fault-free pass exactly when the recorded load balancer exists as the pass begins: a vanished one is
   * forgotten with the API listener and pool only.
   */
  lemma RegisterPairHome(
    spec: ClusterSpec, c: Cloud, j: Journal, s: ClusterStatus, d: Cloud, k: Journal, t: ClusterStatus, out: PassOutcome,
    x: Listener, p: Pool)
    requires NormalPass(spec, c, j, s, d, k, t, out) && Clean(j, k)
    requires s.finalizer && NetworkSettled(spec, c, s.networkID, s.subnetID)
    requires RegisterPair(c, s, x, p) && PairAtHome(s.lbID, x, p) && s.lbID != "" && s.lbID in c.issued
    ensures RegisterPair(d, t, x, p)
    ensures PairAtHome(t.lbID, x, p) <==> First(LbWithId(s.lbID), c.lbs).Some?
  {
    hide NormalPass, NetworkSettled, LbProgress, FipAvailable, LbCreated, Grown, RegisterPair;
    ReachesLb(spec, c, j, s, d, k, t, out);
    PairKept(spec, c, j, s, d, k, t, out, x, p);
    LoneHome(c, s, x, p);
    if First(LbWithId(s.lbID), c.lbs).None? {
      NewLbDiffers(spec, c, s, d, t, LbResultOf(out));
    }
  }

  lemma LoneHome(c: Cloud, s: ClusterStatus, x: Listener, p: Pool)
    requires RegisterPair(c, s, x, p) && PairAtHome(s.lbID, x, p)
    ensures x.lbIDs == [s.lbID]
  {
    assert s.lbID in x.lbIDs;
  }

  lemma PairKept(
    spec: ClusterSpec, c: Cloud, j: Journal, s: ClusterStatus, d: Cloud, k: Journal, t: ClusterStatus, out: PassOutcome,
    x: Listener, p: Pool)
    requires NormalPass(spec, c, j, s, d, k, t, out) && RegisterPair(c, s, x, p)
    ensures RegisterPair(d, t, x, p) && Grown(c, d)
  {
    hide Homes, CleanPass, Settled, LbReady, FipSource, OwnsNetwork, StatusKept, NetworksStep, LookupStep, KeepsBounds,
         Named, ValidCloud, HistoryKept;
  }

  const STALE := ClusterSpec("c", "r", Some(NetworkConfig("net", "")), "", "", "", "", "", [], false, false)
  const STALE_LISTENER := Listener("listener", REGISTER_LISTENER, REGISTER_PORT, ["lb"])
  const STALE_POOL := Pool("pool", REGISTER_POOL, "listener", "lb")
  const NEW_LB := LoadBalancer("lb2", LbName(STALE), "active", "10.0.0.5", "os", None, true, false)
  const REPLACED := Cloud(
    [Network("net", "net", [NetworkRegion("r", "ACTIVE", "os")])], [Subnet("sub", "net", "10.0.0.0/24", "", "")],
    [NEW_LB], [STALE_LISTENER], [STALE_POOL], [], [], [], [], [], [], 0, {"small"},
    {"net", "sub", "lb", "lb2", "listener", "pool"})
  const WITH_PAIR := EMPTY_STATUS.(
    finalizer := true, networkID := "net", subnetID := "sub", lbID := "lb", registerListenerID := "listener",
    registerPoolID := "pool")

  /**
   * An input: network and subnet are settled, the recorded load balancer is gone and another of the cluster's name
   * listed. A fault-free pass records that one, and still the register pair of the one that is gone.
   */
  lemma RegisterPairStale(j: Journal, d: Cloud, k: Journal, t: ClusterStatus, out: PassOutcome)
    requires NormalPass(STALE, REPLACED, j, WITH_PAIR, d, k, t, out) && Clean(j, k)
    ensures t.lbID == "lb2" && t.registerListenerID == "listener" && t.registerPoolID == "pool"
    ensures !PairAtHome(t.lbID, STALE_LISTENER, STALE_POOL)
  {
    StaleSettled();
    hide LbName;
    ReachesLb(STALE, REPLACED, j, WITH_PAIR, d, k, t, out);
    PairKept(STALE, REPLACED, j, WITH_PAIR, d, k, t, out, STALE_LISTENER, STALE_POOL);
    ListedFirst(REPLACED, d);
    hide NormalPass;
  }

  lemma StaleSettled()
    ensures NetworkSettled(STALE, REPLACED, "net", "sub")
    ensures First(LbWithId("lb"), REPLACED.lbs).None?
    ensures CreationReady(STALE, REPLACED, "net", "sub")
  {
    hide LbName;
    assert REPLACED.networks[1..] == [] && REPLACED.lbs[1..] == [];
  }

  /** A listed load balancer at the head of the list stays the first of its name. */
  lemma ListedFirst(c: Cloud, d: Cloud)
    requires Grown(c, d) && c.lbs == [NEW_LB]
    ensures First(ListedNamed(LbName(STALE)), c.lbs) == Some(NEW_LB)
    ensures First(ListedNamed(LbName(STALE)), d.lbs).Some?
    ensures First(ListedNamed(LbName(STALE)), d.lbs).value.id == "lb2"
  {
    hide LbName, PortsGrew;
    assert d.lbs[0] == c.lbs[0].(listed := d.lbs[0].listed, fip := d.lbs[0].fip);
  }

  // ----- a recorded listener or pool is not looked up again

  predicate IssuedOrNone(issued: set<string>, listenerID: string, poolID: string) {
    (listenerID == "" || listenerID in issued) && (poolID == "" || poolID in issued)
  }

  /**
   * A pass that ends Ready, whatever failed, leaves a listener under the recorded ID on the load balancer exactly when
   * none was recorded or the recorded one was there as the pass began; and so with each pool and the register pair.
   */
  lemma ReadyPorts(
    spec: ClusterSpec, c: Cloud, j: Journal, s: ClusterStatus, d: Cloud, k: Journal, t: ClusterStatus)
    requires NormalPass(spec, c, j, s, d, k, t, PassReady)
    requires IssuedOrNone(c.issued, s.listenerID, s.poolID)
    requires IssuedOrNone(c.issued, s.registerListenerID, s.registerPoolID)
    ensures t.lbID == LbInUse(spec, s.lbID)
    ensures ListenerAt(d.listeners, t.listenerID, API_LISTENER, t.lbID) <==>
              s.listenerID == "" || ListenerAt(c.listeners, s.listenerID, API_LISTENER, t.lbID)
    ensures PoolAt(d.pools, t.poolID, API_POOL, t.lbID) <==>
              s.poolID == "" || PoolAt(c.pools, s.poolID, API_POOL, t.lbID)
    ensures ListenerAt(d.listeners, t.registerListenerID, REGISTER_LISTENER, t.lbID) <==>
              s.registerListenerID == "" ||
              ListenerAt(c.listeners, s.registerListenerID, REGISTER_LISTENER, t.lbID)
    ensures PoolAt(d.pools, t.registerPoolID, REGISTER_POOL, t.lbID) <==>
              s.registerPoolID == "" || PoolAt(c.pools, s.registerPoolID, REGISTER_POOL, t.lbID)
  {
    ReadyPairs(spec, c, j, s, d, k, t);
    hide NormalPass, PortsGrew, ListenerAt, PoolAt, ListenerOn, PoolOn;
    forall id, name | id in c.issued
      ensures ListenerAt(d.listeners, id, name, t.lbID) <==> ListenerAt(c.listeners, id, name, t.lbID)
      ensures PoolAt(d.pools, id, name, t.lbID) <==> PoolAt(c.pools, id, name, t.lbID)
    {
      OldPorts(c, d, id, name, t.lbID);
    }
  }

  lemma ReadyPairs(
    spec: ClusterSpec, c: Cloud, j: Journal, s: ClusterStatus, d: Cloud, k: Journal, t: ClusterStatus)
    requires NormalPass(spec, c, j, s, d, k, t, PassReady)
    ensures PortsGrew(c, d) && t.lbID == LbInUse(spec, s.lbID)
    ensures PairSource(d, API_LISTENER, t.lbID, s.listenerID, s.poolID, t.listenerID, t.poolID)
    ensures PairSource(d, REGISTER_LISTENER, t.lbID, s.registerListenerID, s.registerPoolID,
                       t.registerListenerID, t.registerPoolID)
    ensures t.listenerID != "" && t.poolID != "" && t.registerListenerID != "" && t.registerPoolID != ""
  {
    KeptFacts(spec, c, j, d, k);
    hide Kept, CleanPass, Settled, OwnsNetwork, NetworksStep, SubnetStep, StatusKept, PairSource, PortsGrew;
  }

  /** What is new has a new ID. */
  lemma OldPorts(c: Cloud, d: Cloud, id: string, name: string, lbID: string)
    requires PortsGrew(c, d) && id in c.issued
    ensures ListenerAt(d.listeners, id, name, lbID) <==> ListenerAt(c.listeners, id, name, lbID)
    ensures PoolAt(d.pools, id, name, lbID) <==> PoolAt(c.pools, id, name, lbID)
  {
    if ListenerAt(d.listeners, id, name, lbID) {
      var x :| x in d.listeners && x.id == id && x.name == name && lbID in x.lbIDs;
      var i :| 0 <= i < |d.listeners| && d.listeners[i] == x;
      assert x == c.listeners[i];
    }
    if PoolAt(d.pools, id, name, lbID) {
      var x :| x in d.pools && x.id == id && x.name == name && x.lbID == lbID;
      var i :| 0 <= i < |d.pools| && d.pools[i] == x;
      assert x == c.pools[i];
    }
  }

  /** A listener of this ID and name on the load balancer that was there before, or is on the port. */
  predicate ListenerOnPort(
    before: seq<Listener>, after: seq<Listener>, id: string, name: string, port: int, lbID: string)
  {
    exists x | x in after :: x.id == id && x.name == name && lbID in x.lbIDs && (x in before || x.port == port)
  }

  /** The port of a listener that is adopted by its name is not looked at; one that is made has the right port. */
  lemma ReadyPortNumbers(
    spec: ClusterSpec, c: Cloud, j: Journal, s: ClusterStatus, d: Cloud, k: Journal, t: ClusterStatus)
    requires NormalPass(spec, c, j, s, d, k, t, PassReady)
    ensures s.listenerID == "" ==> ListenerOnPort(c.listeners, d.listeners, t.listenerID, "api-server", 6443, t.lbID)
    ensures s.registerListenerID == "" ==>
              ListenerOnPort(c.listeners, d.listeners, t.registerListenerID, "rke2-register", 9345, t.lbID)
  {
    ReadyPairs(spec, c, j, s, d, k, t);
    assert NewListeners(c.listeners, d.listeners) by {
      hide Homes, PairSource, RecordSources, CleanPass, Settled, LbReady, KeepsBounds;
    }
    hide NormalPass, ListenerOn, PoolAt, PoolOn;
    forall x | x in d.listeners && x !in c.listeners ensures PortOf(x.name, x.port) {
      var i :| 0 <= i < |d.listeners| && d.listeners[i] == x;
      assert i < |c.listeners| ==> x == c.listeners[i];
    }
  }

  // ----- private networks are not found by name

  /** A fault-free pass past the finalizer leaves the networks alone exactly when none is needed; else it adds one. */
  lemma NetworkPerPass(
    spec: ClusterSpec, c: Cloud, j: Journal, s: ClusterStatus, d: Cloud, k: Journal, t: ClusterStatus, out: PassOutcome)
    requires NormalPass(spec, c, j, s, d, k, t, out) && Clean(j, k) && s.finalizer
    ensures d.networks == c.networks <==> spec.network.None? || s.networkID != "" || NamesNetwork(spec)
    ensures d.networks != c.networks ==> NetworkAdded(spec, c, d, t.networkID)
  {
    hide Kept, RecordSources, CleanPass, Settled, LbReady, OwnsNetwork, StatusKept, LookupStep, SubnetStep;
  }

  /** Fault-free passes one after the other, each of whose status patches is lost. */
  ghost predicate PatchesLost(spec: ClusterSpec, run: seq<World>, steps: seq<Step>) {
    && Run(spec, run, steps)
    && forall i | 0 <= i < |steps| ::
         steps[i].ClusterPass? && !steps[i].persisted && Clean(run[i].j, run[i + 1].j)
  }

  function NetworkNamed(name: string): Network -> bool {
    (x: Network) => x.name == name
  }

  /**
   * If the cluster needs a network and the patch that records it keeps being lost, every pass makes another
   * one of the same name: there is no bound on them.
   */
  lemma {:induction false} NetworksDuplicated(spec: ClusterSpec, run: seq<World>, steps: seq<Step>, i: nat)
    requires PatchesLost(spec, run, steps) && i < |run|
    requires run[0].s.finalizer && NeedsNetwork(spec, run[0].s.networkID)
    ensures run[i].s == run[0].s
    ensures Count(NetworkNamed(NetworkName(spec)), run[i].c.networks) ==
            Count(NetworkNamed(NetworkName(spec)), run[0].c.networks) + i
  {
    if i > 0 {
      NetworksDuplicated(spec, run, steps, i - 1);
      LostPassAdds(spec, run[i - 1], steps[i - 1], run[i]);
    }
  }

  lemma LostPassAdds(spec: ClusterSpec, w: World, step: Step, v: World)
    requires Next(spec, w, step, v) && step.ClusterPass? && !step.persisted && Clean(w.j, v.j)
    requires w.s.finalizer && NeedsNetwork(spec, w.s.networkID)
    ensures v.s == w.s
    ensures Count(NetworkNamed(NetworkName(spec)), v.c.networks) ==
            Count(NetworkNamed(NetworkName(spec)), w.c.networks) + 1
  {
    NetworkPerPass(spec, w.c, w.j, w.s, v.c, v.j, step.t, step.passed);
    hide NormalPass, NetworkName;
    CountGrown(NetworkNamed(NetworkName(spec)), w.c.networks, v.c.networks);
  }
}
