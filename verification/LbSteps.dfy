/** The load balancer step of a reconciling pass. */
module LbSteps {
  import opened Sequences
  import opened CloudModel
  import opened Errors
  import opened OvhClient
  import opened DhcpRange
  import opened ClusterModel
  import opened NetworkSteps
  import opened PortSteps
  import opened FipSteps

  datatype LbResult = LbDone | LbWaiting | LbFailed(error: Error)

  /** Creating a load balancer changes only the list of load balancers, and is one find-or-create of its name. */
  lemma LbCreateKept(spec: ClusterSpec, c: Cloud, j: Journal, d: Cloud, k: Journal, name: string, network: string)
    requires d == c.(lbs := d.lbs, issued := d.issued) && c.issued <= d.issued && LbsGrew(c, d, name, network)
    requires Later(j, k) && k.history == j.history
    requires FindOrCreate(LbTally(c, j, name), LbTally(d, k, name)) && name == LbName(spec)
    ensures Kept(spec, c, j, d, k)
  {
    LbCreateBounds(c, j, d, k, name, network);
    NewLbsShowNothing(c, d, name, network);
    hide KeepsBounds, NewLbs, ValidListeners, ValidPools, ValidFips, KnownIDs, RangeOf, PortOf;
  }

  lemma LbCreateBounds(c: Cloud, j: Journal, d: Cloud, k: Journal, name: string, network: string)
    requires d == c.(lbs := d.lbs, issued := d.issued) && LbsGrew(c, d, name, network) && Later(j, k)
    requires FindOrCreate(LbTally(c, j, name), LbTally(d, k, name))
    ensures KeepsBounds(c, j, d, k)
  {
    forall n ensures GrowsBy(LbTally(c, j, n), LbTally(d, k, n)) {
      if n == name {
        FindOrCreateGrows(LbTally(c, j, n), LbTally(d, k, n));
      } else {
        CountPointwise(LbNamed(n), c.lbs, d.lbs[..|c.lbs|]);
        CountGrown(LbNamed(n), d.lbs[..|c.lbs|], d.lbs);
      }
    }
  }

  lemma NewLbsShowNothing(c: Cloud, d: Cloud, name: string, network: string)
    requires LbsGrew(c, d, name, network)
    ensures (forall l | l in c.lbs :: l.id != "") ==> forall l | l in d.lbs :: l.id != ""
    ensures NewLbs(name, c.lbs, d.lbs)
    ensures KnownIDs(c) && c.gateways == d.gateways && c.issued <= d.issued ==> KnownIDs(d)
  {
    forall l | l in d.lbs
      ensures (forall m | m in c.lbs :: m.id != "") ==> l.id != ""
      ensures KnownIDs(c) && c.issued <= d.issued && l.fip.Some? ==>
                l.fip.value.id != "" && l.fip.value.id in d.issued
    {
      OldOrPlain(c, d, name, network, l);
    }
    hide LbsGrew;
  }

  /** A load balancer has the ID and the floating IP it had before, or is new and shows none. */
  lemma OldOrPlain(c: Cloud, d: Cloud, name: string, network: string, l: LoadBalancer)
    requires LbsGrew(c, d, name, network) && l in d.lbs
    ensures (l.id != "" && l.fip.None?) || exists m | m in c.lbs :: m.id == l.id && m.fip == l.fip
  {
    var i :| 0 <= i < |d.lbs| && d.lbs[i] == l;
    if i < |c.lbs| { assert c.lbs[i] in c.lbs; }
  }

  /** Both ports have their listener, pool and health monitor. */
  predicate PortsSettled(
    monitors: seq<Monitor>, listener: string, pool: string, registerListener: string, registerPool: string)
  {
    && listener != "" && pool != "" && registerListener != "" && registerPool != ""
    && MonitorPresent(monitors, API_POOL) && MonitorPresent(monitors, REGISTER_POOL)
  }

  /**
   * The endpoint host is set, unless only an empty virtual IP is on offer; with a floating network its address is
   * known.
   */
  predicate EndpointSettled(
    spec: ClusterSpec, lbs: seq<LoadBalancer>, fips: seq<FloatingIP>, lbID: string, fipID: string, host: string)
  {
    && (spec.floatingNetworkID != "" ==> FipSettled(lbs, fips, lbID, fipID) && host != "")
    && (spec.floatingNetworkID == "" ==>
          host != "" || (First(LbWithId(lbID), lbs).Some? && First(LbWithId(lbID), lbs).value.vip == ""))
  }

  /** Nothing is left for the load balancer step to do, but possibly to expose the gateway. */
  predicate LbSettled(spec: ClusterSpec, c: Cloud, s: ClusterStatus) {
    && s.lbID != "" && LbActive(c.lbs, s.lbID)
    && PortsSettled(c.monitors, s.listenerID, s.poolID, s.registerListenerID, s.registerPoolID)
    && EndpointSettled(spec, c.lbs, c.fips, s.lbID, s.fipID, s.host)
  }

  /** What creating the load balancer asks of the network, the subnet and the flavor list. */
  predicate CreationReady(spec: ClusterSpec, c: Cloud, networkID: string, subnetID: string) {
    && (if spec.lbFlavor == "" then "small" else spec.lbFlavor) in c.flavors
    && (spec.lbSubnetID != "" || subnetID != "")
    && networkID != "" && NetworkExists(c.networks, networkID)
    && OpenStackIDIn(First(NetworkWithId(networkID), c.networks).value.regions, spec.region) != ""
  }

  predicate LbShown(lbs: seq<LoadBalancer>, id: string) {
    id != "" && First(LbWithId(id), lbs).Some?
  }

  /**
   * Whatever fails: a load balancer is created only with flavor, subnet and network at hand, and the pass waits only
   * for one that is there.
   */
  predicate LbInPlace(spec: ClusterSpec, c: Cloud, d: Cloud, t: ClusterStatus, waiting: bool) {
    && (|d.lbs| != |c.lbs| ==> CreationReady(spec, d, t.networkID, t.subnetID))
    && (waiting ==> LbShown(d.lbs, t.lbID))
  }

  /** New load balancers are on the recorded network, under the ID that the service holding load balancers knows. */
  predicate NewLbsOn(spec: ClusterSpec, c: Cloud, d: Cloud, networkID: string) {
    forall i | |c.lbs| <= i < |d.lbs| ::
      && NetworkExists(d.networks, networkID)
      && d.lbs[i].network == OpenStackIDIn(First(NetworkWithId(networkID), d.networks).value.regions, spec.region)
  }

  /** The create call was made with everything at hand. */
  lemma CreatedInPlace(
    spec: ClusterSpec, c: Cloud, d: Cloud, t: ClusterStatus, network: string, waiting: bool)
    requires d == c.(lbs := d.lbs, issued := d.issued) && LbsGrew(c, d, LbName(spec), network)
    requires CreationReady(spec, c, t.networkID, t.subnetID)
    requires network == OpenStackIDIn(First(NetworkWithId(t.networkID), c.networks).value.regions, spec.region)
    requires waiting ==> LbShown(d.lbs, t.lbID)
    ensures LbInPlace(spec, c, d, t, waiting) && NewLbsOn(spec, c, d, t.networkID)
  {
    hide LbName, LbShown;
  }

  lemma ListedIsShown(c: Cloud, name: string, lb: LoadBalancer)
    requires ValidCloud(c) && First(ListedNamed(name), c.lbs) == Some(lb)
    ensures LbShown(c.lbs, lb.id)
  {
    hide ValidListeners, ValidPools, ValidFips, KnownIDs;
  }

  /** Where the endpoint host of a finished step comes from. */
  predicate EndpointChosen(spec: ClusterSpec, c: Cloud, lbID: string, fipID: string, before: string, host: string) {
    if before != "" then host == before
    else if spec.floatingNetworkID != "" then host != "" && RecordedAddress(c.lbs, c.fips, lbID, fipID, host)
    else First(LbWithId(lbID), c.lbs).Some? && host == First(LbWithId(lbID), c.lbs).value.vip
  }

  /**
   * What a fault-free load balancer step achieves once the load balancer is recorded: everything,
   * or it waits for the load balancer to become active, for its virtual IP, or for a floating IP's address;
   * `inUse` is the floating IP that was in use and `before` the list of them when the step began.
   */
  predicate LbProgress(
    spec: ClusterSpec, inUse: string, before: seq<FloatingIP>, c: Cloud, s: ClusterStatus, r: LbResult)
  {
    match r
    case LbDone =>
      && LbSettled(spec, c, s)
      && (spec.floatingNetworkID != "" ==>
            ExposureSettled(c.gateways, s.gatewayID, s.gatewayExposed, GatewayName(spec)))
    case LbWaiting =>
      || !LbActive(c.lbs, s.lbID)
      || (spec.floatingNetworkID != "" &&
            (First(LbWithId(s.lbID), c.lbs).value.vip == "" || AddressAwaited(inUse, before, c.fips, s.lbID, s.fipID)))
    case LbFailed(_) => false
  }

  /** A load balancer of this ID carries the cluster's load balancer name. */
  predicate LbOfCluster(spec: ClusterSpec, lbs: seq<LoadBalancer>, id: string) {
    exists l | l in lbs :: l.id == id && l.name == LbName(spec)
  }

  /** A recorded load balancer was in use before, or carries the cluster's name. */
  predicate LbSource(spec: ClusterSpec, lbs: seq<LoadBalancer>, before: string, lbID: string) {
    lbID in {"", LbInUse(spec, before)} || LbOfCluster(spec, lbs, lbID)
  }

  /** A recorded floating IP was in use before, or was read from a record of the load balancer's. */
  predicate FipSource(spec: ClusterSpec, c: Cloud, before: string, lbID: string, fipID: string) {
    fipID in {"", FipInUse(spec, before)} || RecordedFip(c.lbs, c.fips, lbID, fipID)
  }

  /**
   * What a fault-free creation achieves: the load balancer carrying the cluster's name is recorded,
   * or, if everything it needs is there, one exists that the list does not show yet.
   */
  predicate LbCreated(
    spec: ClusterSpec, before: seq<LoadBalancer>, d: Cloud, networkID: string, subnetID: string, lbID: string,
    r: LbResult)
  {
    match r
    case LbDone => false
    case LbWaiting =>
      && First(ListedNamed(LbName(spec)), d.lbs).Some?
      && First(ListedNamed(LbName(spec)), d.lbs).value.id == lbID != ""
    case LbFailed(_) =>
      && lbID == ""
      && (CreationReady(spec, d, networkID, subnetID) ==>
            && First(ListedNamed(LbName(spec)), before).None?
            && exists l | l in d.lbs :: l.name == LbName(spec))
  }

  /** A pass looks load balancers up at most once before a POST, and only then can a lookup fail or be misled. */
  predicate LookupStep(spec: ClusterSpec, lbs: seq<LoadBalancer>, j: Journal, k: Journal) {
    && j.failedLookups <= k.failedLookups <= j.failedLookups + 1
    && HidesOnly(lbs, LbName(spec), j.hiddenLookups, k.hiddenLookups)
  }

  /** A prerequisite is missing, or a call for it failed. */
  lemma NotCreated(spec: ClusterSpec, c: Cloud, j: Journal, k: Journal, networkID: string, subnetID: string)
    requires Calls(j, k)
    ensures Kept(spec, c, j, c, k) && LookupStep(spec, c.lbs, j, k)
    ensures NewLbsOn(spec, c, c, networkID) && forall t :: LbInPlace(spec, c, c, t, false)
    ensures !CreationReady(spec, c, networkID, subnetID) ==>
              forall e :: LbCreated(spec, c.lbs, c, networkID, subnetID, "", LbFailed(e))
  {
    ReadKept(spec, c, j, k);
    NoLookups(spec, c.lbs, j, k);
    hide Kept, LookupStep, CreationReady, LbName;
  }

  /** The create call was made. */
  lemma CreatedKept(
    spec: ClusterSpec, c: Cloud, j: Journal, k: Journal, d: Cloud, l: Journal, networkID: string, subnetID: string,
    network: string, lb: Result<LoadBalancer>)
    requires Calls(j, k) && d == c.(lbs := d.lbs, issued := d.issued) && c.issued <= d.issued
    requires LbsGrew(c, d, LbName(spec), network)
    requires Later(k, l) && l.history == k.history
    requires l.failedLookups <= k.failedLookups + 1
    requires HidesOnly(c.lbs, LbName(spec), k.hiddenLookups, l.hiddenLookups)
    requires FindOrCreate(LbTally(c, k, LbName(spec)), LbTally(d, l, LbName(spec)))
    requires lb.Ok? ==> First(ListedNamed(LbName(spec)), d.lbs) == Some(lb.value)
    requires Clean(k, l) && First(ListedNamed(LbName(spec)), c.lbs).Some? ==> lb.Ok?
    requires Clean(k, l) && lb.Err? ==> exists x | x in d.lbs :: x.name == LbName(spec)
    ensures Kept(spec, c, j, d, l) && LookupStep(spec, c.lbs, j, l) && j.faults <= k.faults <= l.faults
    ensures lb.Ok? ==> LbOfCluster(spec, d.lbs, lb.value.id)
    ensures ValidCloud(c) && lb.Ok? ==> LbShown(d.lbs, lb.value.id)
    ensures ValidCloud(c) && Clean(k, l) ==>
              if lb.Ok? then LbCreated(spec, c.lbs, d, networkID, subnetID, lb.value.id, LbWaiting)
              else forall e :: LbCreated(spec, c.lbs, d, networkID, subnetID, "", LbFailed(e))
  {
    hide Kept, LbsGrew, CreationReady, LbName, LbTally, ValidCloud, FindOrCreate, PortsGrew, LbShown;
    LbCreateKept(spec, c, k, d, l, LbName(spec), network);
    ReadKept(spec, c, j, k);
    KeptCompose(spec, c, j, c, k, d, l);
    KeptFacts(spec, c, k, d, l);
    if lb.Ok? && ValidCloud(c) {
      ListedIsShown(d, LbName(spec), lb.value);
    }
  }

  /** Where everything that a step records comes from, whatever fails; and what a clean one says of the gateway. */
  ghost predicate RecordSources(
    spec: ClusterSpec, j: Journal, k: Journal, c: Cloud, s: ClusterStatus, d: Cloud, t: ClusterStatus)
  {
    && (Homes(c, s.lbID, s.listenerID, s.poolID) ==> Homes(d, t.lbID, t.listenerID, t.poolID))
    && ApiSource(d, s.lbID, s.listenerID, s.poolID, t.lbID, t.listenerID, t.poolID)
    && PairSource(d, REGISTER_LISTENER, t.lbID, s.registerListenerID, s.registerPoolID,
                  t.registerListenerID, t.registerPoolID)
    && FipSource(spec, d, s.fipID, t.lbID, t.fipID) && LbSource(spec, d.lbs, s.lbID, t.lbID)
    && GatewayTracked(GatewayName(spec), j, k, c.issued, c.gateways, s.gatewayID, s.gatewayExposed,
                      d.gateways, t.gatewayID, t.gatewayExposed)
  }

  /** The API listener's port comes first, and the register pair is not touched yet. */
  lemma FirstPortKept(
    spec: ClusterSpec, c: Cloud, j: Journal, d: Cloud, k: Journal, lbID: string, listenerID: string, poolID: string)
    requires PortStep(c, j, d, k)
    ensures Kept(spec, c, j, d, k) && PortFrame(c, d) && j.faults <= k.faults && SameLookups(j, k)
    ensures c.lbs == d.lbs && c.fips == d.fips
    ensures ValidCloud(c) ==> ValidCloud(d) && ValidListeners(d) && ValidPools(d)
    ensures PairSource(d, REGISTER_LISTENER, lbID, listenerID, poolID, listenerID, poolID)
  {
    PortStepKept(spec, c, j, d, k);
    PortStepFacts(c, j, d, k);
    KeptFacts(spec, c, j, d, k);
    hide PortStep, Kept, ValidCloud, ListenerFound, PoolFound;
  }

  /** The register port comes second. */
  lemma BothPortsKept(
    spec: ClusterSpec, c: Cloud, j: Journal, d: Cloud, k: Journal, e: Cloud, l: Journal, lbID: string,
    listenerBefore: string, poolBefore: string, listenerID: string, poolID: string)
    requires PortStep(c, j, d, k) && PortStep(d, k, e, l)
    requires PairSource(d, API_LISTENER, lbID, listenerBefore, poolBefore, listenerID, poolID)
    ensures Kept(spec, c, j, e, l) && PortFrame(c, e) && j.faults <= k.faults <= l.faults && SameLookups(j, l)
    ensures c.lbs == e.lbs && c.fips == e.fips
    ensures ValidCloud(c) ==> ValidCloud(e)
    ensures PairSource(e, API_LISTENER, lbID, listenerBefore, poolBefore, listenerID, poolID)
    ensures MonitorPresent(d.monitors, API_POOL) ==> MonitorPresent(e.monitors, API_POOL)
  {
    FirstPortKept(spec, c, j, d, k, lbID, listenerID, poolID);
    FirstPortKept(spec, d, k, e, l, lbID, listenerID, poolID);
    KeptCompose(spec, c, j, d, k, e, l);
    KeptFacts(spec, d, k, e, l);
    PortFrameCompose(c, d, e);
    PortFrameMonitors(d, e, API_POOL);
    PairSourceKept(d, e, API_LISTENER, lbID, listenerBefore, poolBefore, listenerID, poolID);
    hide PortStep, Kept, ValidCloud, PortFrame, PairSource, PortsGrew, MonitorPresent;
  }

  /** Waiting touches nothing. */
  lemma LbUntouched(spec: ClusterSpec, c: Cloud, j: Journal, s: ClusterStatus)
    ensures Kept(spec, c, j, c, j)
    ensures forall a, b ::
              GatewayTracked(GatewayName(spec), a, b, c.issued, c.gateways, s.gatewayID, s.gatewayExposed,
                             c.gateways, s.gatewayID, s.gatewayExposed)
    ensures forall id ::
              PairSource(c, REGISTER_LISTENER, id, s.registerListenerID, s.registerPoolID, s.registerListenerID,
                         s.registerPoolID)
    ensures forall id :: PairSource(c, API_LISTENER, id, s.listenerID, s.poolID, s.listenerID, s.poolID)
  {
    KeptReflexive(spec, c, j);
    FipUntouched(GatewayName(spec), c, j, s.gatewayID, s.gatewayExposed);
    hide Kept, FipStep, ListenerFound, PoolFound, GatewayTracked;
  }

  lemma NoLookups(spec: ClusterSpec, lbs: seq<LoadBalancer>, j: Journal, k: Journal)
    requires SameLookups(j, k)
    ensures LookupStep(spec, lbs, j, k)
  {
  }

  /** Looking the recorded load balancer up changes nothing; one that is active or settled is found. */
  lemma LbLookedUp(spec: ClusterSpec, c: Cloud, j: Journal, k: Journal, s: ClusterStatus)
    requires Calls(j, k)
    ensures Kept(spec, c, j, c, k) && LookupStep(spec, c.lbs, j, k) && j.faults <= k.faults && SameSurroundings(c, c)
    ensures forall a, b ::
              GatewayTracked(GatewayName(spec), a, b, c.issued, c.gateways, s.gatewayID, s.gatewayExposed,
                             c.gateways, s.gatewayID, s.gatewayExposed)
    ensures forall id ::
              PairSource(c, REGISTER_LISTENER, id, s.registerListenerID, s.registerPoolID, s.registerListenerID,
                         s.registerPoolID)
    ensures forall id :: PairSource(c, API_LISTENER, id, s.listenerID, s.poolID, s.listenerID, s.poolID)
    ensures LbSettled(spec, c, s) ==> s.lbID != "" && First(LbWithId(s.lbID), c.lbs).Some?
    ensures forall id | LbActive(c.lbs, id) :: First(LbWithId(id), c.lbs).Some?
  {
    ReadKept(spec, c, j, k);
    LbUntouched(spec, c, j, s);
    hide Kept, GatewayTracked, PairSource, LookupStep;
    NoLookups(spec, c.lbs, j, k);
  }

  /** A step that changes load balancers only. */
  lemma NewLbOnly(
    spec: ClusterSpec, c: Cloud, j: Journal, d: Cloud, k: Journal, s: ClusterStatus,
    lbID: string, listenerID: string, poolID: string)
    requires Kept(spec, c, j, d, k) && d == c.(lbs := d.lbs, issued := d.issued)
    ensures SameSurroundings(c, d)
    ensures Homes(c, "", listenerID, poolID) ==> Homes(d, lbID, listenerID, poolID)
    ensures forall id ::
              PairSource(d, REGISTER_LISTENER, id, s.registerListenerID, s.registerPoolID, s.registerListenerID,
                         s.registerPoolID)
    ensures forall id :: PairSource(d, API_LISTENER, id, s.listenerID, s.poolID, s.listenerID, s.poolID)
    ensures forall a, b ::
              GatewayTracked(GatewayName(spec), a, b, c.issued, c.gateways, s.gatewayID, s.gatewayExposed,
                             d.gateways, s.gatewayID, s.gatewayExposed)
  {
    HomesKeptIn(spec, c, j, d, k, lbID, listenerID, poolID);
    LbUntouched(spec, d, k, s);
    LbUntouched(spec, c, k, s);
    hide Kept, GatewayTracked, PairSource, Homes;
  }

  lemma LookedUpThen(
    spec: ClusterSpec, c: Cloud, j: Journal, k: Journal, d: Cloud, l: Journal, s: ClusterStatus, gatewayID: string,
    exposed: bool)
    requires Calls(j, k) && Kept(spec, c, k, d, l)
    requires GatewayTracked(GatewayName(spec), k, l, c.issued, c.gateways, s.gatewayID, s.gatewayExposed,
                            d.gateways, gatewayID, exposed)
    ensures Kept(spec, c, j, d, l) && k.faults <= l.faults
    ensures LookupStep(spec, c.lbs, k, l) ==> LookupStep(spec, c.lbs, j, l)
    ensures GatewayTracked(GatewayName(spec), j, l, c.issued, c.gateways, s.gatewayID, s.gatewayExposed,
                           d.gateways, gatewayID, exposed)
  {
    ReadKept(spec, c, j, k);
    KeptCompose(spec, c, j, c, k, d, l);
    KeptFacts(spec, c, k, d, l);
    SeenLonger(j.answers, k.answers, l.answers, l.answers, Request.ExposeGateway(gatewayID));
    hide Kept, GatewayGone, GatewayAt, ExposedAt, AcceptedSince;
  }
}
