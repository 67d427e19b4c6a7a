/** The OVHCluster object as values, and what every step of a reconciling pass keeps. */
module ClusterModel {
  import opened Sequences
  import opened CloudModel
  import opened Names
  import opened OvhClient
  import opened DhcpRange

  datatype NetworkConfig = NetworkConfig(privateNetworkID: string, subnetCIDR: string)

  datatype ClusterSpec = ClusterSpec(
    clusterName: string, region: string, network: Option<NetworkConfig>,
    lbSubnetID: string, lbFlavor: string, floatingNetworkID: string,
    existingLB: string, existingFip: string,
    groups: seq<string>, dns: bool, keep: bool)

  /** Everything one patch persists: the status, the finalizer and the endpoint host. */
  datatype ClusterStatus = ClusterStatus(
    finalizer: bool, host: string, ready: bool, provisioned: bool, networkCreated: bool,
    networkID: string, subnetID: string, lbID: string,
    listenerID: string, poolID: string, registerListenerID: string, registerPoolID: string,
    fipID: string, gatewayID: string, gatewayExposed: bool,
    groupIDs: map<string, string>, recordID: int)

  const EMPTY_STATUS := ClusterStatus(
    false, "", false, false, false, "", "", "", "", "", "", "", "", "", false, map[], 0)
  const API_LISTENER := "api-server"
  const REGISTER_LISTENER := "rke2-register"
  const API_PORT := 6443
  const REGISTER_PORT := 9345
  const API_POOL := API_LISTENER + "-pool"
  const REGISTER_POOL := REGISTER_LISTENER + "-pool"

  // ----- invariants

  /** IDs are never empty, and IDs of listeners, pools and floating IPs are issued and unambiguous. */
  ghost predicate ValidCloud(c: Cloud) {
    && ValidListeners(c) && ValidPools(c) && ValidFips(c)
    && KnownIDs(c)
    && (forall x | x in c.subnets :: x.id != "")
    && (forall x | x in c.lbs :: x.id != "")
    && (forall x | x in c.groups :: x.id != "")
  }

  /**
   * A recorded network is the one the user named or, when the user named none, one that
   * this controller created; the ownership mark is never set beside a user-named network.
   */
  predicate OwnsNetwork(spec: ClusterSpec, networkID: string, networkCreated: bool, created: set<string>) {
    && (networkCreated ==> spec.network.Some? && spec.network.value.privateNetworkID == "")
    && (networkID != "" ==>
          && spec.network.Some?
          && (if spec.network.value.privateNetworkID != "" then networkID == spec.network.value.privateNetworkID
              else networkID in created))
  }

  predicate NamesNetwork(spec: ClusterSpec) {
    spec.network.Some? && spec.network.value.privateNetworkID != ""
  }

  /** The recorded API listener and pool belong to the recorded load balancer. */
  ghost predicate Homes(c: Cloud, lbID: string, listenerID: string, poolID: string) {
    && (lbID == "" ==> listenerID == "" && poolID == "")
    && (listenerID != "" ==> ListenerOn(c, listenerID, API_LISTENER, lbID))
    && (poolID != "" ==> PoolOn(c, poolID, API_POOL, lbID))
  }

  lemma HomesKept(c: Cloud, d: Cloud, lbID: string, listenerID: string, poolID: string)
    requires PortsGrew(c, d)
    ensures Homes(c, lbID, listenerID, poolID) ==> Homes(d, lbID, listenerID, poolID)
  {
  }

  /** A recorded listener or pool stays recorded; a newly recorded one was found on the load balancer by its name. */
  ghost predicate PairSource(
    c: Cloud, name: string, lbID: string, listenerBefore: string, poolBefore: string, listenerID: string,
    poolID: string)
  {
    && (if listenerBefore != "" then listenerID == listenerBefore
        else listenerID != "" ==> ListenerFound(c, listenerID, name, lbID))
    && (if poolBefore != "" then poolID == poolBefore
        else poolID != "" ==> PoolFound(c, poolID, name + "-pool", lbID))
  }

  /** The API pair is kept or found for the load balancer that was recorded, if one was; or it is forgotten. */
  ghost predicate ApiSource(
    c: Cloud, lbBefore: string, listenerBefore: string, poolBefore: string, lbID: string, listenerID: string,
    poolID: string)
  {
    || (listenerID == "" && poolID == "")
    || (lbBefore in {"", lbID}
        && PairSource(c, API_LISTENER, lbID, listenerBefore, poolBefore, listenerID, poolID))
  }

  lemma PairSourceKept(
    c: Cloud, d: Cloud, name: string, lbID: string, listenerBefore: string, poolBefore: string, listenerID: string,
    poolID: string)
    requires PortsGrew(c, d)
    ensures PairSource(c, name, lbID, listenerBefore, poolBefore, listenerID, poolID) ==>
              PairSource(d, name, lbID, listenerBefore, poolBefore, listenerID, poolID)
  {
    FoundGrows(c, d, listenerID, name, lbID);
    FoundGrows(c, d, poolID, name + "-pool", lbID);
    hide ListenerFound, PoolFound;
  }

  lemma FoundGrows(c: Cloud, d: Cloud, id: string, name: string, lbID: string)
    requires PortsGrew(c, d)
    ensures ListenerFound(c, id, name, lbID) ==> ListenerFound(d, id, name, lbID)
    ensures PoolFound(c, id, name, lbID) ==> PoolFound(d, id, name, lbID)
  {
  }

  /** A pair that was at home, or found there, is at home. */
  lemma HomesSourced(
    c: Cloud, d: Cloud, lbID: string, listenerBefore: string, poolBefore: string, listenerID: string, poolID: string)
    requires PortsGrew(c, d) && lbID != ""
    requires PairSource(d, API_LISTENER, lbID, listenerBefore, poolBefore, listenerID, poolID)
    ensures Homes(c, lbID, listenerBefore, poolBefore) ==> Homes(d, lbID, listenerID, poolID)
  {
    HomesKept(c, d, lbID, listenerBefore, poolBefore);
    hide PortsGrew, ListenerOn, PoolOn;
  }

  // ----- the names of what a pass creates

  predicate PortOf(name: string, port: int) {
    (name == API_LISTENER && port == API_PORT) || (name == REGISTER_LISTENER && port == REGISTER_PORT)
  }

  predicate NewListeners(s: seq<Listener>, t: seq<Listener>) {
    s <= t && forall i | |s| <= i < |t| :: PortOf(t[i].name, t[i].port)
  }

  predicate NewPools(s: seq<Pool>, t: seq<Pool>) {
    s <= t && forall i | |s| <= i < |t| :: t[i].name in {API_POOL, REGISTER_POOL}
  }

  predicate NewMonitors(s: seq<Monitor>, t: seq<Monitor>) {
    s <= t && forall i | |s| <= i < |t| :: t[i].name in {API_POOL + "-hm", REGISTER_POOL + "-hm"}
  }

  predicate NewNetworks(spec: ClusterSpec, s: seq<Network>, t: seq<Network>) {
    s <= t && forall i | |s| <= i < |t| :: t[i].name == NetworkName(spec)
  }

  /** A new subnet is the configured one, with the addresses for DHCP that go with it. */
  predicate NewSubnets(spec: ClusterSpec, s: seq<Subnet>, t: seq<Subnet>) {
    s <= t && forall i | |s| <= i < |t| :: Configured(spec, t[i])
  }

  predicate Configured(spec: ClusterSpec, x: Subnet) {
    && spec.network.Some? && x.cidr == spec.network.value.subnetCIDR
    && (x.start, x.end) == RangeOf(x.cidr)
  }

  predicate NewLbs(name: string, s: seq<LoadBalancer>, t: seq<LoadBalancer>) {
    && |s| <= |t| && (forall i | 0 <= i < |s| :: t[i].name == s[i].name)
    && forall i | |s| <= i < |t| :: t[i].name == name
  }

  predicate NewGateways(name: string, s: seq<Gateway>, t: seq<Gateway>) {
    && |s| <= |t| && (forall i | 0 <= i < |s| :: t[i].name == s[i].name)
    && forall i | |s| <= i < |t| :: t[i].name == name
  }

  /** Whatever a pass creates carries the cluster's names, ports and address range. */
  predicate Named(spec: ClusterSpec, c: Cloud, d: Cloud) {
    && NewNetworks(spec, c.networks, d.networks) && NewSubnets(spec, c.subnets, d.subnets)
    && NewLbs(LbName(spec), c.lbs, d.lbs) && NewGateways(GatewayName(spec), c.gateways, d.gateways)
    && NewListeners(c.listeners, d.listeners) && NewPools(c.pools, d.pools) && NewMonitors(c.monitors, d.monitors)
  }

  lemma NamedCompose(spec: ClusterSpec, c: Cloud, d: Cloud, e: Cloud)
    requires Named(spec, c, d) && Named(spec, d, e)
    ensures Named(spec, c, e)
  {
    hide LbName, NetworkName, GatewayName, PortOf, RangeOf;
    SuffixCompose((x: Listener) => PortOf(x.name, x.port), c.listeners, d.listeners, e.listeners);
    SuffixCompose((x: Pool) => x.name in {API_POOL, REGISTER_POOL}, c.pools, d.pools, e.pools);
    SuffixCompose((x: Monitor) => x.name in {API_POOL + "-hm", REGISTER_POOL + "-hm"}, c.monitors, d.monitors,
                  e.monitors);
    SuffixCompose((x: Network) => x.name == NetworkName(spec), c.networks, d.networks, e.networks);
    SuffixCompose((x: Subnet) => Configured(spec, x), c.subnets, d.subnets, e.subnets);
  }

  lemma SuffixCompose<T>(p: T -> bool, s: seq<T>, t: seq<T>, u: seq<T>)
    requires s <= t <= u
    requires forall i | |s| <= i < |t| :: p(t[i])
    requires forall i | |t| <= i < |u| :: p(u[i])
    ensures forall i | |s| <= i < |u| :: p(u[i])
  {
    forall i | |s| <= i < |u| ensures p(u[i]) {
      if i < |t| { assert u[i] == t[i]; }
    }
  }

  /** Nothing was deleted: lists grew at their ends, under new IDs where it matters, and records kept their identity. */
  ghost predicate Grown(c: Cloud, d: Cloud) {
    && PortsGrew(c, d)
    && c.members == d.members && c.instances == d.instances
    && c.fips <= d.fips
    && (forall i | |c.fips| <= i < |d.fips| :: d.fips[i].id !in c.issued)
    && |c.lbs| <= |d.lbs|
    && (forall i | 0 <= i < |c.lbs| ::
          && d.lbs[i] == c.lbs[i].(listed := d.lbs[i].listed, fip := d.lbs[i].fip)
          && (c.lbs[i].listed ==> d.lbs[i].listed))
    && (forall i | |c.lbs| <= i < |d.lbs| :: d.lbs[i].id !in c.issued)
  }

  /** Under every key, duplicates only come from creates that could not see, or from lost attempts. */
  ghost predicate KeepsBounds(c: Cloud, j: Journal, d: Cloud, k: Journal) {
    && (forall n :: GrowsBy(LbTally(c, j, n), LbTally(d, k, n)))
    && (forall n, l :: GrowsBy(ListenerTally(c, j, n, l), ListenerTally(d, k, n, l)))
    && (forall n, l :: GrowsBy(PoolTally(c, j, n, l), PoolTally(d, k, n, l)))
    && (forall l :: GrowsBy(FipTally(c, j, l), FipTally(d, k, l)))
  }

  /** What is never undone, and what only a reconciling pass may set. */
  predicate StatusKept(s: ClusterStatus, t: ClusterStatus) {
    && (s.finalizer ==> t.finalizer)
    && (s.ready ==> t.ready)
    && (s.provisioned ==> t.provisioned)
    && (s.host != "" ==> t.host == s.host)
  }

  /** The ID was never issued before, and names a network of the cluster's network name now. */
  predicate MadeHere(spec: ClusterSpec, issued: set<string>, networks: seq<Network>, id: string) {
    id !in issued && exists n | n in networks :: n.id == id && n.name == NetworkName(spec)
  }

  /** Only networks made in between count as created, and none does if the user named one. */
  predicate HistoryKept(spec: ClusterSpec, issued: set<string>, h: History, networks: seq<Network>, i: History) {
    && i == h.(networksCreated := i.networksCreated)
    && h.networksCreated <= i.networksCreated
    && (NamesNetwork(spec) ==> i == h)
    && forall id | id in i.networksCreated && id !in h.networksCreated :: MadeHere(spec, issued, networks, id)
  }

  /** What every step of a reconciling pass keeps of the service, whatever fails. */
  ghost predicate Kept(spec: ClusterSpec, c: Cloud, j: Journal, d: Cloud, k: Journal) {
    && Later(j, k)
    && HistoryKept(spec, c.issued, j.history, d.networks, k.history)
    && Grown(c, d)
    && KeepsBounds(c, j, d, k)
    && Named(spec, c, d)
    && (ValidCloud(c) ==> ValidCloud(d))
  }

  lemma GrownCompose(c: Cloud, d: Cloud, e: Cloud)
    requires Grown(c, d) && Grown(d, e)
    ensures Grown(c, e)
  {
    forall i | |c.listeners| <= i < |e.listeners| ensures e.listeners[i].id !in c.issued {
      if i < |d.listeners| { assert e.listeners[i] == d.listeners[i]; }
    }
    forall i | |c.pools| <= i < |e.pools| ensures e.pools[i].id !in c.issued {
      if i < |d.pools| { assert e.pools[i] == d.pools[i]; }
    }
    forall i | |c.fips| <= i < |e.fips| ensures e.fips[i].id !in c.issued {
      if i < |d.fips| { assert e.fips[i] == d.fips[i]; }
    }
    forall i | |c.lbs| <= i < |e.lbs| ensures e.lbs[i].id !in c.issued {
      if i < |d.lbs| { assert e.lbs[i].id == d.lbs[i].id; }
    }
  }

  lemma BoundsCompose(c: Cloud, j: Journal, d: Cloud, k: Journal, e: Cloud, l: Journal)
    requires KeepsBounds(c, j, d, k) && KeepsBounds(d, k, e, l)
    ensures KeepsBounds(c, j, e, l)
  {
    hide GrowsBy, LbTally, ListenerTally, PoolTally, FipTally;
    forall n ensures GrowsBy(LbTally(c, j, n), LbTally(e, l, n)) {
      GrowsByCompose(LbTally(c, j, n), LbTally(d, k, n), LbTally(e, l, n));
    }
    forall n, m ensures GrowsBy(ListenerTally(c, j, n, m), ListenerTally(e, l, n, m)) {
      GrowsByCompose(ListenerTally(c, j, n, m), ListenerTally(d, k, n, m), ListenerTally(e, l, n, m));
    }
    forall n, m ensures GrowsBy(PoolTally(c, j, n, m), PoolTally(e, l, n, m)) {
      GrowsByCompose(PoolTally(c, j, n, m), PoolTally(d, k, n, m), PoolTally(e, l, n, m));
    }
    forall m ensures GrowsBy(FipTally(c, j, m), FipTally(e, l, m)) {
      GrowsByCompose(FipTally(c, j, m), FipTally(d, k, m), FipTally(e, l, m));
    }
  }

  lemma HistoryCompose(spec: ClusterSpec, c: Cloud, h: History, d: Cloud, i: History, e: Cloud, j: History)
    requires HistoryKept(spec, c.issued, h, d.networks, i) && HistoryKept(spec, d.issued, i, e.networks, j)
    requires c.issued <= d.issued && d.networks <= e.networks
    ensures HistoryKept(spec, c.issued, h, e.networks, j)
  {
    hide NetworkName;
    forall id | id in j.networksCreated && id !in h.networksCreated ensures MadeHere(spec, c.issued, e.networks, id) {
      if id in i.networksCreated {
        assert MadeHere(spec, c.issued, d.networks, id);
      } else {
        assert MadeHere(spec, d.issued, e.networks, id);
      }
    }
  }

  /** Steps compose: whatever each of two steps keeps, the two together keep. */
  lemma KeptCompose(spec: ClusterSpec, c: Cloud, j: Journal, d: Cloud, k: Journal, e: Cloud, l: Journal)
    requires Kept(spec, c, j, d, k) && Kept(spec, d, k, e, l)
    ensures Kept(spec, c, j, e, l)
  {
    GrownCompose(c, d, e);
    BoundsCompose(c, j, d, k, e, l);
    NamedCompose(spec, c, d, e);
    HistoryCompose(spec, c, j.history, d, k.history, e, l.history);
    hide Grown, KeepsBounds, Named, ValidCloud, HistoryKept;
  }

  /** The lists whose duplicates are counted did not change. */
  predicate SameCounted(c: Cloud, d: Cloud) {
    && c.lbs == d.lbs && c.listeners == d.listeners && c.pools == d.pools && c.fips == d.fips
    && c.members == d.members && c.instances == d.instances
    && c.issued <= d.issued
  }

  /** Counters that only grow leave an unchanged count within its growth. */
  lemma SameCountedKeeps(c: Cloud, j: Journal, d: Cloud, k: Journal)
    requires SameCounted(c, d) && Later(j, k)
    ensures Grown(c, d) && KeepsBounds(c, j, d, k)
  {
  }

  function GatewayName(spec: ClusterSpec): string {
    "capi-" + spec.clusterName + "-gw"
  }

  /** Gateways have IDs, and floating IPs that load balancer records show have issued ones. */
  predicate KnownIDs(c: Cloud) {
    && (forall g | g in c.gateways :: g.id != "")
    && (forall l | l in c.lbs && l.fip.Some? :: l.fip.value.id != "" && l.fip.value.id in c.issued)
  }

  function NetworkName(spec: ClusterSpec): string {
    GenerateRFC1035Name(["capi", spec.clusterName, "net"])
  }

  function LbName(spec: ClusterSpec): string {
    GenerateRFC1035Name(["capi", spec.clusterName, "lb"])
  }

  /** The names as they read when the cluster's name needs no cleaning and no cut. */
  lemma PlainNames(spec: ClusterSpec)
    requires |spec.clusterName| <= 54 && forall i | 0 <= i < |spec.clusterName| :: Allowed(spec.clusterName[i])
    ensures LbName(spec) == "capi-" + spec.clusterName + "-lb"
    ensures NetworkName(spec) == "capi-" + spec.clusterName + "-net"
  {
    PlainName(spec.clusterName, "lb");
    PlainName(spec.clusterName, "net");
    assert forall c: string :: "capi-" + c + "-" + "lb" == "capi-" + c + "-lb";
    assert forall c: string :: "capi-" + c + "-" + "net" == "capi-" + c + "-net";
  }

  predicate LbActive(lbs: seq<LoadBalancer>, id: string) {
    First(LbWithId(id), lbs).Some? && First(LbWithId(id), lbs).value.status == "active"
  }

  lemma KeptFacts(spec: ClusterSpec, c: Cloud, j: Journal, d: Cloud, k: Journal)
    requires Kept(spec, c, j, d, k)
    ensures ValidCloud(c) ==> ValidCloud(d)
    ensures j.faults <= k.faults && j.answers <= k.answers && PortsGrew(c, d)
    ensures ValidCloud(d) ==> ValidListeners(d) && ValidPools(d) && ValidFips(d) && KnownIDs(d)
    ensures ValidCloud(d) ==> forall l | l in d.lbs :: l.id != ""
  {
  }

  lemma ReadKept(spec: ClusterSpec, c: Cloud, j: Journal, k: Journal)
    requires Calls(j, k)
    ensures Kept(spec, c, j, c, k)
  {
    SameCountedKeeps(c, j, c, k);
  }

  /** The recorded load balancer, or else the one the user named. */
  function LbInUse(spec: ClusterSpec, lbID: string): string {
    if lbID != "" then lbID else spec.existingLB
  }

  function FipInUse(spec: ClusterSpec, fipID: string): string {
    if fipID != "" then fipID else spec.existingFip
  }

  /** With no load balancer recorded nothing is recorded to belong to it, so any may be recorded next. */
  lemma HomesKeptIn(
    spec: ClusterSpec, c: Cloud, j: Journal, d: Cloud, k: Journal, lbID: string, listenerID: string, poolID: string)
    requires Kept(spec, c, j, d, k)
    ensures Homes(c, "", listenerID, poolID) ==> Homes(d, lbID, listenerID, poolID)
  {
  }

  /** The parts of the service that the load balancer step never touches. */
  predicate SameSurroundings(c: Cloud, d: Cloud) {
    && c.networks == d.networks && c.subnets == d.subnets && c.groups == d.groups
    && c.records == d.records && c.flavors == d.flavors
  }

  lemma KeptReflexive(spec: ClusterSpec, c: Cloud, j: Journal)
    ensures Kept(spec, c, j, c, j)
  {
  }
}
