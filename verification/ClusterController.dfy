/** The OVHCluster reconciler of internal/controller/ovhcluster_controller.go. */
module ClusterController {
  import opened Sequences
  import opened Errors
  import opened CloudModel
  import opened OvhClient
  import opened ClusterModel
  import opened NetworkSteps
  import opened PortSteps
  import opened FipSteps
  import opened LbSteps
  import opened ClusterPass
  import opened DeleteModel
  import opened DhcpRange

  class ClusterScope {
    const spec: ClusterSpec
    const client: Client

    var finalizer: bool
    var host: string
    var ready: bool
    var provisioned: bool
    var networkCreated: bool
    var networkID: string
    var subnetID: string
    var lbID: string
    var listenerID: string
    var poolID: string
    var registerListenerID: string
    var registerPoolID: string
    var fipID: string
    var gatewayID: string
    var gatewayExposed: bool
    var groupIDs: map<string, string>
    var recordID: int

    ghost function Status(): ClusterStatus
      reads this
    {
      ClusterStatus(finalizer, host, ready, provisioned, networkCreated, networkID, subnetID, lbID,
                    listenerID, poolID, registerListenerID, registerPoolID, fipID, gatewayID, gatewayExposed,
                    groupIDs, recordID)
    }

    /** A new object: nothing recorded, and the endpoint host the user may have preset. */
    constructor (spec: ClusterSpec, client: Client, presetHost: string)
      ensures this.spec == spec && this.client == client
      ensures Status() == EMPTY_STATUS.(host := presetHost)
    {
      this.spec, this.client, host := spec, client, presetHost;
      finalizer, ready, provisioned, networkCreated, gatewayExposed := false, false, false, false, false;
      networkID, subnetID, lbID, listenerID, poolID := "", "", "", "", "";
      registerListenerID, registerPoolID, fipID, gatewayID := "", "", "", "";
      groupIDs, recordID := map[], 0;
    }

    // ----- network

    /** Uses the named network or creates one, when none is recorded yet. */
    method EnsureNetwork(config: NetworkConfig) returns (e: Option<Error>)
      requires spec.network == Some(config)
      modifies this`networkID, this`networkCreated, client
      ensures NetworkFrame(old(client.cloud), client.cloud) && client.cloud.subnets == old(client.cloud).subnets
      ensures NewNetworks(spec, old(client.cloud).networks, client.cloud.networks)
      ensures Later(old(client.journal), client.journal) && client.journal.answers == old(client.journal).answers
      ensures HistoryKept(spec, old(client.cloud).issued, old(client.journal).history,
                          client.cloud.networks, client.journal.history)
      ensures SameLookups(old(client.journal), client.journal)
      ensures OwnsNetwork(spec, old(networkID), old(networkCreated), old(client.journal).history.networksCreated) ==>
                OwnsNetwork(spec, networkID, networkCreated, client.journal.history.networksCreated)
      ensures old(networkID) != "" ==>
                e.None? && networkID == old(networkID) && networkCreated == old(networkCreated) && unchanged(client)
      ensures config.privateNetworkID != "" && old(networkID) == "" ==>
                e.None? && networkID == config.privateNetworkID && unchanged(client)
      ensures e.None? ==> networkID != ""
      ensures Clean(old(client.journal), client.journal) ==> e.None?
      ensures e.None? && NeedsNetwork(spec, old(networkID)) ==>
                && networkCreated && NetworkExists(client.cloud.networks, networkID)
                && |old(client.cloud).networks| < |client.cloud.networks|
                && client.cloud.networks[|client.cloud.networks| - 1].id == networkID
                && networkID !in old(client.cloud).issued
      ensures e.Some? ==> networkID == old(networkID) && networkCreated == old(networkCreated)
      ensures NetworksStep(spec, old(client.cloud), old(client.journal), old(networkID),
                           client.cloud, client.journal, networkID)
    {
      e := None;
      if networkID == "" {
        if config.privateNetworkID != "" {
          networkID := config.privateNetworkID;
        } else {
          var r := client.CreatePrivateNetwork(NetworkName(spec));
          if r.Err? {
            return Some(Wrap("", r.error));
          }
          assert r.value in client.cloud.networks;
          networkID, networkCreated := r.value.id, true;
        }
      }
    }

    /** Reads the network: gone clears what is recorded of it, not yet active in the region means waiting. */
    method AwaitNetwork() returns (r: NetworkResult)
      modifies this`networkID, this`subnetID, client`journal
      ensures Asked(old(client.journal), client.journal, ReadNetwork(old(networkID)))
      ensures if Missing(LastAnswer(client.journal)) then r.NetworkFailed? && networkID == "" && subnetID == ""
              else networkID == old(networkID) && subnetID == old(subnetID)
      ensures r.NetworkFailed? <==> LastAnswer(client.journal).Some?
      ensures r.NetworkOk? ==> NetworkActive(client.cloud.networks, networkID, spec.region)
      ensures r.NetworkNotReady? ==>
                NetworkExists(client.cloud.networks, networkID)
                && !NetworkActive(client.cloud.networks, networkID, spec.region)
      ensures r.NetworkFailed? && Clean(old(client.journal), client.journal) ==>
                networkID == "" && subnetID == "" &&
                !NetworkExists(client.cloud.networks, old(networkID))
                && !NetworkActive(client.cloud.networks, old(networkID), spec.region)
    {
      hide IsNotFound;
      var net := client.GetPrivateNetwork(networkID);
      if net.Err? {
        if IsNotFound(net.error) {
          networkID, subnetID := "", "";
          return NetworkFailed(Text("vanished"));
        }
        return NetworkFailed(Wrap("", net.error));
      }
      r := if StatusIn(net.value.regions, spec.region) != "ACTIVE" then NetworkNotReady else NetworkOk;
    }

    /** Records the network's first subnet, or creates one when the network has none and a CIDR is given. */
    method EnsureSubnet(config: NetworkConfig) returns (e: Option<Error>)
      requires spec.network == Some(config) && networkID != ""
      requires forall x | x in client.cloud.subnets :: x.id != ""
      modifies this`subnetID, client
      ensures NetworkFrame(old(client.cloud), client.cloud) && client.cloud.networks == old(client.cloud).networks
      ensures NewSubnets(spec, old(client.cloud).subnets, client.cloud.subnets)
      ensures Calls(old(client.journal), client.journal) && client.journal.answers == old(client.journal).answers
      ensures forall x | x in client.cloud.subnets :: x.id != ""
      ensures Clean(old(client.journal), client.journal) ==> e.None?
      ensures e.None? ==> SubnetSettled(client.cloud.subnets, networkID, subnetID, config.subnetCIDR)
      ensures old(subnetID) != "" ==> subnetID == old(subnetID)
      ensures SubnetStep(networkID, old(subnetID), old(client.cloud).subnets, networkID, subnetID, client.cloud.subnets)
      ensures SubnetSettled(old(client.cloud).subnets, networkID, old(subnetID), config.subnetCIDR) ==>
                subnetID == old(subnetID) && client.cloud == old(client.cloud)
                && client.journal.writes == old(client.journal).writes
    {
      e := None;
      if subnetID == "" {
        var subnets := client.ListSubnets(networkID);
        KeepFirst(SubnetOf(networkID), client.cloud.subnets);
        if subnets.Err? {
          return Some(Wrap("", subnets.error));
        }
        if |subnets.value| > 0 {
          assert subnets.value[0] in client.cloud.subnets;
          subnetID := subnets.value[0].id;
        } else if config.subnetCIDR != "" {
          var start, end := SubnetRange(config.subnetCIDR);
          var subnet := client.CreateSubnet(networkID, config.subnetCIDR, start, end);
          if subnet.Err? {
            return Some(Wrap("", subnet.error));
          }
          subnetID := subnet.value.id;
        }
      }
    }

    /** Creates or adopts the network, waits for it to be active in the region, then sees to its subnet. */
    method ReconcileNetwork() returns (r: NetworkResult)
      requires ValidCloud(client.cloud)
      modifies this`networkID, this`networkCreated, this`subnetID, client
      ensures Kept(spec, old(client.cloud), old(client.journal), client.cloud, client.journal)
      ensures NetworkFrame(old(client.cloud), client.cloud)
      ensures NetworkVerdict(spec, client.cloud, networkID, subnetID, r)
      ensures OwnsNetwork(spec, old(networkID), old(networkCreated), old(client.journal).history.networksCreated) ==>
                OwnsNetwork(spec, networkID, networkCreated, client.journal.history.networksCreated)
      ensures SameLookups(old(client.journal), client.journal)
      ensures NetworksStep(spec, old(client.cloud), old(client.journal), old(networkID),
                           client.cloud, client.journal, networkID)
      ensures SubnetStep(old(networkID), old(subnetID), old(client.cloud).subnets,
                         networkID, subnetID, client.cloud.subnets)
      ensures NetworkForgets(old(client.journal).answers, client.journal.answers, old(networkID), old(subnetID),
                             networkID, subnetID)
      ensures old(networkID) != ""
              && MissingSince(old(client.journal).answers, client.journal.answers, ReadNetwork(old(networkID))) ==>
                networkID == "" && subnetID == ""
      ensures Clean(old(client.journal), client.journal) ==>
                && (spec.network.None? ==> r.NetworkOk? && networkID == old(networkID) && unchanged(client))
                && NetworkProgress(spec, old(client.cloud), old(networkID), old(subnetID), client.cloud, networkID,
                                   subnetID, r)
      ensures Clean(old(client.journal), client.journal)
              && NetworkSettled(spec, old(client.cloud), old(networkID), old(subnetID)) ==>
                r.NetworkOk? && client.cloud == old(client.cloud) && client.journal.writes == old(client.journal).writes
                && networkID == old(networkID) && subnetID == old(subnetID) && networkCreated == old(networkCreated)
    {
      ghost var a := client.journal.answers;
      assert !MissingSince(a, a, ReadNetwork(networkID));
      hide Kept, NetworkActive, NetworkExists, SubnetSettled, SubnetChosen, HistoryKept, NewNetworks, NewSubnets,
           MissingSince, NetworkMissing;
      if spec.network.None? {
        r := NetworkOk;
      } else {
        var e := EnsureNetwork(spec.network.value);
        if e.Some? {
          r := NetworkFailed(e.value);
        } else {
          r := UseNetwork(spec.network.value);
        }
      }
      NetworkKept(spec, old(client.cloud), old(client.journal), client.cloud, client.journal);
    }

    /** Waits for the recorded network, then sees to its subnet. */
    method UseNetwork(config: NetworkConfig) returns (r: NetworkResult)
      requires spec.network == Some(config) && networkID != ""
      requires forall x | x in client.cloud.subnets :: x.id != ""
      modifies this`networkID, this`subnetID, client
      ensures NetworkFrame(old(client.cloud), client.cloud) && client.cloud.networks == old(client.cloud).networks
      ensures NewSubnets(spec, old(client.cloud).subnets, client.cloud.subnets)
      ensures Calls(old(client.journal), client.journal)
      ensures forall x | x in client.cloud.subnets :: x.id != ""
      ensures networkID in {"", old(networkID)} && NetworkVerdict(spec, client.cloud, networkID, subnetID, r)
      ensures NetworkForgets(old(client.journal).answers, client.journal.answers, old(networkID), old(subnetID),
                             networkID, subnetID)
      ensures NetworkForgets(old(client.journal).answers, client.journal.answers, "", old(subnetID),
                             networkID, subnetID)
      ensures MissingSince(old(client.journal).answers, client.journal.answers, ReadNetwork(old(networkID))) ==>
                networkID == "" && subnetID == ""
      ensures SubnetStep(old(networkID), old(subnetID), old(client.cloud).subnets,
                         networkID, subnetID, client.cloud.subnets)
      ensures Clean(old(client.journal), client.journal) ==>
                match r
                case NetworkOk =>
                  && networkID == old(networkID) && NetworkSettled(spec, client.cloud, networkID, subnetID)
                  && (old(subnetID) != "" ==> subnetID == old(subnetID))
                case NetworkNotReady =>
                  && networkID == old(networkID) && subnetID == old(subnetID) && client.cloud == old(client.cloud)
                  && NetworkExists(client.cloud.networks, networkID)
                  && !NetworkActive(client.cloud.networks, networkID, spec.region)
                case NetworkFailed(_) => !NetworkExists(client.cloud.networks, old(networkID))
      ensures Clean(old(client.journal), client.journal)
              && NetworkSettled(spec, old(client.cloud), old(networkID), old(subnetID)) ==>
                r.NetworkOk? && client.cloud == old(client.cloud) && client.journal.writes == old(client.journal).writes
                && networkID == old(networkID) && subnetID == old(subnetID)
    {
      hide NetworkExists, SubnetSettled, SubnetChosen, NetworkForgets, Missing, MissingSince;
      ghost var j, id, sub := client.journal, networkID, subnetID;
      r := AwaitNetwork();
      ghost var k := client.journal;
      if r.NetworkOk? {
        var e := EnsureSubnet(config);
        r := if e.Some? then NetworkFailed(e.value) else NetworkOk;
      }
      NetworkRead(j, k, id, sub, networkID, subnetID);
    }

    // ----- listeners, pools and health monitors

    /** Keeps a recorded listener; otherwise adopts the load balancer's listener of that name or creates it. */
    method EnsureListener(name: string, port: int, id: string) returns (e: Option<Error>, id': string)
      requires ValidListeners(client.cloud) && PortOf(name, port)
      modifies client
      ensures ListenerPhase(old(client.cloud), old(client.journal), client.cloud, client.journal)
      ensures forall i | |old(client.cloud).listeners| <= i < |client.cloud.listeners| ::
                var x := client.cloud.listeners[i];
                x.name == name && x.port == port && x.lbIDs == [lbID]
      ensures id != "" ==> id' == id && unchanged(client)
      ensures id == "" && id' != "" ==> ListenerFound(client.cloud, id', name, lbID)
      ensures e.None? ==> id' != ""
      ensures Clean(old(client.journal), client.journal) ==> e.None?
    {
      hide ListenerPhase, PortOf;
      ghost var c, j := client.cloud, client.journal;
      LookupPhases(c, j, j);
      if id != "" {
        return None, id;
      }
      var existing := client.FindListenerByName(lbID, name);
      ghost var i := client.journal;
      LookupPhases(c, j, i);
      if existing.Err? {
        return Some(Wrap("", existing.error)), "";
      }
      if existing.value.Some? {
        return None, existing.value.value.id;
      }
      var r := client.CreateListener(name, port, lbID);
      ListenerCreated(c, j, i, client.cloud, client.journal, name, port, lbID);
      if r.Err? {
        return Some(Wrap("", r.error)), "";
      }
      return None, r.value.id;
    }

    /** Keeps a recorded pool; otherwise adopts the load balancer's pool of that name or creates it. */
    method EnsurePool(name: string, listener: string, id: string) returns (e: Option<Error>, id': string)
      requires ValidPools(client.cloud) && name in {API_POOL, REGISTER_POOL}
      modifies client
      ensures PoolPhase(old(client.cloud), old(client.journal), client.cloud, client.journal)
      ensures forall i | |old(client.cloud).pools| <= i < |client.cloud.pools| ::
                var x := client.cloud.pools[i];
                x.name == name && x.listenerID == listener && x.lbID == lbID
      ensures id != "" ==> id' == id && unchanged(client)
      ensures id == "" && id' != "" ==> PoolFound(client.cloud, id', name, lbID)
      ensures e.None? ==> id' != ""
      ensures Clean(old(client.journal), client.journal) ==> e.None?
    {
      hide PoolPhase, PortOf;
      ghost var c, j := client.cloud, client.journal;
      LookupPhases(c, j, j);
      if id != "" {
        return None, id;
      }
      var existing := client.FindPoolByName(lbID, name);
      ghost var i := client.journal;
      LookupPhases(c, j, i);
      if existing.Err? {
        return Some(Wrap("", existing.error)), "";
      }
      if existing.value.Some? {
        return None, existing.value.value.id;
      }
      var r := client.CreatePool(name, listener, lbID);
      PoolCreated(c, j, i, client.cloud, client.journal, name, listener, lbID);
      if r.Err? {
        return Some(Wrap("", r.error)), "";
      }
      return None, r.value.id;
    }

    /** Attaches a health monitor to the pool unless one of that name exists anywhere in the region. */
    method EnsurePoolHealthMonitor(poolID: string, poolName: string) returns (e: Option<Error>)
      requires poolName in {API_POOL, REGISTER_POOL}
      modifies client
      ensures MonitorPhase(old(client.cloud), old(client.journal), client.cloud, client.journal)
      ensures forall i | |old(client.cloud).monitors| <= i < |client.cloud.monitors| ::
                client.cloud.monitors[i].poolID == poolID && client.cloud.monitors[i].name == poolName + "-hm"
      ensures MonitorPresent(old(client.cloud).monitors, poolName) ==>
                client.cloud == old(client.cloud) && client.journal.writes == old(client.journal).writes
      ensures Clean(old(client.journal), client.journal) ==> e.None? && MonitorPresent(client.cloud.monitors, poolName)
    {
      var hmName := poolName + "-hm";
      var existing := client.FindHealthMonitorByName(hmName);
      if existing.Err? {
        return Some(Wrap("", existing.error));
      }
      if existing.value.Some? {
        return None;
      }
      assert !MonitorPresent(client.cloud.monitors, poolName);
      var hm := client.CreateMonitor(hmName, poolID);
      if hm.Err? {
        return Some(Wrap("", hm.error));
      }
      assert hm.value in client.cloud.monitors;
      e := None;
    }

    /**
     * Listener, pool and health monitor of one port. The recorded IDs come in and go out,
     * also when a later part fails; the monitor is best effort.
     */
    method ReconcileLBPort(name: string, port: int, listener: string, pool: string)
      returns (e: Option<Error>, listener': string, pool': string)
      requires ValidListeners(client.cloud) && ValidPools(client.cloud) && PortOf(name, port)
      modifies client
      ensures PortStep(old(client.cloud), old(client.journal), client.cloud, client.journal)
      ensures PairSource(client.cloud, name, lbID, listener, pool, listener', pool')
      ensures e.None? ==> listener' != "" && pool' != ""
      ensures Clean(old(client.journal), client.journal) ==>
                e.None? && MonitorPresent(client.cloud.monitors, name + "-pool")
      ensures listener != "" && pool != "" && MonitorPresent(old(client.cloud).monitors, name + "-pool") ==>
                client.cloud == old(client.cloud) && client.journal.writes == old(client.journal).writes
    {
      hide PortStep, MonitorPresent, ListenerPhase, PoolPhase, MonitorPhase, ListenerFound, PoolFound;
      ghost var c, j := client.cloud, client.journal;
      pool' := pool;
      e, listener' := EnsureListener(name, port, listener);
      ghost var d, k := client.cloud, client.journal;
      ListenerPhaseStep(c, j, d, k);
      if e.Some? {
        return;
      }
      e, pool' := EnsurePool(name + "-pool", listener', pool);
      ghost var d', k' := client.cloud, client.journal;
      PoolPhaseStep(c, j, d, k, d', k');
      if e.Some? {
        FoundGrows(d, d', listener', name, lbID);
        return;
      }
      var warning := EnsurePoolHealthMonitor(pool', name + "-pool");
      MonitorPhaseStep(c, j, d', k', client.cloud, client.journal);
      FoundGrows(d, client.cloud, listener', name, lbID);
      FoundGrows(d', client.cloud, pool', name + "-pool", lbID);
    }

    // ----- gateway and floating IP

    /** Finds the cluster's gateway by name, once, and exposes it, once. */
    method EnsureGatewayExposed() returns (e: Option<Error>)
      requires KnownIDs(client.cloud)
      modifies this`gatewayID, this`gatewayExposed, client
      ensures ExposureStep(GatewayName(spec), old(client.cloud), old(client.journal), old(gatewayID),
                           old(gatewayExposed), client.cloud, client.journal, gatewayID, gatewayExposed)
      ensures client.journal.answers == old(client.journal).answers
              || client.journal.answers ==
                 old(client.journal).answers
                 + [Answer(Request.ExposeGateway(gatewayID), LastAnswer(client.journal))]
    {
      hide ExposureStep, KnownIDs, ExposedGateways;
      ghost var c, j, id := client.cloud, client.journal, gatewayID;
      e := None;
      if gatewayExposed {
        AlreadyExposed(GatewayName(spec), c, j, id);
      } else {
        if gatewayID == "" {
          e := FindGateway();
        }
        ghost var tried := e.None?;
        if e.None? {
          e := client.ExposeGateway(gatewayID);
          gatewayExposed := e.None?;
        }
        ExposureOf(GatewayName(spec), c, j, id, client.cloud, client.journal, gatewayID, tried, gatewayExposed);
        e := if e.Some? then Some(Wrap("", e.value)) else None;
      }
    }

    /** Records the cluster's gateway, if the list can be read and shows one. */
    method FindGateway() returns (e: Option<Error>)
      modifies this`gatewayID, client`journal
      ensures Reads(old(client.journal), client.journal)
      ensures var g := First(GatewayNamed(GatewayName(spec)), client.cloud.gateways);
              && (e.None? ==> g.Some? && gatewayID == g.value.id)
              && (e.Some? ==> gatewayID == old(gatewayID) && (Clean(old(client.journal), client.journal) ==> g.None?))
    {
      e := None;
      var gws := client.ListGateways();
      if gws.Err? {
        e := Some(Wrap("", gws.error));
      } else {
        var found := FindFirst(GatewayNamed(GatewayName(spec)), gws.value);
        if found.None? {
          e := Some(Text("no gateway"));
        } else {
          gatewayID := found.value.id;
        }
      }
    }

    /** Looks for a floating IP attached to the load balancer; `ip` is empty while it has no address. */
    method DiscoverFloatingIP(lbID: string) returns (listed: bool, found: bool, ip: string)
      modifies this`fipID, client`journal
      ensures ListsOnly(old(client.journal), client.journal)
      ensures !listed ==> client.journal.fipListFailures == old(client.journal).fipListFailures + 1
      ensures Clean(old(client.journal), client.journal) ==> listed
      ensures found ==> listed
      ensures listed ==>
                var f := First(AttachedTo(lbID), client.cloud.fips);
                found == f.Some? && (found ==> fipID == f.value.id && ip == f.value.ip)
      ensures !found ==> fipID == old(fipID) && ip == ""
    {
      var fips := client.ListFloatingIPs();
      if fips.Err? {
        return false, false, "";
      }
      var f := FindFirst(AttachedTo(lbID), fips.value);
      if f.None? {
        return true, false, "";
      }
      fipID := f.value.id;
      return true, true, f.value.ip;
    }

    /** After an allocation: the floating IP the load balancer's record shows, or else the one listed for it. */
    method RefreshFloatingIP(lbID: string) returns (ip: string)
      requires ValidFips(client.cloud) && KnownIDs(client.cloud)
      modifies this`fipID, client`journal
      ensures ListsOnly(old(client.journal), client.journal)
      ensures ip != "" ==> RecordedAddress(client.cloud.lbs, client.cloud.fips, lbID, fipID, ip)
      ensures fipID == old(fipID) || RecordedFip(client.cloud.lbs, client.cloud.fips, lbID, fipID)
      ensures Clean(old(client.journal), client.journal) && ip != "" ==>
                AddressSettled(client.cloud.lbs, client.cloud.fips, lbID, fipID, ip)
    {
      ip := "";
      var refreshed := client.GetLoadBalancer(lbID);
      if refreshed.Ok? && refreshed.value.fip.Some? && refreshed.value.fip.value.id != "" {
        fipID := refreshed.value.fip.value.id;
        ip := refreshed.value.fip.value.ip;
        OutcomeByRecord(client.cloud, lbID, refreshed.value.fip.value);
      } else {
        var listed, found;
        listed, found, ip := DiscoverFloatingIP(lbID);
        if found && (refreshed.Ok? || First(LbWithId(lbID), client.cloud.lbs).None?) {
          OutcomeByList(client.cloud, lbID, First(AttachedTo(lbID), client.cloud.fips).value);
        }
      }
    }

    /**
     * A floating IP recorded earlier, read directly because the load balancer's record lags.
     * `done` is false when the record is gone: then it is cleared and the search starts over.
     */
    method ReadRecordedFloatingIP(lbID: string) returns (done: bool, ip: string)
      requires fipID != "" && First(LbWithId(lbID), client.cloud.lbs).Some?
      requires AddressOnRecord(First(LbWithId(lbID), client.cloud.lbs).value) == ""
      modifies this`fipID, client`journal
      ensures ListsOnly(old(client.journal), client.journal)
      ensures done ==> fipID == old(fipID)
      ensures !done ==> fipID == "" && ip == ""
      ensures client.journal.answers ==
              old(client.journal).answers + [Answer(ReadFip(old(fipID)), LastAnswer(client.journal))]
      ensures Missing(LastAnswer(client.journal)) <==> !done
      ensures ip != "" ==> RecordedAddress(client.cloud.lbs, client.cloud.fips, lbID, fipID, ip)
      ensures Clean(old(client.journal), client.journal) && done ==>
                && (ip != "" ==> AddressSettled(client.cloud.lbs, client.cloud.fips, lbID, fipID, ip))
                && ip == KnownAddress(client.cloud.lbs, client.cloud.fips, lbID, fipID)
                && (ip == "" ==> FipPending(client.cloud.fips, lbID, fipID))
      ensures Clean(old(client.journal), client.journal) && !done ==>
                First(FipWithId(old(fipID)), client.cloud.fips).None?
                && !FipSettled(client.cloud.lbs, client.cloud.fips, lbID, old(fipID))
    {
      var fip, _ := client.GetFloatingIP(fipID);
      if fip.Ok? {
        return true, fip.value.ip;
      }
      if IsNotFound(fip.error) {
        fipID := "";
        return false, "";
      }
      return true, "";
    }

    /**
     * Allocates and attaches a floating IP when the list showed none attached (or could not be read),
     * then reads its real record; the allocation's own ID is never recorded.
     */
    method AllocateFloatingIP(lb: LoadBalancer, ghost i: Journal) returns (e: Option<Error>, ip: string)
      requires ValidFips(client.cloud) && KnownIDs(client.cloud)
      requires First(LbWithId(lb.id), client.cloud.lbs) == Some(lb)
      requires ListsOnly(i, client.journal)
      requires Count(AttachedTo(lb.id), client.cloud.fips) == 0 || i.fipListFailures < client.journal.fipListFailures
      modifies this`fipID, this`gatewayID, this`gatewayExposed, client
      ensures FipStep(GatewayName(spec), old(client.cloud), i, client.cloud, client.journal)
      ensures ValidFips(client.cloud) && KnownIDs(client.cloud)
      ensures ip != "" ==> e.None? && RecordedAddress(client.cloud.lbs, client.cloud.fips, lb.id, fipID, ip)
      ensures fipID == old(fipID) || RecordedFip(client.cloud.lbs, client.cloud.fips, lb.id, fipID)
      ensures old(client.journal).faults <= client.journal.faults
      ensures Clean(old(client.journal), client.journal) ==> e.None?
      ensures Clean(old(client.journal), client.journal) ==>
                && First(AttachedTo(lb.id), client.cloud.fips).Some?
                && (ip != "" ==> AddressSettled(client.cloud.lbs, client.cloud.fips, lb.id, fipID, ip))
      ensures GatewayTracked(GatewayName(spec), i, client.journal, old(client.cloud).issued,
                             old(client.cloud).gateways, old(gatewayID), old(gatewayExposed),
                             client.cloud.gateways, gatewayID, gatewayExposed)
      ensures Clean(old(client.journal), client.journal) ==>
                ExposureSettled(client.cloud.gateways, gatewayID, gatewayExposed, GatewayName(spec))
    {
      hide FipStep, GatewayTracked, AddressSettled, ValidFips, KnownIDs, RecordedAddress, RecordedFip, GatewayWrites,
           ExposureSettled, FipsGrew, ListsOnly;
      ip := "";
      ghost var gw, c, j, id, exposed := GatewayName(spec), client.cloud, client.journal, gatewayID, gatewayExposed;
      var fip := client.CreateLoadBalancerFloatingIP(lb.id, lb.vip, GatewayName(spec));
      ghost var d, k := client.cloud, client.journal;
      AllocationTracked(c, i, j, d, k, lb.id, gw, id, exposed);
      if fip.Err? {
        e := Some(Wrap("", fip.error));
      } else {
        var warning := EnsureGatewayExposed();
        ghost var l := client.journal;
        FipStepsTracked(gw, c, i, id, exposed, d, k, id, exposed, client.cloud, l, gatewayID, gatewayExposed);
        ip := RefreshFloatingIP(lb.id);
        ThenListed(gw, c, i, client.cloud, l, client.journal, id, exposed, gatewayID, gatewayExposed);
        e := None;
      }
    }

    /** No usable floating IP is recorded: take one attached to the load balancer, else allocate one. */
    method DiscoverOrAllocate(lb: LoadBalancer) returns (e: Option<Error>, ip: string)
      requires ValidFips(client.cloud) && KnownIDs(client.cloud)
      requires First(LbWithId(lb.id), client.cloud.lbs) == Some(lb) && AddressOnRecord(lb) == ""
      modifies this`fipID, this`gatewayID, this`gatewayExposed, client
      ensures FoundStep(GatewayName(spec), lb, old(client.cloud), old(client.journal),
                        FipRecord(old(fipID), old(gatewayID), old(gatewayExposed)), client.cloud, client.journal,
                        FipRecord(fipID, gatewayID, gatewayExposed), e.Some?, ip)
    {
      hide FipStep, GatewayTracked, AddressSettled, ValidFips, KnownIDs, RecordedAddress, RecordedFip, GatewayWrites,
           ExposureSettled, ListsOnly;
      ghost var gw, c, j, id, exposed := GatewayName(spec), client.cloud, client.journal, gatewayID, gatewayExposed;
      e := None;
      var listed, found;
      listed, found, ip := DiscoverFloatingIP(lb.id);
      ghost var k := client.journal;
      FipUntouched(gw, c, j, id, exposed);
      ThenListed(gw, c, j, c, j, k, id, exposed, id, exposed);
      if found {
        OutcomeByList(c, lb.id, First(AttachedTo(lb.id), c.fips).value);
        AttachedIsRecorded(c, lb.id);
        if ip != "" {
          FipUntouched(gw, c, k, id, exposed);
          var warning := EnsureGatewayExposed();
          FipStepsTracked(gw, c, j, id, exposed, c, k, id, exposed, client.cloud, client.journal, gatewayID,
                          gatewayExposed);
        }
      } else if lb.vip != "" {
        FirstNone(AttachedTo(lb.id), c.fips);
        e, ip := AllocateFloatingIP(lb, j);
      }
    }

    /** Finds or allocates the load balancer's public address; `ip` is empty while there is none yet. */
    method ReconcileFloatingIP(lb: LoadBalancer) returns (e: Option<Error>, ip: string)
      requires ValidFips(client.cloud) && KnownIDs(client.cloud)
      requires First(LbWithId(lb.id), client.cloud.lbs) == Some(lb)
      modifies this`fipID, this`gatewayID, this`gatewayExposed, client
      ensures AddressStep(GatewayName(spec), lb, old(client.cloud), old(client.journal),
                          FipRecord(old(fipID), old(gatewayID), old(gatewayExposed)), client.cloud, client.journal,
                          FipRecord(fipID, gatewayID, gatewayExposed), e.Some?, ip)
    {
      hide AddressStep, TriedStep, FoundStep, ExposureStep, ValidFips, KnownIDs;
      ghost var gw, c, j := GatewayName(spec), client.cloud, client.journal;
      ghost var a := FipRecord(fipID, gatewayID, gatewayExposed);
      e, ip := None, AddressOnRecord(lb);
      if ip != "" {
        fipID := lb.fip.value.id;
        var warning := EnsureGatewayExposed();
        ShownIsAddress(gw, lb, c, j, a, client.cloud, client.journal, FipRecord(fipID, gatewayID, gatewayExposed));
      } else {
        var done := false;
        if fipID != "" {
          done, ip := TryRecordedFloatingIP(lb);
        }
        ghost var d, k, m := client.cloud, client.journal, FipRecord(fipID, gatewayID, gatewayExposed);
        if done {
          TriedIsAddress(gw, lb, c, j, a, d, k, m, ip);
        } else {
          ghost var seen := ip;
          TriedKeeps(gw, lb, c, j, a, d, k, m, seen);
          e, ip := DiscoverOrAllocate(lb);
          FoundIsAddress(gw, lb, c, j, a, d, k, m, seen, client.cloud, client.journal,
                         FipRecord(fipID, gatewayID, gatewayExposed), e.Some?, ip);
        }
      }
    }

    /** Exposes the gateway and reads the recorded floating IP; `done` is false when that is gone. */
    method TryRecordedFloatingIP(lb: LoadBalancer) returns (done: bool, ip: string)
      requires ValidFips(client.cloud) && KnownIDs(client.cloud) && fipID != ""
      requires First(LbWithId(lb.id), client.cloud.lbs) == Some(lb) && AddressOnRecord(lb) == ""
      modifies this`fipID, this`gatewayID, this`gatewayExposed, client
      ensures TriedStep(GatewayName(spec), lb, old(client.cloud), old(client.journal),
                        FipRecord(old(fipID), old(gatewayID), old(gatewayExposed)), client.cloud, client.journal,
                        FipRecord(fipID, gatewayID, gatewayExposed), done, ip)
    {
      hide FipStep, GatewayTracked, AddressSettled, ValidFips, KnownIDs, RecordedAddress, RecordedFip, GatewayWrites,
           FipSettled, ListsOnly;
      ghost var c, j, id, exposed := client.cloud, client.journal, gatewayID, gatewayExposed;
      var warning := EnsureGatewayExposed();
      ghost var d, k, fip := client.cloud, client.journal, fipID;
      done, ip := ReadRecordedFloatingIP(lb.id);
      ExposedThenRead(j, k, client.journal, gatewayID, fip);
      ThenListed(GatewayName(spec), c, j, d, k, client.journal, id, exposed, gatewayID, gatewayExposed);
    }

    // ----- load balancer

    /** The flavor must exist, and the network be known to the service that holds load balancers. */
    method ResolveLBNetwork() returns (r: Result<string>)
      modifies client`journal
      ensures Calls(old(client.journal), client.journal) && client.journal.writes == old(client.journal).writes
      ensures r.Ok? ==>
                && CreationReady(spec, client.cloud, networkID, subnetID)
                && r.value == OpenStackIDIn(First(NetworkWithId(networkID), client.cloud.networks).value.regions,
                                            spec.region)
      ensures Clean(old(client.journal), client.journal) && r.Err? ==>
                !CreationReady(spec, client.cloud, networkID, subnetID)
    {
      var e := client.GetLBFlavorByName(if spec.lbFlavor == "" then "small" else spec.lbFlavor);
      if e.Some? {
        return Err(Wrap("", e.value));
      }
      if (spec.lbSubnetID == "" && subnetID == "") || networkID == "" {
        return Err(Text("no subnet"));
      }
      var net := client.GetPrivateNetwork(networkID);
      if net.Err? {
        return Err(Wrap("", net.error));
      }
      var osNetID := OpenStackIDIn(net.value.regions, spec.region);
      r := if osNetID == "" then Err(Text("no OpenStack ID")) else Ok(osNetID);
    }

    /** Creates the load balancer, or finds the one that already carries its name, and records it. */
    method CreateLB() returns (r: LbResult)
      requires ValidCloud(client.cloud)
      modifies this`lbID, client
      ensures CreateStep(spec, old(client.cloud), old(client.journal), old(Status()), client.cloud, client.journal,
                         Status(), r)
    {
      hide Kept, ValidCloud, LbName, CreationReady, LookupStep, LbCreated, LbOfCluster, NetworkExists, LbsGrew,
           LbInPlace, NewLbsOn, LbShown;
      ghost var c, j, s := client.cloud, client.journal, Status();
      var network := ResolveLBNetwork();
      ghost var k := client.journal;
      if network.Err? {
        r := LbFailed(network.error);
        NotCreated(spec, c, j, k, networkID, subnetID);
      } else {
        var lb := client.CreateLoadBalancer(LbName(spec), network.value);
        CreatedKept(spec, c, j, k, client.cloud, client.journal, networkID, subnetID, network.value, lb);
        if lb.Err? {
          r := LbFailed(Wrap("", lb.error));
        } else {
          lbID := lb.value.id;
          r := LbWaiting;
        }
        CreatedInPlace(spec, c, client.cloud, Status(), network.value, lb.Ok?);
      }
    }

    /** Listener, pool and monitor of the API port and then of the register port. */
    method EnsurePorts() returns (e: Option<Error>)
      requires ValidCloud(client.cloud) && lbID != ""
      modifies this`listenerID, this`poolID, this`registerListenerID, this`registerPoolID, client
      ensures Kept(spec, old(client.cloud), old(client.journal), client.cloud, client.journal)
      ensures PortFrame(old(client.cloud), client.cloud) && ValidCloud(client.cloud)
      ensures client.cloud.lbs == old(client.cloud).lbs && client.cloud.fips == old(client.cloud).fips
      ensures PairSource(client.cloud, API_LISTENER, lbID, old(listenerID), old(poolID), listenerID, poolID)
      ensures PairSource(client.cloud, REGISTER_LISTENER, lbID, old(registerListenerID), old(registerPoolID),
                         registerListenerID, registerPoolID)
      ensures SameLookups(old(client.journal), client.journal)
      ensures e.None? ==> listenerID != "" && poolID != "" && registerListenerID != "" && registerPoolID != ""
      ensures Clean(old(client.journal), client.journal) ==>
                e.None? && PortsSettled(client.cloud.monitors, listenerID, poolID, registerListenerID, registerPoolID)
      ensures PortsSettled(old(client.cloud).monitors, old(listenerID), old(poolID), old(registerListenerID),
                           old(registerPoolID)) ==>
                client.cloud == old(client.cloud) && client.journal.writes == old(client.journal).writes
                && listenerID == old(listenerID) && poolID == old(poolID)
                && registerListenerID == old(registerListenerID) && registerPoolID == old(registerPoolID)
    {
      hide Kept, ValidCloud, PortStep, PortFrame, MonitorPresent, ListenerFound, PoolFound, ValidListeners, ValidPools;
      ghost var c, j := client.cloud, client.journal;
      assert ValidListeners(c) && ValidPools(c) by { KeptReflexive(spec, c, j); KeptFacts(spec, c, j, c, j); }
      ghost var listener, pool := listenerID, poolID;
      e, listenerID, poolID := ReconcileLBPort(API_LISTENER, API_PORT, listenerID, poolID);
      ghost var d, k := client.cloud, client.journal;
      FirstPortKept(spec, c, j, d, k, lbID, registerListenerID, registerPoolID);
      if e.None? {
        e, registerListenerID, registerPoolID :=
          ReconcileLBPort(REGISTER_LISTENER, REGISTER_PORT, registerListenerID, registerPoolID);
        BothPortsKept(spec, c, j, d, k, client.cloud, client.journal, lbID, listener, pool, listenerID, poolID);
      }
    }

    /** The floating IP, when one is configured, and then the endpoint host, unless it is already set. */
    method SetEndpoint(lb: LoadBalancer) returns (r: LbResult)
      requires ValidCloud(client.cloud)
      requires First(LbWithId(lbID), client.cloud.lbs) == Some(lb) && lb.id == lbID
      modifies this`fipID, this`gatewayID, this`gatewayExposed, this`host, client
      ensures EndpointStep(spec, old(client.cloud), old(client.journal), old(Status()), client.cloud, client.journal,
                           Status(), r)
    {
      hide AddressStep, EndpointStep;
      ghost var c, j, s := client.cloud, client.journal, Status();
      var endpointHost := lb.vip;
      r := LbDone;
      if spec.floatingNetworkID != "" {
        var e;
        e, endpointHost := ReconcileFloatingIP(lb);
        r := if e.Some? then LbFailed(e.value) else if endpointHost == "" then LbWaiting else LbDone;
      }
      ghost var d, k, b := client.cloud, client.journal, FipRecord(fipID, gatewayID, gatewayExposed);
      if r.LbDone? && endpointHost != "" && host == "" {
        host := endpointHost;
      }
      EndpointOf(spec, c, j, s, lb, d, k, b, r, endpointHost);
      assert Status() == EndpointStatus(s, b, r, endpointHost);
    }

    /** The load balancer exists: wait until it is active, then see to its ports and the endpoint. */
    method HandleExistingLB(lb: LoadBalancer) returns (r: LbResult)
      requires ValidCloud(client.cloud)
      requires First(LbWithId(lbID), client.cloud.lbs) == Some(lb) && lb.id == lbID && lbID != ""
      modifies this`listenerID, this`poolID, this`registerListenerID, this`registerPoolID,
               this`fipID, this`gatewayID, this`gatewayExposed, this`host, client
      ensures ExistingStep(spec, old(client.cloud), old(client.journal), old(Status()), client.cloud, client.journal,
                           Status(), r)
    {
      hide ExistingStep, EndpointStep, Kept, ValidCloud, PortFrame, PortsSettled, PairSource;
      ghost var c, j, s := client.cloud, client.journal, Status();
      if lb.status != "active" {
        r := LbWaiting;
        WaitsForStatus(spec, c, j, s, lb);
      } else {
        var e := EnsurePorts();
        ghost var d, k, m := client.cloud, client.journal, Status();
        if e.Some? {
          r := LbFailed(e.value);
          PortsOnly(spec, c, j, s, d, k, m, e.value);
        } else {
          r := SetEndpoint(lb);
          PortsThenEndpoint(spec, c, j, s, lb, d, k, m, client.cloud, client.journal, Status(), r);
        }
      }
    }

    /**
     * Adopts what the user named, then gets the recorded load balancer. One that is gone is forgotten
     * together with the API listener and pool, but not with the register pair.
     */
    method RecordedLB() returns (r: Result<Option<LoadBalancer>>)
      modifies this`lbID, this`listenerID, this`poolID, this`fipID, client`journal
      ensures fipID == FipInUse(spec, old(fipID))
      ensures var id := LbInUse(spec, old(lbID));
              && (if r.Ok? && r.value.None? then
                    lbID == "" && (if id != "" then listenerID == "" && poolID == ""
                                   else listenerID == old(listenerID) && poolID == old(poolID))
                  else lbID == id && listenerID == old(listenerID) && poolID == old(poolID))
              && (r.Ok? && r.value.Some? ==> id != "" && First(LbWithId(id), client.cloud.lbs) == r.value)
              && (if id == "" then r.Ok? && r.value.None? && client.journal == old(client.journal)
                  else
                    && Asked(old(client.journal), client.journal, ReadLb(id))
                    && (r.Ok? && r.value.None? <==> Missing(LastAnswer(client.journal)))
                    && (Clean(old(client.journal), client.journal) ==>
                          r.Ok? && (r.value.None? ==> First(LbWithId(id), client.cloud.lbs).None?)))
    {
      hide IsNotFound;
      if spec.existingLB != "" && lbID == "" {
        lbID := spec.existingLB;
      }
      if spec.existingFip != "" && fipID == "" {
        fipID := spec.existingFip;
      }
      if lbID == "" {
        return Ok(None);
      }
      var lb := client.GetLoadBalancer(lbID);
      if lb.Ok? {
        return Ok(Some(lb.value));
      }
      if !IsNotFound(lb.error) {
        return Err(Wrap("", lb.error));
      }
      lbID, listenerID, poolID := "", "", "";
      r := Ok(None);
    }

    /** Sees to the recorded or adopted load balancer, and creates one when there is none or it is gone. */
    method ReconcileLoadBalancer() returns (r: LbResult)
      requires ValidCloud(client.cloud)
      modifies this`lbID, this`listenerID, this`poolID, this`registerListenerID, this`registerPoolID,
               this`fipID, this`gatewayID, this`gatewayExposed, this`host, client
      ensures LbStep(spec, old(client.cloud), old(client.journal), old(Status()), client.cloud, client.journal,
                     Status(), r)
    {
      hide ExistingStep, CreateStep, LbStep, ValidCloud;
      ghost var c, j, s := client.cloud, client.journal, Status();
      var lb := RecordedLB();
      ghost var k, t := client.journal, Status();
      AdoptCalls(spec, j, k, s.lbID);
      assert AdoptStep(spec, c, j, s, k, t, lb);
      hide AdoptStep, Status;
      if lb.Err? {
        r := LbFailed(lb.error);
        FailedIsStep(spec, c, j, s, k, t, lb);
      } else if lb.value.Some? {
        r := HandleExistingLB(lb.value.value);
        ExistingIsStep(spec, c, j, s, k, t, lb.value.value, client.cloud, client.journal, Status(), r);
      } else {
        r := CreateLB();
        CreateIsStep(spec, c, j, s, k, t, client.cloud, client.journal, Status(), r);
      }
    }

    // ----- security groups and DNS

    /** Finds or creates each security group that is not recorded yet; its rules are best effort. */
    method ReconcileSecurityGroups() returns (e: Option<Error>)
      requires ValidCloud(client.cloud)
      modifies this`groupIDs, client
      ensures GroupsTaken(spec, old(client.cloud), old(groupIDs), client.cloud, groupIDs)
      ensures Calls(old(client.journal), client.journal)
      ensures Clean(old(client.journal), client.journal) ==> e.None? && GroupsSettled(spec.groups, groupIDs)
      ensures GroupsSettled(spec.groups, old(groupIDs)) ==>
                groupIDs == old(groupIDs) && client.cloud == old(client.cloud)
                && client.journal.writes == old(client.journal).writes
    {
      hide GroupsTaken, GroupAdded, GroupName;
      NoGroupsTaken(spec, client.cloud, groupIDs);
      if spec.groups == [] {
        return None;
      }
      var listed := client.ListSecurityGroups();
      if listed.Err? {
        return Some(Wrap("", listed.error));
      }
      var existing := GroupsByName(listed.value);
      ghost var c, first := client.cloud, groupIDs;
      assert KnownGroups(c.groups, existing);
      hide KnownGroups;
      for i := 0 to |spec.groups|
        invariant GroupsTaken(spec, c, first, client.cloud, groupIDs) && c.groups <= client.cloud.groups
        invariant Calls(old(client.journal), client.journal)
        invariant GroupsSettled(spec.groups[..i], groupIDs)
        invariant GroupsSettled(spec.groups, first) ==>
                    groupIDs == first && client.cloud == c && client.journal.writes == old(client.journal).writes
      {
        ghost var d, before := client.cloud, groupIDs;
        var e' := EnsureSecurityGroup(spec.groups[i], existing, c.groups);
        GroupsAdded(spec, spec.groups[..i], spec.groups[i], c, first, d, before, client.cloud, groupIDs,
                    existing);
        if e'.Some? {
          return e';
        }
        assert spec.groups[..i + 1] == spec.groups[..i] + [spec.groups[i]];
      }
      assert spec.groups[..|spec.groups|] == spec.groups;
      e := None;
    }

    /** One group: kept if recorded, else taken from those that exist, else created. */
    method EnsureSecurityGroup(name: string, existing: map<string, string>, ghost listed: seq<SecurityGroup>)
      returns (e: Option<Error>)
      requires KnownGroups(listed, existing) && listed <= client.cloud.groups
      modifies this`groupIDs, client
      ensures GroupAdded(spec, name, old(client.cloud), old(groupIDs), client.cloud, groupIDs)
      ensures GroupName(spec, name) in existing ==> client.cloud == old(client.cloud)
      ensures Calls(old(client.journal), client.journal)
      ensures e.None? ==> GroupRecorded(groupIDs, name)
      ensures Clean(old(client.journal), client.journal) ==> e.None?
      ensures GroupRecorded(old(groupIDs), name) ==> groupIDs == old(groupIDs) && unchanged(client)
    {
      e := None;
      if !(name in groupIDs && groupIDs[name] != "") {
        var sgName := GroupName(spec, name);
        if sgName in existing {
          groupIDs := groupIDs[name := existing[sgName]];
        } else {
          var sg := client.CreateSecurityGroup(sgName);
          if sg.Err? {
            return Some(Wrap("", sg.error));
          }
          assert sg.value in client.cloud.groups;
          groupIDs := groupIDs[name := sg.value.id];
          var warning := client.UnobservedWrite();
        }
      }
    }

    /** Creates the endpoint's DNS record, once. */
    method ReconcileDNS() returns (e: Option<Error>)
      modifies this`recordID, client
      ensures DnsStep(spec, old(client.cloud), old(client.journal), old(recordID),
                         client.cloud, client.journal, recordID, host)
    {
      e := None;
      if spec.dns && recordID == 0 && host != "" {
        var record := client.CreateDNSRecord();
        if record.Err? {
          return Some(Wrap("", record.error));
        }
        recordID := record.value;
        var warning := client.UnobservedWrite();
      }
    }

    // ----- the pass

    /** Load balancer and DNS, once the network is settled; then everything is marked ready. */
    method ReconcileOnNetwork() returns (out: PassOutcome)
      requires ValidCloud(client.cloud)
      modifies this`lbID, this`listenerID, this`poolID, this`registerListenerID, this`registerPoolID,
               this`fipID, this`gatewayID, this`gatewayExposed, this`host,
               this`recordID, this`ready, this`provisioned, client
      ensures Kept(spec, old(client.cloud), old(client.journal), client.cloud, client.journal)
      ensures LaterPart(spec, old(client.cloud), old(client.journal), old(Status()), client.cloud, client.journal,
                        Status(), out)
    {
      hide LaterPart, Kept, ValidCloud, LbStep, DnsStep;
      ghost var c, j, s := client.cloud, client.journal, Status();
      var r := ReconcileLoadBalancer();
      ghost var d, k, t := client.cloud, client.journal, Status();
      if r.LbDone? {
        var warning := ReconcileDNS();
        ready, provisioned := true, true;
        out := PassReady;
      } else {
        out := if r.LbWaiting? then LbWait else PassFailed(r.error);
      }
      LbThenRecords(spec, c, j, s, d, k, t, r, client.cloud, client.journal, Status(), out);
    }

    /** Credentials, then the network. */
    method ReconcileGround() returns (r: NetworkResult)
      requires ValidCloud(client.cloud)
      modifies this`networkID, this`networkCreated, this`subnetID, client
      ensures GroundStep(spec, old(client.cloud), old(client.journal), old(Status()),
                         client.cloud, client.journal, Status(), r)
    {
      hide Kept, NetworkSettled, NetworkProgress, OwnsNetwork, NetworkFrame, SubnetStep, NetworksStep, NetworkAdded;
      ghost var c, j, s := client.cloud, client.journal, Status();
      var e := client.Read();
      ghost var i := client.journal;
      if e.Some? {
        r := NetworkFailed(Wrap("", e.value));
        ReadIsGround(spec, c, j, s, i, r.error);
      } else {
        r := ReconcileNetwork();
        assert GroundStep(spec, c, i, s, client.cloud, client.journal, Status(), r);
        ReadThenGround(spec, c, j, s, i, client.cloud, client.journal, Status(), r);
      }
    }

    /** Security groups, load balancer and DNS. */
    method ReconcileOnGround() returns (out: PassOutcome)
      requires ValidCloud(client.cloud)
      modifies this`groupIDs, this`lbID, this`listenerID, this`poolID, this`registerListenerID, this`registerPoolID,
               this`fipID, this`gatewayID, this`gatewayExposed, this`host,
               this`recordID, this`ready, this`provisioned, client
      ensures Kept(spec, old(client.cloud), old(client.journal), client.cloud, client.journal)
      ensures OnGroundStep(spec, old(client.cloud), old(client.journal), old(Status()),
                           client.cloud, client.journal, Status(), out)
    {
      hide Kept, ValidCloud, LaterPart, GroupsSettled, GroupFrame, OnGroundStep, Calls;
      ghost var c, j, s := client.cloud, client.journal, Status();
      var warning := ReconcileSecurityGroups();
      ghost var d, k, t := client.cloud, client.journal, Status();
      assert GroupStep(spec, c, j, s, d, k, t);
      GroupsKept(spec, c, j, d, k);
      hide GroupStep;
      out := ReconcileOnNetwork();
      GroupsAndLater(spec, c, j, s, d, k, t, client.cloud, client.journal, Status(), out);
    }

    /** One reconciling pass over an object that is not being deleted. */
    method ReconcileNormal() returns (out: PassOutcome)
      requires ValidCloud(client.cloud)
      modifies this, client
      ensures NormalPass(spec, old(client.cloud), old(client.journal), old(Status()),
                         client.cloud, client.journal, Status(), out)
    {
      hide GroundStep, OnGroundStep, NormalPass, Kept, ValidCloud;
      ghost var c, j, s := client.cloud, client.journal, Status();
      if !finalizer {
        finalizer := true;
        out := FinalizerAdded;
        FinalizerPass(spec, c, j, s, Status());
      } else {
        var r := ReconcileGround();
        ghost var d, k, t := client.cloud, client.journal, Status();
        GroundPass(spec, c, j, s, d, k, t, r);
        if r.NetworkNotReady? {
          out := NetworkWait;
        } else if r.NetworkFailed? {
          out := PassFailed(r.error);
        } else {
          out := ReconcileOnGround();
          WholePass(spec, c, j, s, d, k, t, client.cloud, client.journal, Status(), out);
        }
      }
    }

    // ----- deletion

    /** Deletes the DNS record, if one is recorded; a failure is only a warning. */
    method CleanupDNS()
      modifies this`recordID, client`journal
      ensures Calls(old(client.journal), client.journal)
      ensures RecordAnswered(old(client.journal).answers, client.journal.answers, spec.dns, old(recordID), recordID)
      ensures Clean(old(client.journal), client.journal) && spec.dns ==> recordID == 0
    {
      hide Accepted;
      if recordID != 0 && spec.dns {
        ghost var j, id := client.journal, recordID;
        var e := client.DeleteDNSRecord(recordID);
        OneAnswer(j, client.journal, DeleteRecord(id));
        if e.None? {
          e := client.UnobservedWrite();
          recordID := 0;
        }
      }
    }

    /** Deletes the recorded security groups and forgets those whose deletion succeeded. */
    method CleanupSecurityGroups()
      modifies this`groupIDs, client
      ensures client.cloud == old(client.cloud).(groups := client.cloud.groups)
      ensures NoneAdded(old(client.cloud).groups, client.cloud.groups)
      ensures GroupsSpared(old(groupIDs).Values, old(client.cloud).groups, client.cloud.groups)
      ensures Calls(old(client.journal), client.journal)
      ensures groupIDs.Keys <= old(groupIDs).Keys && forall n | n in groupIDs :: groupIDs[n] == old(groupIDs)[n]
      ensures GroupsAnswered(old(client.journal).answers, client.journal.answers, old(groupIDs), {}, groupIDs)
      ensures Clean(old(client.journal), client.journal) ==>
                groupIDs == map[] && forall x | x in client.cloud.groups :: x.id !in old(groupIDs).Values
    {
      hide Accepted, GroupsAnswered;
      var names := groupIDs.Keys;
      NoneAnswered(client.journal.answers, groupIDs);
      while names != {}
        invariant names <= groupIDs.Keys <= old(groupIDs).Keys
        invariant forall n | n in groupIDs :: groupIDs[n] == old(groupIDs)[n]
        invariant client.cloud == old(client.cloud).(groups := client.cloud.groups)
        invariant NoneAdded(old(client.cloud).groups, client.cloud.groups)
        invariant GroupsSpared(old(groupIDs).Values, old(client.cloud).groups, client.cloud.groups)
        invariant Calls(old(client.journal), client.journal)
        invariant GroupsAnswered(old(client.journal).answers, client.journal.answers, old(groupIDs), names, groupIDs)
        invariant Clean(old(client.journal), client.journal) ==>
                    && groupIDs.Keys == names
                    && forall n, x | n in old(groupIDs) && n !in names && x in client.cloud.groups ::
                         x.id != old(groupIDs)[n]
        decreases |names|
      {
        ghost var k, all, left := client.journal, names, groupIDs;
        var name :| name in names;
        names := names - {name};
        var e := client.DeleteSecurityGroup(groupIDs[name]);
        if e.None? {
          groupIDs := groupIDs - {name};
        }
        GroupsAnsweredThen(old(client.journal), k, client.journal, old(groupIDs), all, left, name, e, groupIDs);
      }
    }

    /** Collects, before the load balancer goes, every floating IP that is recorded or listed as attached to it. */
    method CaptureFloatingIPs() returns (listed: bool, ids: seq<string>)
      modifies client`journal
      ensures ListsOnly(old(client.journal), client.journal)
      ensures client.journal.fipReads == old(client.journal).fipReads
      ensures Distinct(ids)
      ensures forall id | id in ids :: Captured(client.cloud.fips, lbID, fipID, id)
      ensures fipID != "" ==> fipID in ids
      ensures listed ==> forall id | Captured(client.cloud.fips, lbID, fipID, id) :: id in ids
      ensures Clean(old(client.journal), client.journal) ==> listed
      ensures listed <==> client.journal.fipListFailures == old(client.journal).fipListFailures
    {
      ids := if fipID != "" then [fipID] else [];
      if lbID == "" {
        return true, ids;
      }
      var fips := client.ListFloatingIPs();
      if fips.Err? {
        return false, ids;
      }
      for i := 0 to |fips.value|
        invariant Distinct(ids)
        invariant forall id | id in ids :: Captured(client.cloud.fips, lbID, fipID, id)
        invariant fipID != "" ==> fipID in ids
        invariant forall x | 0 <= x < i && fips.value[x].entity == Some(lbID) :: fips.value[x].id in ids
      {
        if fips.value[i].entity == Some(lbID) && fips.value[i].id !in ids {
          ids := ids + [fips.value[i].id];
        }
      }
      listed := true;
    }

    /** Deletes pool, listener and load balancer as recorded; only a refused load balancer stops the pass. */
    method DeleteRecordedLB() returns (e: Option<Error>)
      modifies client
      ensures ShrunkBy(old(client.cloud), old(client.journal), client.cloud, client.journal)
      ensures client.cloud ==
              old(client.cloud).(pools := client.cloud.pools, listeners := client.cloud.listeners,
                                 lbs := client.cloud.lbs)
      ensures LbsSpared(spec, lbID, old(client.cloud).lbs, client.cloud.lbs)
      ensures ListenersSpared(listenerID, old(client.cloud).listeners, client.cloud.listeners)
      ensures PoolsSpared(poolID, old(client.cloud).pools, client.cloud.pools)
      ensures lbID == "" ==> e.None?
      ensures lbID != "" ==>
                if e.None? then AcceptedSince(old(client.journal).answers, client.journal.answers, DeleteLb(lbID))
                else RefusedSince(old(client.journal).answers, client.journal.answers, DeleteLb(lbID))
      ensures Clean(old(client.journal), client.journal) ==>
                e.None? && forall l | l in client.cloud.lbs && l.id == lbID && lbID != "" :: l.deleting
      ensures Clean(old(client.journal), client.journal) ==>
                && (lbID != "" && listenerID != "" ==> forall x | x in client.cloud.listeners :: x.id != listenerID)
                && (lbID != "" && poolID != "" ==> forall x | x in client.cloud.pools :: x.id != poolID)
    {
      ShrunkReflexive(client.cloud);
      if lbID == "" {
        return None;
      }
      var warning := DeletePorts();
      ghost var d, k := client.cloud, client.journal;
      e := client.DeleteLoadBalancer(lbID);
      LbDeleteShrinks(old(client.cloud), old(client.journal), d, k, client.cloud, client.journal, lbID);
      OneAnswer(k, client.journal, DeleteLb(lbID));
      SeenLonger(old(client.journal).answers, k.answers, client.journal.answers, client.journal.answers,
                 DeleteLb(lbID));
      if e.Some? {
        return Some(Wrap("", e.value));
      }
    }

    method DeletePorts() returns (e: Option<Error>)
      modifies client
      ensures client.cloud == old(client.cloud).(pools := client.cloud.pools, listeners := client.cloud.listeners)
      ensures ListenersSpared(listenerID, old(client.cloud).listeners, client.cloud.listeners)
      ensures PoolsSpared(poolID, old(client.cloud).pools, client.cloud.pools)
      ensures Clean(old(client.journal), client.journal) ==>
                && (listenerID != "" ==> forall x | x in client.cloud.listeners :: x.id != listenerID)
                && (poolID != "" ==> forall x | x in client.cloud.pools :: x.id != poolID)
      ensures Shrunk(old(client.cloud), client.cloud) && Calls(old(client.journal), client.journal)
    {
      e := None;
      if poolID != "" {
        e := client.DeletePool(poolID);
      }
      if listenerID != "" {
        e := client.DeleteListener(listenerID);
      }
      PortDeleteShrinks(old(client.cloud), client.cloud, listenerID, poolID);
    }

    /** Deletes every listed load balancer whose name starts with the cluster's load balancer name. */
    method DeleteOrphans()
      modifies client
      ensures ShrunkBy(old(client.cloud), old(client.journal), client.cloud, client.journal)
      ensures client.cloud == old(client.cloud).(lbs := client.cloud.lbs)
      ensures LbsSpared(spec, lbID, old(client.cloud).lbs, client.cloud.lbs)
      ensures Clean(old(client.journal), client.journal) ==>
                forall l | l in client.cloud.lbs && l.listed && LbName(spec) <= l.name :: l.deleting
    {
      hide LbName;
      var orphans := client.ListLoadBalancersByPrefix(LbName(spec));
      ShrunkReflexive(client.cloud);
      if orphans.Err? {
        return;
      }
      for i := 0 to |orphans.value|
        invariant ShrunkBy(old(client.cloud), old(client.journal), client.cloud, client.journal)
        invariant client.cloud == old(client.cloud).(lbs := client.cloud.lbs)
        invariant LbsSpared(spec, lbID, old(client.cloud).lbs, client.cloud.lbs)
        invariant Clean(old(client.journal), client.journal) ==>
                    forall x, l | 0 <= x < i && l in client.cloud.lbs && l.id == orphans.value[x].id :: l.deleting
      {
        ghost var d, k := client.cloud, client.journal;
        var warning := client.DeleteLoadBalancer(orphans.value[i].id);
        assert orphans.value[i] in orphans.value;
        MarkSpares(spec, lbID, old(client.cloud).lbs, d.lbs, orphans.value[i].id);
        LbDeleteShrinks(old(client.cloud), old(client.journal), d, k, client.cloud, client.journal,
                        orphans.value[i].id);
      }
      OrphansCovered(old(client.cloud).lbs, client.cloud.lbs, LbName(spec), orphans.value);
    }

    /** Deletes each captured floating IP and reads it back; the pass must wait while any read is blocking. */
    method CleanupFloatingIPs(ids: seq<string>) returns (requeue: bool, ghost seen: seq<FipRead>)
      modifies client
      ensures client.cloud == old(client.cloud).(fips := client.cloud.fips)
      ensures CleanupStep(old(client.cloud).fips, old(client.journal), client.cloud.fips, client.journal, ids, ids,
                          seen)
      ensures requeue <==> exists r | r in seen :: Blocking(r)
    {
      hide CleanupStep;
      requeue, seen := false, [];
      CleanupNothing(client.cloud.fips, client.journal, ids);
      for n := 0 to |ids|
        invariant client.cloud == old(client.cloud).(fips := client.cloud.fips)
        invariant CleanupStep(old(client.cloud).fips, old(client.journal), client.cloud.fips, client.journal,
                              ids[..n], ids, seen)
        invariant requeue <==> exists r | r in seen :: Blocking(r)
      {
        ghost var t, k := client.cloud.fips, client.journal;
        var blocking, read := DeleteAndRead(ids[n], ids);
        CleanupCompose(old(client.cloud).fips, old(client.journal), t, k, ids[..n], ids, seen,
                       client.cloud.fips, client.journal, ids[n], read);
        seen := seen + [read];
        requeue := requeue || blocking;
        assert ids[..n + 1] == ids[..n] + [ids[n]];
      }
      assert ids[..|ids|] == ids;
    }

    /** One floating IP; while it is attached the delete detaches it, and what the read then shows decides. */
    method DeleteAndRead(id: string, ghost all: seq<string>) returns (blocking: bool, ghost read: FipRead)
      requires id in all
      modifies client
      ensures client.cloud == old(client.cloud).(fips := client.cloud.fips)
      ensures CleanupStep(old(client.cloud).fips, old(client.journal), client.cloud.fips, client.journal, [id], all,
                          [read])
      ensures blocking == Blocking(read)
    {
      var warning := client.DeleteFloatingIP(id);
      var fip;
      fip, read := client.GetFloatingIP(id);
      blocking := fip.Ok? && !(fip.value.entity.None? && fip.value.status == "down");
    }

    /** The recorded load balancer, and then all that share its name's prefix. */
    method DeleteLoadBalancers() returns (e: Option<Error>)
      modifies client
      ensures ShrunkBy(old(client.cloud), old(client.journal), client.cloud, client.journal)
      ensures client.cloud ==
              old(client.cloud).(pools := client.cloud.pools, listeners := client.cloud.listeners,
                                 lbs := client.cloud.lbs)
      ensures LbsSpared(spec, lbID, old(client.cloud).lbs, client.cloud.lbs)
      ensures ListenersSpared(listenerID, old(client.cloud).listeners, client.cloud.listeners)
      ensures PoolsSpared(poolID, old(client.cloud).pools, client.cloud.pools)
      ensures lbID == "" ==> e.None?
      ensures lbID != "" ==>
                if e.None? then AcceptedSince(old(client.journal).answers, client.journal.answers, DeleteLb(lbID))
                else RefusedSince(old(client.journal).answers, client.journal.answers, DeleteLb(lbID))
      ensures Clean(old(client.journal), client.journal) ==> e.None? && LbsGoing(spec, lbID, client.cloud.lbs)
      ensures Clean(old(client.journal), client.journal) ==>
                && (lbID != "" && listenerID != "" ==> forall x | x in client.cloud.listeners :: x.id != listenerID)
                && (lbID != "" && poolID != "" ==> forall x | x in client.cloud.pools :: x.id != poolID)
    {
      hide Shrunk, LbName, LbsSpared, ListenersSpared, PoolsSpared, LbsMarked;
      ghost var c, j := client.cloud, client.journal;
      e := DeleteRecordedLB();
      if e.Some? {
        return;
      }
      ghost var d, k := client.cloud, client.journal;
      DeleteOrphans();
      MarkedIn(c, j, d, k);
      LbsSparedCompose(spec, lbID, c.lbs, d.lbs, client.cloud.lbs);
      ShrunkByCompose(c, j, d, k, client.cloud, client.journal);
      if lbID != "" {
        if Clean(j, k) {
          StaysMarked(d, client.cloud, lbID);
        }
        SeenLonger(j.answers, j.answers, k.answers, client.journal.answers, DeleteLb(lbID));
      }
    }

    /** Deletes the first gateway that carries the cluster's gateway name; a failure is only logged. */
    method DeleteClusterGateway()
      modifies client
      ensures client.cloud == old(client.cloud).(gateways := client.cloud.gateways)
      ensures GatewaysSpared(GatewayName(spec), old(client.cloud).gateways, client.cloud.gateways)
      ensures GatewaysMarked(old(client.cloud).gateways, client.cloud.gateways)
      ensures Calls(old(client.journal), client.journal)
      ensures Clean(old(client.journal), client.journal) ==> GatewayGoing(spec, client.cloud.gateways)
    {
      var gws := client.ListGateways();
      if gws.Ok? {
        var g := FindFirst(GatewayNamed(GatewayName(spec)), gws.value);
        if g.Some? {
          FirstMarked(client.cloud.gateways, GatewayName(spec), g.value.id);
          var warning := client.DeleteGateway(g.value.id);
        }
      }
    }

    /** Deletes the recorded network, but only one that this controller created. */
    method DeleteOwnNetwork() returns (e: Option<Error>)
      modifies client
      ensures client.cloud == old(client.cloud).(networks := client.cloud.networks)
      ensures NetworksSpared(if networkCreated && networkID != "" then {networkID} else {},
                             old(client.cloud).networks, client.cloud.networks)
      ensures NoneAdded(old(client.cloud).networks, client.cloud.networks)
      ensures !networkCreated || networkID == "" ==> e.None? && unchanged(client)
      ensures networkCreated && networkID != "" ==>
                && Ordered(old(client.journal).(history := DeletedNetwork(old(client.journal).history, networkID)),
                           client.journal, DeleteNetwork(networkID))
                && (e.None? <==> Accepted(DeleteNetwork(networkID), LastAnswer(client.journal)))
      ensures Clean(old(client.journal), client.journal) && e.Some? ==>
                var n := First(NetworkWithId(networkID), client.cloud.networks);
                n.Some? && InUse(client.cloud, n.value, client.region) && client.cloud == old(client.cloud)
      ensures Clean(old(client.journal), client.journal) && e.None? && networkCreated && networkID != "" ==>
                forall n | n in client.cloud.networks :: n.id != networkID
    {
      e := None;
      if networkCreated && networkID != "" {
        e := client.DeletePrivateNetwork(networkID);
      }
    }

    /** The DNS record and then the security groups, as far as they are recorded. */
    method CleanupRecords()
      modifies this`recordID, this`groupIDs, client
      ensures client.cloud == old(client.cloud).(groups := client.cloud.groups)
      ensures NoneAdded(old(client.cloud).groups, client.cloud.groups)
      ensures GroupsSpared(old(groupIDs).Values, old(client.cloud).groups, client.cloud.groups)
      ensures Calls(old(client.journal), client.journal)
      ensures RecordsForgotten(old(client.journal).answers, client.journal.answers, spec.dns, old(groupIDs),
                               old(recordID), groupIDs, recordID)
      ensures Clean(old(client.journal), client.journal) ==>
                && groupIDs == map[] && (spec.dns ==> recordID == 0)
                && forall x | x in client.cloud.groups :: x.id !in old(groupIDs).Values
    {
      hide RecordAnswered, GroupsAnswered, NoneAdded, GroupsSpared, RecordsForgotten;
      ghost var a := client.journal.answers;
      CleanupDNS();
      ghost var b := client.journal.answers;
      CleanupSecurityGroups();
      RecordThenGroups(a, b, client.journal.answers, spec.dns, old(groupIDs), old(recordID), groupIDs, recordID);
    }

    /** Forgets DNS and groups, captures the floating IPs, and deletes the load balancers they hang on. */
    method DeleteAroundLB() returns (e: Option<Error>, listed: bool, ids: seq<string>)
      modifies this`recordID, this`groupIDs, client
      ensures Deleting(old(client.cloud), old(client.journal), client.cloud, client.journal)
      ensures client.cloud.gateways == old(client.cloud).gateways && client.cloud.networks == old(client.cloud).networks
      ensures LbsSpared(spec, lbID, old(client.cloud).lbs, client.cloud.lbs)
      ensures ListenersSpared(listenerID, old(client.cloud).listeners, client.cloud.listeners)
      ensures PoolsSpared(poolID, old(client.cloud).pools, client.cloud.pools)
      ensures GroupsSpared(old(groupIDs).Values, old(client.cloud).groups, client.cloud.groups)
      ensures client.cloud.fips == old(client.cloud).fips && old(client.journal).faults <= client.journal.faults
      ensures listed <==> client.journal.fipListFailures == old(client.journal).fipListFailures
      ensures client.journal.fipReads == old(client.journal).fipReads
      ensures CapturedAll(old(client.cloud).fips, lbID, fipID, ids, listed)
      ensures lbID == "" ==> e.None?
      ensures lbID != "" ==>
                if e.None? then AcceptedSince(old(client.journal).answers, client.journal.answers, DeleteLb(lbID))
                else RefusedSince(old(client.journal).answers, client.journal.answers, DeleteLb(lbID))
      ensures Clean(old(client.journal), client.journal) ==> e.None? && listed && LbsGoing(spec, lbID, client.cloud.lbs)
      ensures RecordsForgotten(old(client.journal).answers, client.journal.answers, spec.dns, old(groupIDs),
                               old(recordID), groupIDs, recordID)
      ensures Clean(old(client.journal), client.journal) ==>
                AttachmentsGone(spec, lbID, listenerID, poolID, old(groupIDs).Values, client.cloud, groupIDs, recordID)
    {
      hide Shrunk, ShrunkBy, Deleting, LbsGoing, NoneAdded, LbsSpared, ListenersSpared, PoolsSpared, GroupsSpared,
           RecordsForgotten, AcceptedSince, RefusedSince;
      ghost var c, j := client.cloud, client.journal;
      CleanupRecords();
      ghost var d, k := client.cloud, client.journal;
      SmallDeletes(c, j, d, k);
      listed, ids := CaptureFloatingIPs();
      ghost var k' := client.journal;
      e := DeleteLoadBalancers();
      ghost var l := client.journal;
      DeletingBegins(c, j, d, k, k', client.cloud, l);
      ForgottenLonger(j.answers, k.answers, l.answers, spec.dns, old(groupIDs), old(recordID), groupIDs, recordID);
      SeenLonger(j.answers, k'.answers, l.answers, l.answers, DeleteLb(lbID));
    }

    /** Load balancers and then floating IPs; `requeue` when one of these is still in the way. */
    method DeleteAttachments() returns (e: Option<Error>, requeue: bool)
      modifies this`recordID, this`groupIDs, client
      ensures AttachmentStep(spec, old(client.cloud), old(client.journal), lbID, fipID,
                             client.cloud, client.journal, e, requeue)
      ensures AttachmentsSpared(spec, lbID, listenerID, poolID, fipID, old(groupIDs).Values, old(client.cloud),
                                client.cloud)
      ensures e.Some? ==> !requeue
      ensures RecordsForgotten(old(client.journal).answers, client.journal.answers, spec.dns, old(groupIDs),
                               old(recordID), groupIDs, recordID)
      ensures Clean(old(client.journal), client.journal) ==>
                AttachmentsGone(spec, lbID, listenerID, poolID, old(groupIDs).Values, client.cloud, groupIDs, recordID)
    {
      hide Shrunk, ShrunkBy, Deleting, CapturedAll, LbsGoing, FipsReleased, TrueReads, SomeUp, FipBlocks,
           CapturedReleased, Blocking, LbsSpared, ListenersSpared, PoolsSpared, GroupsSpared, FipsSpared,
           AttachmentsGone;
      ghost var c, j := client.cloud, client.journal;
      var listed, ids;
      e, listed, ids := DeleteAroundLB();
      if e.Some? {
        ReleaseSpares(c.fips, lbID, fipID, c.fips, []);
        return e, false;
      }
      ghost var d, k := client.cloud, client.journal;
      ghost var seen;
      requeue, seen := CleanupFloatingIPs(ids);
      CapturedSpared(c.fips, lbID, fipID, client.cloud.fips, ids, listed);
      DeletingReleases(c, j, d, k, client.cloud, client.journal, ids, ids, seen);
      GoneStays(spec, lbID, listenerID, poolID, old(groupIDs).Values, d, client.cloud, groupIDs, recordID);
      if Clean(j, client.journal) {
        FipWait(c, lbID, fipID, client.cloud, ids);
      }
    }

    /** The gateway, and then the network. */
    method DeleteGround() returns (e: Option<Error>)
      requires client.region == spec.region
      modifies client
      ensures GroundDeleteStep(spec, old(client.cloud), old(client.journal), lbID, networkCreated, networkID,
                               client.cloud, client.journal, e)
    {
      hide LbsGoing, GatewaysMarked, GatewayGoing, InUse, NoneAdded, GatewaysSpared, NetworksSpared;
      DeleteClusterGateway();
      e := DeleteOwnNetwork();
    }

    /** One deleting pass; `out` is `Deleted` exactly when it removes the finalizer. */
    method ReconcileDelete() returns (out: DeleteOutcome)
      requires client.region == spec.region
      modifies this`finalizer, this`recordID, this`groupIDs, client
      ensures DeletePass(spec, old(client.cloud), old(client.journal), old(Status()),
                         client.cloud, client.journal, Status(), out)
    {
      hide DeletePass, AttachmentStep, AttachmentsSpared, AttachmentsGone, RecordsForgotten, GroundDeleteStep;
      ghost var c, j, s := client.cloud, client.journal, Status();
      if spec.keep {
        finalizer := false;
        out := Deleted;
        KeepPass(spec, c, j, s, Status());
      } else {
        var e, requeue := DeleteAttachments();
        ghost var d, k, m := client.cloud, client.journal, Status();
        assert AttachmentsDone(spec, c, j, s, d, k, m, e, requeue);
        hide AttachmentsDone;
        if e.Some? || requeue {
          out := if e.Some? then DeleteFailed(e.value) else DeleteWait;
          EarlyExit(spec, c, j, s, d, k, m, e);
        } else {
          e := DeleteGround();
          if e.None? {
            finalizer := false;
          }
          out := if e.Some? then DeleteWait else Deleted;
          LastStage(spec, c, j, s, d, k, m, client.cloud, client.journal, Status(), e);
        }
      }
    }
  }
}
