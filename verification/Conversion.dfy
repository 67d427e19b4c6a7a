/** Conversion between the v1alpha1 and v1alpha2 APIs: api/v1alpha1/conversion.go. */
module Conversion {
  import opened Sequences
  import opened Errors

  // ----- v1alpha1

  datatype ListenerV1 = ListenerV1(name: string, port: int, protocol: string, backendPort: int)

  datatype NetworkV1 = NetworkV1(privateNetworkID: string, subnetCIDR: string, vlanID: int, gateway: string,
                                 dnsServers: seq<string>)

  datatype LoadBalancerV1 = LoadBalancerV1(subnetID: string, flavorName: string, floatingNetworkID: string,
                                           listeners: seq<ListenerV1>)

  datatype SpecV1 = SpecV1(
    serviceName: string, region: string, identitySecret: (string, string), endpoint: (string, int), sshKeyName: string,
    loadBalancer: LoadBalancerV1, network: Option<NetworkV1>)

  datatype IDs = IDs(
    networkID: string, subnetID: string, loadBalancerID: string, listenerID: string, poolID: string,
    floatingIPID: string, gatewayID: string, registerListenerID: string, registerPoolID: string)

  datatype StatusV1 = StatusV1(
    ready: bool, failureReason: string, failureMessage: string, conditions: seq<string>, ids: IDs, gatewayExposed: bool)

  datatype ClusterV1 = ClusterV1(meta: string, spec: SpecV1, status: StatusV1)

  const EMPTY_IDS := IDs("", "", "", "", "", "", "", "", "")
  const EMPTY_V1 := ClusterV1("",
    SpecV1("", "", ("", ""), ("", 0), "", LoadBalancerV1("", "", "", []), None),
    StatusV1(false, "", "", [], EMPTY_IDS, false))

  // ----- v1alpha2, with what v1alpha1 does not have

  datatype ListenerV2 = ListenerV2(name: string, port: int, protocol: string, backendPort: int)

  datatype NetworkV2 = NetworkV2(privateNetworkID: string, subnetCIDR: string, vlanID: int, gateway: string,
                                 dnsServers: seq<string>)

  datatype LoadBalancerV2 = LoadBalancerV2(
    subnetID: string, flavorName: string, floatingNetworkID: string, listeners: seq<ListenerV2>,
    existingLoadBalancerID: string, existingFloatingIPID: string)

  datatype SpecV2 = SpecV2(
    serviceName: string, region: string, identitySecret: (string, string), endpoint: (string, int), sshKeyName: string,
    loadBalancer: LoadBalancerV2, network: Option<NetworkV2>,
    failureDomains: seq<string>, securityGroups: seq<string>, defaultTags: map<string, string>, dns: Option<string>)

  datatype StatusV2 = StatusV2(
    ready: bool, provisioned: Option<bool>, conditions: seq<string>, ids: IDs, gatewayExposed: bool,
    failureDomains: seq<string>, securityGroupIDs: map<string, string>, dnsRecordID: int)

  datatype ClusterV2 = ClusterV2(meta: string, spec: SpecV2, status: StatusV2)

  const EMPTY_V2 := ClusterV2("",
    SpecV2("", "", ("", ""), ("", 0), "", LoadBalancerV2("", "", "", [], "", ""), None, [], [], map[], None),
    StatusV2(false, None, [], EMPTY_IDS, false, [], map[], 0))

  // ----- the values conversions reach

  predicate Supported(protocol: string) {
    protocol == "TCP" || protocol == "UDP" || protocol == "SCTP"
  }

  predicate AllSupported(listeners: seq<ListenerV1>) {
    forall i | 0 <= i < |listeners| :: Supported(listeners[i].protocol)
  }

  function ConvertProtocol(p: string): Result<string> {
    match p
    case "TCP" => Ok("TCP")
    case "UDP" => Ok("UDP")
    case "SCTP" => Ok("SCTP")
    case "HTTP" => Err(Text("deprecated"))
    case _ => Err(Text("unknown"))
  }

  function UpListener(l: ListenerV1): ListenerV2 {
    ListenerV2(l.name, l.port, l.protocol, l.backendPort)
  }

  function DownListener(l: ListenerV2): ListenerV1 {
    ListenerV1(l.name, l.port, l.protocol, l.backendPort)
  }

  function UpListeners(s: seq<ListenerV1>): (t: seq<ListenerV2>)
    ensures |t| == |s|
  {
    seq(|s|, i requires 0 <= i < |s| => UpListener(s[i]))
  }

  function DownListeners(s: seq<ListenerV2>): (t: seq<ListenerV1>)
    ensures |t| == |s|
  {
    seq(|s|, i requires 0 <= i < |s| => DownListener(s[i]))
  }

  /** `dst` after a successful conversion: what v1alpha1 does not have, and what an empty source leaves alone, stays. */
  function Up(src: ClusterV1, dst: ClusterV2): ClusterV2 {
    var lb := src.spec.loadBalancer;
    ClusterV2(
      src.meta,
      dst.spec.(
        serviceName := src.spec.serviceName, region := src.spec.region, identitySecret := src.spec.identitySecret,
        endpoint := src.spec.endpoint, sshKeyName := src.spec.sshKeyName,
        loadBalancer := dst.spec.loadBalancer.(
          subnetID := lb.subnetID, flavorName := lb.flavorName, floatingNetworkID := lb.floatingNetworkID,
          listeners := if |lb.listeners| > 0 then UpListeners(lb.listeners) else dst.spec.loadBalancer.listeners),
        network := if src.spec.network.Some? then
                     var n := src.spec.network.value;
                     Some(NetworkV2(n.privateNetworkID, n.subnetCIDR, n.vlanID, n.gateway, n.dnsServers))
                   else dst.spec.network),
      dst.status.(ready := src.status.ready, conditions := src.status.conditions, ids := src.status.ids,
                  gatewayExposed := src.status.gatewayExposed))
  }

  function Down(src: ClusterV2, dst: ClusterV1): ClusterV1 {
    var lb := src.spec.loadBalancer;
    ClusterV1(
      src.meta,
      SpecV1(
        src.spec.serviceName, src.spec.region, src.spec.identitySecret, src.spec.endpoint, src.spec.sshKeyName,
        LoadBalancerV1(lb.subnetID, lb.flavorName, lb.floatingNetworkID,
                       if |lb.listeners| > 0 then DownListeners(lb.listeners) else dst.spec.loadBalancer.listeners),
        if src.spec.network.Some? then
          var n := src.spec.network.value;
          Some(NetworkV1(n.privateNetworkID, n.subnetCIDR, n.vlanID, n.gateway, n.dnsServers))
        else dst.spec.network),
      dst.status.(ready := src.status.ready, conditions := src.status.conditions, ids := src.status.ids,
                  gatewayExposed := src.status.gatewayExposed))
  }

  /** What v1alpha1 does not have is left as it was, and so are listeners and network if the source has none. */
  lemma UpKeeps(src: ClusterV1, dst: ClusterV2)
    ensures var r, lb := Up(src, dst), dst.spec.loadBalancer;
            && r.spec.loadBalancer.existingLoadBalancerID == lb.existingLoadBalancerID
            && r.spec.loadBalancer.existingFloatingIPID == lb.existingFloatingIPID
            && (src.spec.loadBalancer.listeners == [] ==> r.spec.loadBalancer.listeners == lb.listeners)
            && (src.spec.network.None? ==> r.spec.network == dst.spec.network)
            && r.spec.failureDomains == dst.spec.failureDomains && r.spec.securityGroups == dst.spec.securityGroups
            && r.spec.defaultTags == dst.spec.defaultTags && r.spec.dns == dst.spec.dns
            && r.status.provisioned == dst.status.provisioned && r.status.failureDomains == dst.status.failureDomains
            && r.status.securityGroupIDs == dst.status.securityGroupIDs
            && r.status.dnsRecordID == dst.status.dnsRecordID
  {
  }

  /**
   * Down again gives back the source exactly if no listeners or network of the object it went up onto took the place of
   * none.
   */
  lemma UpOntoDown(src: ClusterV1, dst: ClusterV2)
    ensures Down(Up(src, dst), src) == src <==>
              && (src.spec.loadBalancer.listeners == [] ==> dst.spec.loadBalancer.listeners == [])
              && (src.spec.network.None? ==> dst.spec.network.None?)
  {
    var listeners := src.spec.loadBalancer.listeners;
    assert DownListeners(UpListeners(listeners)) == listeners;
  }

  /** An object that went down and comes up onto itself is unchanged. */
  lemma DownUpOnto(y: ClusterV2)
    ensures Up(Down(y, EMPTY_V1), y) == y
  {
    var listeners := y.spec.loadBalancer.listeners;
    assert UpListeners(DownListeners(listeners)) == listeners;
  }

  /** Going up and down restores everything but the failure fields, which v1alpha2 does not have. */
  lemma UpDown(x: ClusterV1)
    ensures Down(Up(x, EMPTY_V2), EMPTY_V1) == x.(status := x.status.(failureReason := "", failureMessage := ""))
  {
    var listeners := x.spec.loadBalancer.listeners;
    assert DownListeners(UpListeners(listeners)) == listeners;
  }

  /**
   * Going down loses what v1alpha1 does not have, and nothing more is lost by going up and down again,
   * which is possible exactly when every listener's protocol is supported.
   */
  lemma DownUpDown(y: ClusterV2)
    ensures var x := Down(y, EMPTY_V1);
            && Down(Up(x, EMPTY_V2), EMPTY_V1) == x
            && (AllSupported(x.spec.loadBalancer.listeners) <==>
                  forall i | 0 <= i < |y.spec.loadBalancer.listeners| ::
                      Supported(y.spec.loadBalancer.listeners[i].protocol))
  {
    var x := Down(y, EMPTY_V1);
    UpDown(x);
    var s := y.spec.loadBalancer.listeners;
    if |s| > 0 {
      assert x.spec.loadBalancer.listeners == DownListeners(s);
      assert forall i | 0 <= i < |s| :: DownListeners(s)[i].protocol == s[i].protocol;
    }
  }

  // ----- the objects

  class HubCluster {
    var meta: string
    var spec: SpecV2
    var status: StatusV2

    ghost function Value(): ClusterV2
      reads this
    {
      ClusterV2(meta, spec, status)
    }

    /** A fresh object. */
    constructor ()
      ensures Value() == EMPTY_V2
    {
      meta, spec, status := EMPTY_V2.meta, EMPTY_V2.spec, EMPTY_V2.status;
    }
  }

  class OldCluster {
    var meta: string
    var spec: SpecV1
    var status: StatusV1

    ghost function Value(): ClusterV1
      reads this
    {
      ClusterV1(meta, spec, status)
    }

    /** A fresh object. */
    constructor ()
      ensures Value() == EMPTY_V1
    {
      meta, spec, status := EMPTY_V1.meta, EMPTY_V1.spec, EMPTY_V1.status;
    }

    /** Fails on the first listener whose protocol is not supported, before network and status are written. */
    method ConvertTo(dst: HubCluster) returns (e: Option<Error>)
      modifies dst
      ensures e.None? <==> AllSupported(spec.loadBalancer.listeners)
      ensures e.None? ==> dst.Value() == Up(Value(), old(dst.Value()))
      ensures e.Some? ==> dst.status == old(dst.status) && dst.spec.network == old(dst.spec.network)
      ensures e.Some? ==>
                var s := spec.loadBalancer.listeners;
                exists i | 0 <= i < |s| ::
                  && !Supported(s[i].protocol) && AllSupported(s[..i])
                  && e.value == Wrap(s[i].name, ConvertProtocol(s[i].protocol).error)
    {
      dst.meta := meta;
      dst.spec := dst.spec.(
        serviceName := spec.serviceName, region := spec.region, identitySecret := spec.identitySecret,
        endpoint := spec.endpoint, sshKeyName := spec.sshKeyName);
      e := ConvertLoadBalancerTo(dst);
      if e.Some? {
        return;
      }
      if spec.network.Some? {
        var n := spec.network.value;
        dst.spec := dst.spec.(network := Some(NetworkV2(n.privateNetworkID, n.subnetCIDR, n.vlanID, n.gateway,
                                                        n.dnsServers)));
      }
      var ids := status.ids;
      dst.status := dst.status.(
        ready := status.ready, conditions := status.conditions, gatewayExposed := status.gatewayExposed,
        ids := IDs(ids.networkID, ids.subnetID, ids.loadBalancerID, ids.listenerID, ids.poolID, ids.floatingIPID,
                   ids.gatewayID, ids.registerListenerID, ids.registerPoolID));
    }

    /** The listeners are converted one by one into a list made for all of them. */
    method ConvertLoadBalancerTo(dst: HubCluster) returns (e: Option<Error>)
      modifies dst`spec
      ensures dst.spec == old(dst.spec).(loadBalancer := dst.spec.loadBalancer)
      ensures var lb := spec.loadBalancer;
              && (e.None? <==> AllSupported(lb.listeners))
              && (e.None? ==> dst.spec.loadBalancer == old(dst.spec.loadBalancer).(
                   subnetID := lb.subnetID, flavorName := lb.flavorName, floatingNetworkID := lb.floatingNetworkID,
                   listeners := if |lb.listeners| > 0 then UpListeners(lb.listeners)
                       else old(dst.spec.loadBalancer.listeners)))
              && (e.Some? ==> exists i | 0 <= i < |lb.listeners| ::
                                && !Supported(lb.listeners[i].protocol) && AllSupported(lb.listeners[..i])
                                && e.value == Wrap(lb.listeners[i].name,
                                                   ConvertProtocol(lb.listeners[i].protocol).error))
    {
      var lb := spec.loadBalancer;
      var listeners := dst.spec.loadBalancer.listeners;
      if |lb.listeners| > 0 {
        listeners := seq(|lb.listeners|, i => ListenerV2("", 0, "", 0));
      }
      dst.spec := dst.spec.(loadBalancer := dst.spec.loadBalancer.(
        subnetID := lb.subnetID, flavorName := lb.flavorName, floatingNetworkID := lb.floatingNetworkID,
            listeners := listeners));
      for i := 0 to |lb.listeners|
        invariant dst.spec == old(dst.spec).(loadBalancer := dst.spec.loadBalancer)
        invariant dst.spec.loadBalancer == old(dst.spec.loadBalancer).(
          subnetID := lb.subnetID, flavorName := lb.flavorName, floatingNetworkID := lb.floatingNetworkID,
          listeners := dst.spec.loadBalancer.listeners)
        invariant |lb.listeners| > 0 ==> |dst.spec.loadBalancer.listeners| == |lb.listeners|
        invariant |lb.listeners| == 0 ==> dst.spec.loadBalancer.listeners == listeners
        invariant AllSupported(lb.listeners[..i])
        invariant forall k | 0 <= k < i :: dst.spec.loadBalancer.listeners[k] == UpListener(lb.listeners[k])
      {
        var l := lb.listeners[i];
        var proto := ConvertProtocol(l.protocol);
        if proto.Err? {
          return Some(Wrap(l.name, proto.error));
        }
        dst.spec := dst.spec.(loadBalancer := dst.spec.loadBalancer.(
          listeners := dst.spec.loadBalancer.listeners[i := ListenerV2(l.name, l.port, proto.value, l.backendPort)]));
      }
      assert lb.listeners[..|lb.listeners|] == lb.listeners;
      e := None;
    }

    method ConvertFrom(src: HubCluster)
      modifies this
      ensures Value() == Down(src.Value(), old(Value()))
    {
      meta := src.meta;
      ConvertLoadBalancerFrom(src);
      spec := spec.(
        serviceName := src.spec.serviceName, region := src.spec.region, identitySecret := src.spec.identitySecret,
        endpoint := src.spec.endpoint, sshKeyName := src.spec.sshKeyName);
      if src.spec.network.Some? {
        var n := src.spec.network.value;
        spec := spec.(network := Some(NetworkV1(n.privateNetworkID, n.subnetCIDR, n.vlanID, n.gateway, n.dnsServers)));
      }
      var ids := src.status.ids;
      status := status.(
        ready := src.status.ready, conditions := src.status.conditions, gatewayExposed := src.status.gatewayExposed,
        ids := IDs(ids.networkID, ids.subnetID, ids.loadBalancerID, ids.listenerID, ids.poolID, ids.floatingIPID,
                   ids.gatewayID, ids.registerListenerID, ids.registerPoolID));
    }

    method ConvertLoadBalancerFrom(src: HubCluster)
      modifies this`spec
      ensures var lb := src.spec.loadBalancer;
              spec == old(spec).(loadBalancer := LoadBalancerV1(
                lb.subnetID, lb.flavorName, lb.floatingNetworkID,
                if |lb.listeners| > 0 then DownListeners(lb.listeners) else old(spec).loadBalancer.listeners))
    {
      var lb := src.spec.loadBalancer;
      var listeners := spec.loadBalancer.listeners;
      if |lb.listeners| > 0 {
        listeners := seq(|lb.listeners|, i => ListenerV1("", 0, "", 0));
        for i := 0 to |lb.listeners|
          invariant |listeners| == |lb.listeners|
          invariant forall k | 0 <= k < i :: listeners[k] == DownListener(lb.listeners[k])
        {
          var l := lb.listeners[i];
          listeners := listeners[i := ListenerV1(l.name, l.port, l.protocol, l.backendPort)];
        }
        assert listeners == DownListeners(lb.listeners);
      }
      spec := spec.(loadBalancer := LoadBalancerV1(lb.subnetID, lb.flavorName, lb.floatingNetworkID, listeners));
    }
  }

  // ----- machines

  datatype VolumeV1 = VolumeV1(name: string, sizeGB: int, kind: string)

  datatype VolumeV2 = VolumeV2(name: string, sizeGB: int, kind: string)

  datatype MachineSpecV1 = MachineSpecV1(
    providerID: string, flavorName: string, imageName: string, sshKeyName: string, rootDiskSize: int,
    volumes: seq<VolumeV1>, failureDomain: string)

  datatype MachineStatusV1 = MachineStatusV1(
    ready: bool, conditions: seq<string>, failureReason: string, failureMessage: string, addresses: seq<string>,
    provisioned: bool, instanceID: string, volumeIDs: seq<string>, memberID: string, registerMemberID: string)

  datatype MachineV1 = MachineV1(meta: string, spec: MachineSpecV1, status: MachineStatusV1)

  datatype MachineSpecV2 = MachineSpecV2(
    providerID: string, flavorName: string, imageName: string, sshKeyName: string, rootDiskSize: int,
    volumes: seq<VolumeV2>, failureDomain: string,
    groupNames: seq<string>, tags: map<string, string>, bootstrapFormat: string, existingInstanceID: string)

  datatype MachineStatusV2 = MachineStatusV2(
    ready: bool, conditions: seq<string>, addresses: seq<string>,
    provisioned: Option<bool>, instanceID: string, volumeIDs: seq<string>, memberID: string, registerMemberID: string)

  datatype MachineV2 = MachineV2(meta: string, spec: MachineSpecV2, status: MachineStatusV2)

  const EMPTY_MACHINE_V1 := MachineV1("",
    MachineSpecV1("", "", "", "", 0, [], ""), MachineStatusV1(false, [], "", "", [], false, "", [], "", ""))
  const EMPTY_MACHINE_V2 := MachineV2("",
    MachineSpecV2("", "", "", "", 0, [], "", [], map[], "", ""), MachineStatusV2(false, [], [], None, "", [], "", ""))

  function UpVolumes(s: seq<VolumeV1>): (t: seq<VolumeV2>)
    ensures |t| == |s|
  {
    seq(|s|, i requires 0 <= i < |s| => VolumeV2(s[i].name, s[i].sizeGB, s[i].kind))
  }

  function DownVolumes(s: seq<VolumeV2>): (t: seq<VolumeV1>)
    ensures |t| == |s|
  {
    seq(|s|, i requires 0 <= i < |s| => VolumeV1(s[i].name, s[i].sizeGB, s[i].kind))
  }

  function MachineUp(src: MachineV1, dst: MachineV2): MachineV2 {
    MachineV2(
      src.meta,
      dst.spec.(providerID := src.spec.providerID, flavorName := src.spec.flavorName, imageName := src.spec.imageName,
                sshKeyName := src.spec.sshKeyName, rootDiskSize := src.spec.rootDiskSize,
                volumes := if |src.spec.volumes| > 0 then UpVolumes(src.spec.volumes) else dst.spec.volumes,
                failureDomain := src.spec.failureDomain),
      MachineStatusV2(src.status.ready, src.status.conditions, src.status.addresses, Some(src.status.provisioned),
                      src.status.instanceID, src.status.volumeIDs, src.status.memberID, src.status.registerMemberID))
  }

  /** A provisioned mark that was never set becomes false. */
  function MachineDown(src: MachineV2, dst: MachineV1): MachineV1 {
    MachineV1(
      src.meta,
      MachineSpecV1(src.spec.providerID, src.spec.flavorName, src.spec.imageName, src.spec.sshKeyName,
                    src.spec.rootDiskSize,
                    if |src.spec.volumes| > 0 then DownVolumes(src.spec.volumes) else dst.spec.volumes,
                    src.spec.failureDomain),
      dst.status.(ready := src.status.ready, conditions := src.status.conditions, addresses := src.status.addresses,
                  provisioned := src.status.provisioned == Some(true), instanceID := src.status.instanceID,
                  volumeIDs := src.status.volumeIDs, memberID := src.status.memberID,
                  registerMemberID := src.status.registerMemberID))
  }

  /** What v1alpha1 does not have is left as it was, and so are the volumes if the source has none. */
  lemma MachineUpKeeps(src: MachineV1, dst: MachineV2)
    ensures var r := MachineUp(src, dst);
            && r.spec.groupNames == dst.spec.groupNames && r.spec.tags == dst.spec.tags
            && r.spec.bootstrapFormat == dst.spec.bootstrapFormat
            && r.spec.existingInstanceID == dst.spec.existingInstanceID
            && (src.spec.volumes == [] ==> r.spec.volumes == dst.spec.volumes)
    ensures MachineDown(MachineUp(src, dst), src) == src <==> (src.spec.volumes == [] ==> dst.spec.volumes == [])
  {
    assert DownVolumes(UpVolumes(src.spec.volumes)) == src.spec.volumes;
  }

  /** Going down and up onto itself only sets the provisioned mark, if it was not set. */
  lemma MachineDownUpOnto(y: MachineV2)
    ensures MachineUp(MachineDown(y, EMPTY_MACHINE_V1), y) ==
            y.(status := y.status.(provisioned := Some(y.status.provisioned == Some(true))))
  {
    assert UpVolumes(DownVolumes(y.spec.volumes)) == y.spec.volumes;
  }

  /** Going up and down restores everything but the failure fields. */
  lemma MachineUpDown(x: MachineV1)
    ensures MachineDown(MachineUp(x, EMPTY_MACHINE_V2), EMPTY_MACHINE_V1) ==
            x.(status := x.status.(failureReason := "", failureMessage := ""))
  {
    assert DownVolumes(UpVolumes(x.spec.volumes)) == x.spec.volumes;
  }

  /** After going down, going up and down again loses nothing more; up again the mark is always set. */
  lemma MachineDownUpDown(y: MachineV2)
    ensures var x := MachineDown(y, EMPTY_MACHINE_V1);
            && MachineDown(MachineUp(x, EMPTY_MACHINE_V2), EMPTY_MACHINE_V1) == x
            && (MachineUp(x, EMPTY_MACHINE_V2).status.provisioned == y.status.provisioned <==>
                y.status.provisioned.Some?)
  {
    MachineUpDown(MachineDown(y, EMPTY_MACHINE_V1));
    match y.status.provisioned
    case None =>
    case Some(mark) => assert MachineDown(y, EMPTY_MACHINE_V1).status.provisioned == mark;
  }

  class HubMachine {
    var meta: string
    var spec: MachineSpecV2
    var status: MachineStatusV2

    ghost function Value(): MachineV2
      reads this
    {
      MachineV2(meta, spec, status)
    }

    /** A fresh object. */
    constructor ()
      ensures Value() == EMPTY_MACHINE_V2
    {
      meta, spec, status := EMPTY_MACHINE_V2.meta, EMPTY_MACHINE_V2.spec, EMPTY_MACHINE_V2.status;
    }
  }

  class OldMachine {
    var meta: string
    var spec: MachineSpecV1
    var status: MachineStatusV1

    ghost function Value(): MachineV1
      reads this
    {
      MachineV1(meta, spec, status)
    }

    /** A fresh object. */
    constructor ()
      ensures Value() == EMPTY_MACHINE_V1
    {
      meta, spec, status := EMPTY_MACHINE_V1.meta, EMPTY_MACHINE_V1.spec, EMPTY_MACHINE_V1.status;
    }

    method ConvertTo(dst: HubMachine)
      modifies dst
      ensures dst.Value() == MachineUp(Value(), old(dst.Value()))
    {
      dst.meta := meta;
      var volumes := dst.spec.volumes;
      if |spec.volumes| > 0 {
        volumes := seq(|spec.volumes|, i => VolumeV2("", 0, ""));
        for i := 0 to |spec.volumes|
          invariant |volumes| == |spec.volumes|
          invariant forall k | 0 <= k < i :: volumes[k] == UpVolumes(spec.volumes)[k]
        {
          var v := spec.volumes[i];
          volumes := volumes[i := VolumeV2(v.name, v.sizeGB, v.kind)];
        }
        assert volumes == UpVolumes(spec.volumes);
      }
      dst.spec := dst.spec.(
        providerID := spec.providerID, flavorName := spec.flavorName, imageName := spec.imageName,
        sshKeyName := spec.sshKeyName, rootDiskSize := spec.rootDiskSize, failureDomain := spec.failureDomain,
        volumes := volumes);
      dst.status := dst.status.(
        ready := status.ready, conditions := status.conditions, addresses := status.addresses,
        provisioned := Some(status.provisioned), instanceID := status.instanceID, volumeIDs := status.volumeIDs,
        memberID := status.memberID, registerMemberID := status.registerMemberID);
    }

    method ConvertFrom(src: HubMachine)
      modifies this
      ensures Value() == MachineDown(src.Value(), old(Value()))
    {
      meta := src.meta;
      var volumes := spec.volumes;
      if |src.spec.volumes| > 0 {
        volumes := seq(|src.spec.volumes|, i => VolumeV1("", 0, ""));
        for i := 0 to |src.spec.volumes|
          invariant |volumes| == |src.spec.volumes|
          invariant forall k | 0 <= k < i :: volumes[k] == DownVolumes(src.spec.volumes)[k]
        {
          var v := src.spec.volumes[i];
          volumes := volumes[i := VolumeV1(v.name, v.sizeGB, v.kind)];
        }
        assert volumes == DownVolumes(src.spec.volumes);
      }
      spec := MachineSpecV1(src.spec.providerID, src.spec.flavorName, src.spec.imageName, src.spec.sshKeyName,
                            src.spec.rootDiskSize, volumes, src.spec.failureDomain);
      var provisioned := if src.status.provisioned.Some? then src.status.provisioned.value else false;
      status := status.(
        ready := src.status.ready, conditions := src.status.conditions, addresses := src.status.addresses,
        provisioned := provisioned, instanceID := src.status.instanceID, volumeIDs := src.status.volumeIDs,
        memberID := src.status.memberID, registerMemberID := src.status.registerMemberID);
    }
  }
}
