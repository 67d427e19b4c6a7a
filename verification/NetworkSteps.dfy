/** Network, security group and DNS steps of a reconciling pass. */
module NetworkSteps {
  import opened Sequences
  import opened CloudModel
  import opened Errors
  import opened OvhClient
  import opened ClusterModel

  // ----- network

  datatype NetworkResult = NetworkOk | NetworkNotReady | NetworkFailed(error: Error)

  predicate NetworkExists(networks: seq<Network>, id: string) {
    First(NetworkWithId(id), networks).Some?
  }

  predicate NetworkActive(networks: seq<Network>, id: string, region: string) {
    && NetworkExists(networks, id)
    && StatusIn(First(NetworkWithId(id), networks).value.regions, region) == "ACTIVE"
  }

  predicate SubnetSettled(subnets: seq<Subnet>, networkID: string, subnetID: string, cidr: string) {
    subnetID != "" || (Keep(SubnetOf(networkID), subnets) == [] && cidr == "")
  }

  /** A subnet to record: the first of the network, or if it had none a new one. */
  predicate SubnetChosen(networkID: string, before: seq<Subnet>, after: seq<Subnet>, id: string) {
    var x := First(SubnetOf(networkID), before);
    if x.Some? then id == x.value.id else exists i | |before| <= i < |after| :: after[i].id == id
  }

  /**
   * A recorded network is kept, or forgotten with its subnet; a recorded subnet is kept or forgotten. Subnets are added
   * only to the network, and only if none is recorded and it has none.
   */
  predicate SubnetStep(
    networkID: string, subnetID: string, before: seq<Subnet>, networkID': string, subnetID': string, after: seq<Subnet>)
  {
    && (networkID == "" || networkID' == networkID || (networkID' == "" && subnetID' == ""))
    && before <= after && (forall i | |before| <= i < |after| :: after[i].networkID == networkID')
    && (subnetID != "" || First(SubnetOf(networkID'), before).Some? ==> after == before)
    && (subnetID' == "" ||
        if subnetID != "" then subnetID' == subnetID
        else networkID' != "" && SubnetChosen(networkID', before, after, subnetID'))
  }

  /** Between two moments a read of the network, or if none was recorded of any, answered that it is missing. */
  predicate NetworkMissing(a: seq<Answer>, b: seq<Answer>, networkID: string) {
    exists i | |a| <= i < |b| ::
      b[i].request.ReadNetwork? && (networkID == "" || b[i].request.id == networkID) && Missing(b[i].error)
  }

  /** A recorded network or subnet is only forgotten after such an answer. */
  predicate NetworkForgets(
    a: seq<Answer>, b: seq<Answer>, networkID: string, subnetID: string, networkID': string, subnetID': string)
  {
    (networkID != "" && networkID' != networkID) || (subnetID != "" && subnetID' != subnetID) ==>
      NetworkMissing(a, b, networkID)
  }

  lemma NetworkForgetsLonger(
    a: seq<Answer>, b: seq<Answer>, c: seq<Answer>, d: seq<Answer>, networkID: string, subnetID: string,
    networkID': string, subnetID': string)
    requires a <= b <= c <= d && NetworkForgets(b, c, networkID, subnetID, networkID', subnetID')
    ensures NetworkForgets(a, d, networkID, subnetID, networkID', subnetID')
  {
    assert forall i | |b| <= i < |c| :: c[i] == d[i];
    hide Missing;
  }

  /** One read of the network in use, and what it made of what was recorded. */
  lemma NetworkRead(
    j: Journal, k: Journal, networkID: string, subnetID: string, networkID': string, subnetID': string)
    requires Asked(j, k, ReadNetwork(networkID))
    requires !Missing(LastAnswer(k)) ==> networkID' == networkID && (subnetID != "" ==> subnetID' == subnetID)
    ensures NetworkForgets(j.answers, k.answers, networkID, subnetID, networkID', subnetID')
    ensures NetworkForgets(j.answers, k.answers, "", subnetID, networkID', subnetID')
    ensures MissingSince(j.answers, k.answers, ReadNetwork(networkID)) <==> Missing(LastAnswer(k))
  {
    assert k.answers[|j.answers|] == Answer(ReadNetwork(networkID), LastAnswer(k));
    hide Missing;
    OneAnswer(j, k, ReadNetwork(networkID));
  }

  /** The network and subnet are recorded, and the network is active. */
  predicate NetworkSettled(spec: ClusterSpec, c: Cloud, networkID: string, subnetID: string) {
    spec.network.Some? ==>
      && networkID != "" && NetworkActive(c.networks, networkID, spec.region)
      && SubnetSettled(c.subnets, networkID, subnetID, spec.network.value.subnetCIDR)
  }

  /** Whatever fails: the pass goes on only if the network is settled, and waits only for one that is not active yet. */
  predicate NetworkVerdict(spec: ClusterSpec, c: Cloud, networkID: string, subnetID: string, r: NetworkResult) {
    match r
    case NetworkOk => NetworkSettled(spec, c, networkID, subnetID)
    case NetworkNotReady =>
      && spec.network.Some? && NetworkExists(c.networks, networkID)
      && !NetworkActive(c.networks, networkID, spec.region)
    case NetworkFailed(_) => true
  }

  /** Only networks and subnets changed. */
  predicate NetworkFrame(c: Cloud, d: Cloud) {
    && SameCounted(c, d)
    && c.monitors == d.monitors && c.gateways == d.gateways && c.groups == d.groups
    && c.records == d.records && c.flavors == d.flavors
  }

  /** A network that is recorded or named by the user is never created, nor is any without a configuration. */
  predicate NeedsNetwork(spec: ClusterSpec, networkID: string) {
    spec.network.Some? && networkID == "" && !NamesNetwork(spec)
  }

  /** One network of the cluster's name, under a new ID, was added at the end. */
  predicate NetworkAdded(spec: ClusterSpec, c: Cloud, d: Cloud, id: string) {
    && |d.networks| == |c.networks| + 1 && c.networks <= d.networks
    && d.networks[|c.networks|].id == id && id != "" && id !in c.issued
    && d.networks[|c.networks|].name == NetworkName(spec)
  }

  /** The list of networks changes only if one is needed, and without faults by exactly that one. */
  predicate NetworksStep(
    spec: ClusterSpec, c: Cloud, j: Journal, networkID: string, d: Cloud, k: Journal, networkID': string)
  {
    && (!NeedsNetwork(spec, networkID) ==> d.networks == c.networks)
    && (NeedsNetwork(spec, networkID) && Clean(j, k) ==> NetworkAdded(spec, c, d, networkID'))
  }

  /**
   * What a fault-free network step achieves: all of it, a network that is only waiting, or the loss of one that is
   * gone.
   */
  predicate NetworkProgress(
    spec: ClusterSpec, c: Cloud, networkID: string, subnetID: string,
    d: Cloud, networkID': string, subnetID': string, r: NetworkResult)
  {
    spec.network.Some? ==>
      match r
      case NetworkOk =>
        && NetworkSettled(spec, d, networkID', subnetID')
        && (networkID != "" ==> networkID' == networkID && d.networks == c.networks)
        && (subnetID != "" ==> subnetID' == subnetID)
      case NetworkNotReady =>
        && networkID' != "" && NetworkExists(d.networks, networkID')
        && !NetworkActive(d.networks, networkID', spec.region)
        && (networkID != "" ==> networkID' == networkID && d == c)
        && subnetID' == subnetID
      case NetworkFailed(_) =>
        var id := if networkID != "" then networkID else spec.network.value.privateNetworkID;
        id != "" && !NetworkExists(c.networks, id)
  }

  lemma NetworkKept(spec: ClusterSpec, c: Cloud, j: Journal, d: Cloud, k: Journal)
    requires NetworkFrame(c, d) && Later(j, k) && HistoryKept(spec, c.issued, j.history, d.networks, k.history)
    requires NewNetworks(spec, c.networks, d.networks) && NewSubnets(spec, c.subnets, d.subnets)
    requires ValidCloud(c) ==> forall x | x in d.subnets :: x.id != ""
    ensures Kept(spec, c, j, d, k)
  {
    SameCountedKeeps(c, j, d, k);
  }

  // ----- security groups and DNS

  predicate GroupsSettled(names: seq<string>, groupIDs: map<string, string>) {
    forall n | n in names :: n in groupIDs && groupIDs[n] != ""
  }

  predicate GroupFrame(c: Cloud, d: Cloud) {
    && d == c.(groups := d.groups, issued := d.issued) && c.issued <= d.issued
    && ((forall x | x in c.groups :: x.id != "") ==> forall x | x in d.groups :: x.id != "")
  }

  function GroupName(spec: ClusterSpec, name: string): string {
    "capi-" + spec.clusterName + "-" + name
  }

  predicate GroupNamed(spec: ClusterSpec, groups: seq<SecurityGroup>, id: string, name: string) {
    exists x | x in groups :: x.id == id && x.name == GroupName(spec, name)
  }

  /** A recorded security group was recorded before, or carries the cluster's name for it. */
  predicate GroupSource(
    spec: ClusterSpec, groups: seq<SecurityGroup>, before: map<string, string>, groupIDs: map<string, string>)
  {
    forall n | n in groupIDs :: (n in before && groupIDs[n] == before[n]) || GroupNamed(spec, groups, groupIDs[n], n)
  }

  /** A group is only created if the list shows none of its name, and only one that the cluster asks for. */
  predicate NewGroups(spec: ClusterSpec, s: seq<SecurityGroup>, t: seq<SecurityGroup>) {
    s <= t && forall i | |s| <= i < |t| :: MissingGroup(spec, s, t[i].name)
  }

  predicate MissingGroup(spec: ClusterSpec, s: seq<SecurityGroup>, name: string) {
    (exists n | n in spec.groups :: name == GroupName(spec, n)) && forall x | x in s :: x.name != name
  }

  predicate GroupRecorded(groupIDs: map<string, string>, name: string) {
    name in groupIDs && groupIDs[name] != ""
  }

  /** One group may have been created, and one may have been recorded: the one of this name. */
  predicate GroupAdded(
    spec: ClusterSpec, name: string, c: Cloud, before: map<string, string>, d: Cloud, groupIDs: map<string, string>)
  {
    && GroupFrame(c, d) && c.groups <= d.groups
    && (forall i | |c.groups| <= i < |d.groups| :: d.groups[i].name == GroupName(spec, name))
    && (groupIDs == before ||
        (GroupRecorded(groupIDs, name) && groupIDs == before[name := groupIDs[name]]
         && GroupNamed(spec, d.groups, groupIDs[name], name)))
  }

  /** For every group listed, the ID of one of its name; and no others. */
  predicate KnownGroups(groups: seq<SecurityGroup>, existing: map<string, string>) {
    && (forall n | n in existing ::
          existing[n] != "" && exists x | x in groups :: x.id == existing[n] && x.name == n)
    && (forall x | x in groups :: x.name in existing)
  }

  /** Any number of groups were created or recorded, whatever failed. */
  predicate GroupsTaken(
    spec: ClusterSpec, c: Cloud, first: map<string, string>, d: Cloud, groupIDs: map<string, string>)
  {
    GroupFrame(c, d) && NewGroups(spec, c.groups, d.groups) && GroupSource(spec, d.groups, first, groupIDs)
  }

  lemma NoGroupsTaken(spec: ClusterSpec, c: Cloud, groupIDs: map<string, string>)
    ensures GroupsTaken(spec, c, groupIDs, c, groupIDs)
  {
  }

  lemma GroupsAdded(
    spec: ClusterSpec, names: seq<string>, name: string, c: Cloud, first: map<string, string>,
    d: Cloud, before: map<string, string>, e: Cloud, groupIDs: map<string, string>, existing: map<string, string>)
    requires GroupsTaken(spec, c, first, d, before) && GroupAdded(spec, name, d, before, e, groupIDs)
    requires name in spec.groups && KnownGroups(c.groups, existing)
    requires GroupName(spec, name) in existing ==> e == d
    ensures GroupsTaken(spec, c, first, e, groupIDs) && c.groups <= e.groups
    ensures GroupsSettled(names, before) && GroupRecorded(groupIDs, name) ==> GroupsSettled(names + [name], groupIDs)
  {
    hide GroupName;
    forall i | |c.groups| <= i < |e.groups| ensures MissingGroup(spec, c.groups, e.groups[i].name) {
      if i < |d.groups| { assert e.groups[i] == d.groups[i]; }
    }
    forall n | n in groupIDs
      ensures (n in first && groupIDs[n] == first[n]) || GroupNamed(spec, e.groups, groupIDs[n], n)
    {
      if n in before && groupIDs[n] == before[n] {
        assert (n in first && before[n] == first[n]) || GroupNamed(spec, d.groups, before[n], n);
      }
    }
  }

  /** The IDs of the listed groups by name; a later group hides an earlier one of its name. */
  function GroupsByName(groups: seq<SecurityGroup>): (m: map<string, string>)
    ensures forall n | n in m :: exists x | x in groups :: x.id == m[n] && x.name == n
    ensures forall x | x in groups :: x.name in m
  {
    if groups == [] then map[]
    else
      var last := groups[|groups| - 1];
      GroupsByName(groups[..|groups| - 1])[last.name := last.id]
  }

  /** A newly recorded DNS record is one that the service made just now. */
  predicate RecordMade(c: Cloud, recordID: int, d: Cloud, recordID': int) {
    recordID' == recordID || (recordID == 0 && c.records < d.records && recordID' == d.records)
  }

  predicate DnsFrame(c: Cloud, d: Cloud) {
    d == c.(records := d.records)
  }

  predicate DnsSettled(spec: ClusterSpec, host: string, recordID: int) {
    !spec.dns || recordID != 0 || host == ""
  }
}
