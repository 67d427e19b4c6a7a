/** The resources the OVH API manages, as one value, and the journal of what a controller did to them. */
module CloudModel {
  import opened Sequences
  import opened Errors

  datatype NetworkRegion = NetworkRegion(region: string, status: string, openStackID: string)

  datatype Network = Network(id: string, name: string, regions: seq<NetworkRegion>)

  datatype Subnet = Subnet(id: string, networkID: string, cidr: string, start: string, end: string)

  datatype FipRef = FipRef(id: string, ip: string)

  /** `listed` is false from the POST until the asynchronous create shows up in the list. */
  datatype LoadBalancer = LoadBalancer(
    id: string, name: string, status: string, vip: string, network: string,
    fip: Option<FipRef>, listed: bool, deleting: bool)

  datatype Listener = Listener(id: string, name: string, port: int, lbIDs: seq<string>)

  datatype Pool = Pool(id: string, name: string, listenerID: string, lbID: string)

  datatype Monitor = Monitor(id: string, name: string, poolID: string)

  datatype Member = Member(id: string, poolID: string, address: string, port: int)

  /** `entity` is the load balancer (or instance) the address is attached to. */
  datatype FloatingIP = FloatingIP(id: string, ip: string, status: string, entity: Option<string>)

  datatype Gateway = Gateway(id: string, name: string, network: string, exposed: bool, deleting: bool)

  datatype Address = Address(ip: string, version: int, kind: string)

  datatype Instance = Instance(id: string, name: string, status: string, addresses: seq<Address>)

  datatype SecurityGroup = SecurityGroup(id: string, name: string)

  /**
   * DNS records are numbered from 1; `issued` holds every ID the service ever handed out; new objects never reuse one.
   */
  datatype Cloud = Cloud(
    networks: seq<Network>, subnets: seq<Subnet>, lbs: seq<LoadBalancer>,
    listeners: seq<Listener>, pools: seq<Pool>, monitors: seq<Monitor>, members: seq<Member>,
    fips: seq<FloatingIP>, gateways: seq<Gateway>, instances: seq<Instance>,
    groups: seq<SecurityGroup>, records: nat, flavors: set<string>, issued: set<string>)

  /** The status of a network in a region: that of its first entry for the region, or "". */
  function StatusIn(regions: seq<NetworkRegion>, region: string): string {
    if regions == [] then ""
    else if regions[0].region == region then regions[0].status
    else StatusIn(regions[1..], region)
  }

  function OpenStackIDIn(regions: seq<NetworkRegion>, region: string): string {
    if regions == [] then ""
    else if regions[0].region == region then regions[0].openStackID
    else OpenStackIDIn(regions[1..], region)
  }

  predicate FirstOfRegion(regions: seq<NetworkRegion>, region: string, i: nat) {
    i < |regions| && regions[i].region == region && forall n | 0 <= n < i :: regions[n].region != region
  }

  /** A network's status in a region, and its ID there, are those of the first entry for the region. */
  lemma {:induction false} RegionLookup(regions: seq<NetworkRegion>, region: string)
    ensures forall i: nat | FirstOfRegion(regions, region, i) ::
              StatusIn(regions, region) == regions[i].status && OpenStackIDIn(regions, region) == regions[i].openStackID
    ensures (forall i: nat :: !FirstOfRegion(regions, region, i)) ==>
              StatusIn(regions, region) == "" && OpenStackIDIn(regions, region) == ""
  {
    if regions != [] {
      if regions[0].region == region {
        assert FirstOfRegion(regions, region, 0);
      } else {
        RegionLookup(regions[1..], region);
        forall i: nat ensures FirstOfRegion(regions[1..], region, i) <==> FirstOfRegion(regions, region, i + 1) {
        }
        forall i: nat | FirstOfRegion(regions, region, i) ensures FirstOfRegion(regions[1..], region, i - 1) {
        }
      }
    }
  }

  // ----- keys under which duplicates are counted

  function LbNamed(name: string): LoadBalancer -> bool {
    (x: LoadBalancer) => x.name == name
  }

  function ListenerKey(name: string, lbID: string): Listener -> bool {
    (x: Listener) => x.name == name && lbID in x.lbIDs
  }

  function PoolKey(name: string, lbID: string): Pool -> bool {
    (x: Pool) => x.name == name && x.lbID == lbID
  }

  function InstanceNamed(name: string): Instance -> bool {
    (x: Instance) => x.name == name
  }

  function MemberKey(poolID: string, address: string, port: int): Member -> bool {
    (x: Member) => x.poolID == poolID && x.address == address && x.port == port
  }

  function AttachedTo(lbID: string): FloatingIP -> bool {
    (x: FloatingIP) => x.entity == Some(lbID)
  }

  // ----- what the controller did

  /**
   * `faults` counts API attempts that failed for no reason the service state gives;
   * `lost` counts mutating attempts that took effect although they reported a failure;
   * `writes` counts mutating client calls, whatever their outcome; `failedLookups` and `hiddenLookups`
   * count load balancer lookups before a POST that failed, or that ran while the list hid one of the name;
   * `lookups` has every load balancer lookup by name, and `answers` what the API answered to each call that names an ID
   * and whose answer decides something.
   */
  datatype Journal = Journal(
    faults: nat, lost: nat, writes: nat, slept: nat,
    failedLookups: nat, hiddenLookups: nat, fipListFailures: nat, memberListFailures: nat,
    fipReads: seq<FipRead>, lookups: seq<Lookup>, answers: seq<Answer>, history: History)

  /** Calls that name one object by its ID and whose making or answer matters. */
  datatype Request =
    | ReadNetwork(id: string) | ReadLb(id: string) | ReadFip(id: string) | ReadInstance(id: string)
    | DeleteNetwork(id: string) | DeleteLb(id: string) | DeleteInstance(id: string) | DeleteGroup(id: string)
    | DeleteMember(poolID: string, id: string) | DeleteRecord(number: int) | ExposeGateway(id: string)
    | DetachVolume(id: string, instanceID: string) | DeleteVolume(id: string)

  /** The final answer of the API to one request: success, or the error that the last attempt got. */
  datatype Answer = Answer(request: Request, error: Option<Error>)

  /** One lookup by name: the load balancer that the list showed, unless the lookup failed. */
  datatype Lookup = Lookup(name: string, shown: Option<LoadBalancer>, failed: bool)

  /** One read of a floating IP: what the service showed under the ID, unless the read failed. */
  datatype FipRead = FipRead(id: string, seen: Option<FloatingIP>, failed: bool)

  /** IDs that create calls returned and delete calls named. */
  datatype History = History(networksCreated: set<string>, networksDeleted: set<string>)

  // ----- what an answer means

  /** There is no such object: status 404, or an error without a status whose text says so. */
  predicate Missing(error: Option<Error>) {
    && error.Some?
    && match ApiCode(error.value)
       case Some(code) => code == 404
       case None => Contains(Render(error.value), "404") || Contains(Render(error.value), "not found")
  }

  /** The object is in the middle of being deleted or changed: status 409 and a text that says so. */
  predicate InTransition(error: Option<Error>) {
    && error.Some? && ApiCode(error.value) == Some(409)
    && (Contains(Render(error.value), "PENDING_DELETE") || Contains(Render(error.value), "PENDING_UPDATE"))
  }

  /** A call got what it asked for: for an exposure a conflict says so, for a delete that the object is missing. */
  predicate Accepted(request: Request, error: Option<Error>) {
    || error.None?
    || (if request.ExposeGateway? then ApiCode(error.value) == Some(409) else Missing(error))
    || (request.DeleteLb? && InTransition(error))
  }

  lemma MissingIsNotFound(e: Error)
    ensures IsNotFound(e) <==> Missing(Some(e))
    ensures IsNotFound(Wrap("", e)) <==> Missing(Some(e))
    ensures IsAlreadyDeleting(e) <==> InTransition(Some(e))
  {
    assert "" + Render(e) == Render(e);
  }

  /** Between two moments this request was answered, and the object is missing. */
  predicate MissingSince(a: seq<Answer>, b: seq<Answer>, request: Request) {
    exists i | |a| <= i < |b| :: b[i].request == request && Missing(b[i].error)
  }

  /** Between two moments this request was answered, and accepted. */
  predicate AcceptedSince(a: seq<Answer>, b: seq<Answer>, request: Request) {
    exists i | |a| <= i < |b| :: b[i].request == request && Accepted(request, b[i].error)
  }

  /** Between two moments this request was made, whatever its answer. */
  predicate MadeSince(a: seq<Answer>, b: seq<Answer>, request: Request) {
    exists i | |a| <= i < |b| :: b[i].request == request
  }

  predicate RefusedSince(a: seq<Answer>, b: seq<Answer>, request: Request) {
    exists i | |a| <= i < |b| :: b[i].request == request && !Accepted(request, b[i].error)
  }

  /** A longer stretch of time has seen what a shorter one has. */
  lemma SeenLonger(a: seq<Answer>, b: seq<Answer>, c: seq<Answer>, d: seq<Answer>, request: Request)
    requires a <= b <= c <= d
    ensures MissingSince(b, c, request) ==> MissingSince(a, d, request)
    ensures AcceptedSince(b, c, request) ==> AcceptedSince(a, d, request)
    ensures RefusedSince(b, c, request) ==> RefusedSince(a, d, request)
    ensures MadeSince(b, c, request) ==> MadeSince(a, d, request)
  {
    assert forall i | |b| <= i < |c| :: c[i] == d[i];
    hide Missing, Accepted;
  }

  /** The answer to the last journalled request. */
  function LastAnswer(j: Journal): Option<Error> {
    if j.answers == [] then None else j.answers[|j.answers| - 1].error
  }

  /** One read of an object by its ID. */
  predicate Asked(j: Journal, k: Journal, request: Request) {
    && k.answers == j.answers + [Answer(request, LastAnswer(k))]
    && Reads(j.(answers := k.answers), k)
  }

  /** One delete or exposure of an object by its ID. */
  predicate Ordered(j: Journal, k: Journal, request: Request) {
    && k.answers == j.answers + [Answer(request, LastAnswer(k))]
    && Writes(j.(answers := k.answers), k)
  }

  lemma OneAnswer(j: Journal, k: Journal, request: Request)
    requires k.answers == j.answers + [Answer(request, LastAnswer(k))]
    ensures MissingSince(j.answers, k.answers, request) <==> Missing(LastAnswer(k))
    ensures AcceptedSince(j.answers, k.answers, request) <==> Accepted(request, LastAnswer(k))
    ensures RefusedSince(j.answers, k.answers, request) <==> !Accepted(request, LastAnswer(k))
  {
    assert k.answers[|j.answers|] == Answer(request, LastAnswer(k));
    hide Missing, Accepted;
  }

  /** A client call that only reads: nothing but the fault and sleep counters moves. */
  predicate Reads(j: Journal, k: Journal) {
    && k == j.(faults := k.faults, slept := k.slept)
    && j.faults <= k.faults
    && j.slept <= k.slept <= j.slept + 62
    && (j.faults == k.faults ==> j.slept == k.slept)
  }

  /** One mutating client call. */
  predicate Writes(j: Journal, k: Journal) {
    && k == j.(faults := k.faults, slept := k.slept, lost := k.lost, writes := j.writes + 1)
    && j.faults <= k.faults
    && j.lost <= k.lost
    && j.slept <= k.slept <= j.slept + 62
    && (j.faults == k.faults ==> j.lost == k.lost && j.slept == k.slept)
  }

  /** Any number of client calls that leave the special counters and the histories alone. */
  predicate Calls(j: Journal, k: Journal) {
    && k == j.(faults := k.faults, slept := k.slept, lost := k.lost, writes := k.writes, answers := k.answers)
    && j.faults <= k.faults && j.slept <= k.slept && j.lost <= k.lost && j.writes <= k.writes
    && j.answers <= k.answers
    && (j.faults == k.faults ==> j.lost == k.lost)
  }

  /** Client calls that write nothing, among which lists of floating IPs may fail. */
  predicate ListsOnly(j: Journal, k: Journal) {
    && k == j.(faults := k.faults, slept := k.slept, fipListFailures := k.fipListFailures, fipReads := k.fipReads,
               answers := k.answers)
    && j.faults <= k.faults && j.slept <= k.slept && j.answers <= k.answers
    && GrowsWithFaults(j.fipListFailures, k.fipListFailures, j, k)
  }

  predicate SameLookups(j: Journal, k: Journal) {
    k.failedLookups == j.failedLookups && k.hiddenLookups == j.hiddenLookups
  }

  predicate Clean(j: Journal, k: Journal) {
    j.faults == k.faults
  }

  /** A count of failed calls grew by no more than the failing attempts did. */
  predicate GrowsWithFaults(n: nat, m: nat, j: Journal, k: Journal) {
    n <= m && m - n <= k.faults - j.faults
  }

  /** Counters only grow, and only with failing attempts if they count what failed or was lost. */
  predicate Later(j: Journal, k: Journal) {
    && j.faults <= k.faults && j.lost <= k.lost && j.writes <= k.writes && j.slept <= k.slept
    && j.hiddenLookups <= k.hiddenLookups && j.answers <= k.answers
    && GrowsWithFaults(j.failedLookups, k.failedLookups, j, k)
    && GrowsWithFaults(j.fipListFailures, k.fipListFailures, j, k)
    && GrowsWithFaults(j.memberListFailures, k.memberListFailures, j, k)
    && (Clean(j, k) ==> j.lost == k.lost)
  }

  /** How many objects one create call can leave behind: a single one unless an attempt was lost. */
  function Cap(j: Journal, k: Journal): nat {
    if k.lost == j.lost then 1 else 6
  }

  /** An ID first handed out between the two states. */
  predicate Fresh(id: string, c: Cloud, d: Cloud) {
    id != "" && id !in c.issued && id in d.issued
  }

  /** The list grew at its end by what one create call may add. */
  ghost predicate Grew<T>(s: seq<T>, t: seq<T>, j: Journal, k: Journal) {
    s <= t && |t| <= |s| + Cap(j, k)
  }

  // ----- counting duplicates under one key

  /** How many objects share a key, how many creates were decided without seeing the list, and the lost attempts. */
  datatype Tally = Tally(count: nat, blind: nat, lost: nat)

  /**
   * What one find-or-create may do to a key: nothing, fill it when it was empty,
   * or add to it after a lookup that could not see.
   */
  predicate FindOrCreate(t: Tally, u: Tally) {
    && t.blind <= u.blind && t.lost <= u.lost
    && var cap := if t.lost == u.lost then 1 else 6;
    || u.count <= t.count
    || (t.count == 0 && u.count <= cap)
    || (t.blind < u.blind && u.count <= t.count + cap)
  }

  function LbTally(c: Cloud, j: Journal, name: string): Tally {
    Tally(Count(LbNamed(name), c.lbs), j.failedLookups + j.hiddenLookups, j.lost)
  }

  function ListenerTally(c: Cloud, j: Journal, name: string, lbID: string): Tally {
    Tally(Count(ListenerKey(name, lbID), c.listeners), 0, j.lost)
  }

  function PoolTally(c: Cloud, j: Journal, name: string, lbID: string): Tally {
    Tally(Count(PoolKey(name, lbID), c.pools), 0, j.lost)
  }

  function FipTally(c: Cloud, j: Journal, lbID: string): Tally {
    Tally(Count(AttachedTo(lbID), c.fips), j.fipListFailures, j.lost)
  }

  function InstanceTally(c: Cloud, j: Journal, name: string): Tally {
    Tally(Count(InstanceNamed(name), c.instances), 0, j.lost)
  }

  function MemberTally(c: Cloud, j: Journal, poolID: string, address: string, port: int): Tally {
    Tally(Count(MemberKey(poolID, address, port), c.members), j.memberListFailures, j.lost)
  }

  /**
   * What any number of find-or-creates may do to a key: fill it once, and add to it once for each
   * create that could not see; one object at a time, or up to six if an attempt was lost.
   */
  predicate GrowsBy(t: Tally, u: Tally) {
    && t.blind <= u.blind && t.lost <= u.lost
    && (t.lost == u.lost ==> u.count <= (if t.count <= 1 then 1 else t.count) + (u.blind - t.blind))
    && u.count <= (if t.count <= 6 then 6 else t.count) + 6 * (u.blind - t.blind)
  }

  lemma FindOrCreateGrows(t: Tally, u: Tally)
    requires FindOrCreate(t, u)
    ensures GrowsBy(t, u)
  {
  }

  lemma GrowsByCompose(t: Tally, u: Tally, v: Tally)
    requires GrowsBy(t, u) && GrowsBy(u, v)
    ensures GrowsBy(t, v)
  {
  }

  // ----- well-formed listings

  /** An issued listener ID under which there is nothing but a listener of this name on this load balancer. */
  ghost predicate ListenerOn(c: Cloud, id: string, name: string, lbID: string) {
    id in c.issued && forall x | x in c.listeners && x.id == id :: x.name == name && lbID in x.lbIDs
  }

  ghost predicate PoolOn(c: Cloud, id: string, name: string, lbID: string) {
    id in c.issued && forall x | x in c.pools && x.id == id :: x.name == name && x.lbID == lbID
  }

  /** There is a listener of this ID and name on the load balancer. */
  predicate ListenerAt(listeners: seq<Listener>, id: string, name: string, lbID: string) {
    exists x | x in listeners :: x.id == id && x.name == name && lbID in x.lbIDs
  }

  predicate PoolAt(pools: seq<Pool>, id: string, name: string, lbID: string) {
    exists x | x in pools :: x.id == id && x.name == name && x.lbID == lbID
  }

  /** There is such a listener, and no other listener has its ID. */
  ghost predicate ListenerFound(c: Cloud, id: string, name: string, lbID: string) {
    ListenerAt(c.listeners, id, name, lbID) && ListenerOn(c, id, name, lbID)
  }

  ghost predicate PoolFound(c: Cloud, id: string, name: string, lbID: string) {
    PoolAt(c.pools, id, name, lbID) && PoolOn(c, id, name, lbID)
  }

  ghost predicate ValidListeners(c: Cloud) {
    && (forall x | x in c.listeners :: x.id != "" && x.id in c.issued)
    && (forall x, y | x in c.listeners && y in c.listeners && x.id == y.id :: x.name == y.name && x.lbIDs == y.lbIDs)
  }

  ghost predicate ValidPools(c: Cloud) {
    && (forall x | x in c.pools :: x.id != "" && x.id in c.issued)
    && (forall x, y | x in c.pools && y in c.pools && x.id == y.id :: x.name == y.name && x.lbID == y.lbID)
  }

  /** Listeners and pools were only added, under new IDs. */
  ghost predicate PortsGrew(c: Cloud, d: Cloud) {
    && c.issued <= d.issued
    && c.listeners <= d.listeners
    && (forall i | |c.listeners| <= i < |d.listeners| :: d.listeners[i].id !in c.issued)
    && c.pools <= d.pools
    && (forall i | |c.pools| <= i < |d.pools| :: d.pools[i].id !in c.issued)
  }

  /** Floating IP IDs are issued, non-empty and unambiguous. */
  ghost predicate ValidFips(c: Cloud) {
    && (forall x | x in c.fips :: x.id != "" && x.id in c.issued)
    && (forall x, y | x in c.fips && y in c.fips && x.id == y.id :: x == y)
  }
}
