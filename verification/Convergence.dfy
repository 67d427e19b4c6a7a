/** Creating a cluster comes to an end: repeated fault-free passes reach Ready. */
module Convergence {
  import opened Sequences
  import opened CloudModel
  import opened OvhClient
  import opened ClusterModel
  import opened NetworkSteps
  import opened FipSteps
  import opened LbSteps
  import opened ClusterPass

  // ----- hypotheses on the service

  predicate Creatable(spec: ClusterSpec) {
    spec.network.Some? && spec.network.value.subnetCIDR != ""
  }

  /** The flavor and the network the user names exist, and active networks are known to OpenStack. */
  predicate Offers(spec: ClusterSpec, c: Cloud) {
    && (if spec.lbFlavor == "" then "small" else spec.lbFlavor) in c.flavors
    && (NamesNetwork(spec) ==> NetworkExists(c.networks, spec.network.value.privateNetworkID))
    && (forall n | n in c.networks && StatusIn(n.regions, spec.region) == "ACTIVE" ::
          OpenStackIDIn(n.regions, spec.region) != "")
  }

  /** The service's IDs are well formed, and what is recorded or named exists or once existed. */
  ghost predicate Sound(spec: ClusterSpec, c: Cloud, s: ClusterStatus) {
    && ValidCloud(c)
    && (s.networkID != "" ==> NetworkExists(c.networks, s.networkID))
    && (spec.existingFip != "" ==> spec.existingFip in c.issued)
    && (s.fipID != "" ==> s.fipID in c.issued)
  }

  // ----- the rank

  function GroundRank(spec: ClusterSpec, networks: seq<Network>, networkID: string, subnetID: string): nat {
    (if networkID == "" then 2 else if !NetworkActive(networks, networkID, spec.region) then 1 else 0)
    + (if subnetID == "" then 1 else 0)
  }

  predicate LbKnown(lbs: seq<LoadBalancer>, lbID: string) {
    lbID != "" && First(LbWithId(lbID), lbs).Some?
  }

  predicate NameTaken(lbs: seq<LoadBalancer>, name: string) {
    exists l | l in lbs :: l.name == name
  }

  function FipRank(fips: seq<FloatingIP>, lbID: string, fipID: string): nat {
    (if First(AttachedTo(lbID), fips).Some? then 0 else 2) + (if FipPending(fips, lbID, fipID) then 1 else 0)
  }

  /** Nothing yet; posted; listed; recorded; active; with a virtual IP; with a floating IP; with its address. */
  function LbRank(spec: ClusterSpec, lbs: seq<LoadBalancer>, fips: seq<FloatingIP>, lbID: string, fipID: string): nat {
    if !LbKnown(lbs, lbID) then
      if First(ListedNamed(LbName(spec)), lbs).Some? then 6 else if NameTaken(lbs, LbName(spec)) then 7 else 8
    else if !LbActive(lbs, lbID) then 5
    else if spec.floatingNetworkID == "" then 0
    else if First(LbWithId(lbID), lbs).value.vip == "" then 4
    else FipRank(fips, lbID, fipID)
  }

  function Rank(spec: ClusterSpec, c: Cloud, s: ClusterStatus): nat {
    (if s.finalizer then 0 else 1)
    + GroundRank(spec, c.networks, s.networkID, s.subnetID)
    + LbRank(spec, c.lbs, c.fips, LbInUse(spec, s.lbID), FipInUse(spec, s.fipID))
  }

  // ----- the service's part

  datatype Event = NetworkActivated | LbListed | LbActivated | VirtualIPGiven | AddressGiven

  /** What the controller can only wait for. */
  predicate Awaits(spec: ClusterSpec, c: Cloud, s: ClusterStatus, e: Event) {
    var lbID := LbInUse(spec, s.lbID);
    match e
    case NetworkActivated => s.networkID != "" && !NetworkActive(c.networks, s.networkID, spec.region)
    case LbListed =>
      !LbKnown(c.lbs, lbID) && First(ListedNamed(LbName(spec)), c.lbs).None? && NameTaken(c.lbs, LbName(spec))
    case LbActivated => LbKnown(c.lbs, lbID) && !LbActive(c.lbs, lbID)
    case VirtualIPGiven =>
      LbKnown(c.lbs, lbID) && LbActive(c.lbs, lbID) && spec.floatingNetworkID != ""
      && First(LbWithId(lbID), c.lbs).value.vip == ""
    case AddressGiven =>
      LbKnown(c.lbs, lbID) && LbActive(c.lbs, lbID) && spec.floatingNetworkID != ""
      && First(LbWithId(lbID), c.lbs).value.vip != "" && FipPending(c.fips, lbID, FipInUse(spec, s.fipID))
  }

  /** Between two passes the service undoes nothing that the cluster relies on. */
  predicate Undisturbed(spec: ClusterSpec, c: Cloud, d: Cloud, s: ClusterStatus) {
    var lbID := LbInUse(spec, s.lbID);
    && (NetworkActive(c.networks, s.networkID, spec.region) ==> NetworkActive(d.networks, s.networkID, spec.region))
    && (LbKnown(c.lbs, lbID) ==>
          && LbKnown(d.lbs, lbID)
          && (LbActive(c.lbs, lbID) ==> LbActive(d.lbs, lbID))
          && (First(LbWithId(lbID), c.lbs).value.vip != "" ==> First(LbWithId(lbID), d.lbs).value.vip != ""))
    && (NameTaken(c.lbs, LbName(spec)) ==> NameTaken(d.lbs, LbName(spec)))
    && (First(ListedNamed(LbName(spec)), c.lbs).Some? ==> First(ListedNamed(LbName(spec)), d.lbs).Some?)
    && (First(AttachedTo(lbID), c.fips).Some? ==> First(AttachedTo(lbID), d.fips).Some?)
    && (!FipPending(c.fips, lbID, FipInUse(spec, s.fipID)) ==> !FipPending(d.fips, lbID, FipInUse(spec, s.fipID)))
  }

  /** Nothing is undone, and if anything is awaited, some such event happens. */
  predicate Advances(spec: ClusterSpec, c: Cloud, d: Cloud, s: ClusterStatus) {
    && Undisturbed(spec, c, d, s)
    && ((exists e :: Awaits(spec, c, s, e)) ==> exists e :: Awaits(spec, c, s, e) && !Awaits(spec, d, s, e))
  }

  lemma GapLowers(spec: ClusterSpec, c: Cloud, d: Cloud, s: ClusterStatus)
    requires Undisturbed(spec, c, d, s)
    ensures Rank(spec, d, s) <= Rank(spec, c, s)
    ensures Advances(spec, c, d, s) && (exists e :: Awaits(spec, c, s, e)) ==> Rank(spec, d, s) < Rank(spec, c, s)
  {
    hide NetworkActive, LbName, FipPending, LbActive, NameTaken;
    if e :| Awaits(spec, c, s, e) && !Awaits(spec, d, s, e) {
      match e
      case NetworkActivated =>
      case LbListed =>
      case LbActivated =>
      case VirtualIPGiven =>
      case AddressGiven =>
    }
  }

  // ----- the passes' part

  /** Records keep their place, identity, state and virtual IP. */
  lemma {:induction false} FirstGrown(s: seq<LoadBalancer>, t: seq<LoadBalancer>, id: string)
    requires |s| <= |t| && forall i | 0 <= i < |s| :: t[i] == s[i].(listed := t[i].listed, fip := t[i].fip)
    requires First(LbWithId(id), s).Some?
    ensures First(LbWithId(id), t).Some?
    ensures var l := First(LbWithId(id), s).value; var m := First(LbWithId(id), t).value;
            m.status == l.status && m.vip == l.vip
  {
    if s[0].id != id {
      FirstGrown(s[1..], t[1..], id);
    }
  }

  lemma FinalizerLowers(spec: ClusterSpec, c: Cloud, s: ClusterStatus, t: ClusterStatus)
    requires !s.finalizer && t == s.(finalizer := true)
    ensures Rank(spec, c, t) < Rank(spec, c, s)
  {
  }

  /** Waiting for the network: it was just recorded, or its activation is awaited. */
  lemma NetworkWaitLowers(spec: ClusterSpec, c: Cloud, s: ClusterStatus, d: Cloud, t: ClusterStatus)
    requires CleanPass(spec, c, s, d, t, NetworkWait)
    ensures Rank(spec, d, t) <= Rank(spec, c, s)
    ensures Rank(spec, d, t) < Rank(spec, c, s) || Awaits(spec, d, t, NetworkActivated)
    ensures t.networkID != "" && NetworkExists(d.networks, t.networkID)
  {
    hide LbRank, NetworkActive, NetworkExists;
  }

  /** Waiting for a floating IP's address lowers the rank, or that address is awaited. */
  lemma AddressLowers(spec: ClusterSpec, c: Cloud, lbID: string, inUse: string, d: Cloud, fipID: string)
    requires c.fips <= d.fips && forall i | |c.fips| <= i < |d.fips| :: d.fips[i].id !in c.issued
    requires AddressAwaited(inUse, c.fips, d.fips, lbID, fipID)
    requires inUse != "" ==> inUse in c.issued
    requires !FipAvailable(c.fips, lbID, inUse)
    ensures var before, after := FipRank(c.fips, lbID, inUse), FipRank(d.fips, lbID, FipInUse(spec, fipID));
            after < before || (after == before && FipPending(d.fips, lbID, FipInUse(spec, fipID)))
  {
    if First(AttachedTo(lbID), c.fips).Some? {
      FirstPrefix(AttachedTo(lbID), c.fips, d.fips);
    } else if First(AttachedTo(lbID), d.fips).None? {
      NoneAttached(d.fips, lbID);
      var f := First(FipWithId(inUse), d.fips).value;
      var i :| 0 <= i < |d.fips| && d.fips[i] == f;
      assert i < |c.fips| && FipWithId(inUse)(c.fips[i]);
      FirstPrefix(FipWithId(inUse), c.fips, d.fips);
    }
  }

  lemma NoneAttached(fips: seq<FloatingIP>, lbID: string)
    requires First(AttachedTo(lbID), fips).None?
    ensures forall f | f in fips :: f.entity != Some(lbID)
  {
    forall f | f in fips ensures f.entity != Some(lbID) {
      var i :| 0 <= i < |fips| && fips[i] == f;
      assert !AttachedTo(lbID)(fips[i]);
    }
  }

  /** A load balancer step that does not finish lowers the rank, or what it waits for is awaited. */
  lemma LbLowers(spec: ClusterSpec, c: Cloud, s: ClusterStatus, d: Cloud, t: ClusterStatus, r: LbResult)
    requires CleanLbStep(spec, c, s, d, t, r) && !r.LbDone?
    requires Grown(c, d)
    requires FipInUse(spec, s.fipID) != "" ==> FipInUse(spec, s.fipID) in c.issued
    requires CreationReady(spec, d, t.networkID, t.subnetID)
    ensures var before := LbRank(spec, c.lbs, c.fips, LbInUse(spec, s.lbID), FipInUse(spec, s.fipID));
            var after := LbRank(spec, d.lbs, d.fips, LbInUse(spec, t.lbID), FipInUse(spec, t.fipID));
            after <= before && (after < before || exists e :: Awaits(spec, d, t, e))
  {
    hide LbName, CreationReady, FipPending, AddressAwaited, FipRank, FipAvailable, PortsGrew;
    var id := LbInUse(spec, s.lbID);
    if LbKnown(c.lbs, id) {
      FirstGrown(c.lbs, d.lbs, id);
      if !LbActive(d.lbs, id) {
        assert Awaits(spec, d, t, LbActivated);
      } else if First(LbWithId(id), d.lbs).value.vip == "" {
        assert Awaits(spec, d, t, VirtualIPGiven);
      } else {
        AddressLowers(spec, c, id, FipInUse(spec, s.fipID), d, t.fipID);
        if FipPending(d.fips, id, FipInUse(spec, t.fipID)) {
          assert Awaits(spec, d, t, AddressGiven);
        }
      }
    } else {
      CreationLowers(spec, c, s, d, t, r);
    }
  }

  lemma CreationLowers(spec: ClusterSpec, c: Cloud, s: ClusterStatus, d: Cloud, t: ClusterStatus, r: LbResult)
    requires LbCreated(spec, c.lbs, d, t.networkID, t.subnetID, t.lbID, r)
    requires CreationReady(spec, d, t.networkID, t.subnetID)
    requires !LbKnown(c.lbs, LbInUse(spec, s.lbID))
    ensures var before := LbRank(spec, c.lbs, c.fips, LbInUse(spec, s.lbID), FipInUse(spec, s.fipID));
            var after := LbRank(spec, d.lbs, d.fips, LbInUse(spec, t.lbID), FipInUse(spec, t.fipID));
            after <= before && (after < before || exists e :: Awaits(spec, d, t, e))
  {
    hide LbName, CreationReady, FipPending;
    if r.LbWaiting? {
      var l := First(ListedNamed(LbName(spec)), d.lbs).value;
      var i :| 0 <= i < |d.lbs| && d.lbs[i] == l;
      assert LbWithId(l.id)(d.lbs[i]);
    } else {
      assert NameTaken(d.lbs, LbName(spec));
      if !LbKnown(d.lbs, LbInUse(spec, t.lbID)) && First(ListedNamed(LbName(spec)), d.lbs).None? {
        assert Awaits(spec, d, t, LbListed);
      }
    }
  }

  lemma CreationIsReady(spec: ClusterSpec, d: Cloud, t: ClusterStatus)
    requires Creatable(spec) && Offers(spec, d) && NetworkSettled(spec, d, t.networkID, t.subnetID)
    ensures CreationReady(spec, d, t.networkID, t.subnetID)
    ensures GroundRank(spec, d.networks, t.networkID, t.subnetID) == 0
  {
  }

  /** What a fault-free pass that gets past the network reaches. */
  lemma PastNetwork(
    spec: ClusterSpec, c: Cloud, s: ClusterStatus, d: Cloud, t: ClusterStatus, out: PassOutcome)
    requires CleanPass(spec, c, s, d, t, out) && (out.LbWait? || out.PassFailed?)
    requires Offers(spec, c) && (s.networkID != "" ==> NetworkExists(c.networks, s.networkID))
    requires spec.network.Some?
    ensures s.finalizer && t.finalizer
    ensures NetworkSettled(spec, d, t.networkID, t.subnetID)
    ensures CleanLbStep(spec, c, s, d, t, LbResultOf(out))
  {
    hide NetworkSettled, CleanLbStep, NetworkExists;
  }

  /** A floating IP that a pass records was issued by the service. */
  lemma InUseIssued(spec: ClusterSpec, d: Cloud, before: string, lbID: string, fipID: string)
    requires ValidFips(d) && KnownIDs(d) && FipSource(spec, d, before, lbID, fipID)
    requires (before != "" ==> before in d.issued) && (spec.existingFip != "" ==> spec.existingFip in d.issued)
    ensures fipID != "" ==> fipID in d.issued
  {
  }

  lemma KeptSound(spec: ClusterSpec, c: Cloud, j: Journal, d: Cloud, k: Journal)
    requires Kept(spec, c, j, d, k) && ValidCloud(c)
    ensures ValidCloud(d) && ValidFips(d) && KnownIDs(d) && Grown(c, d) && c.issued <= d.issued
  {
  }

  /** A fault-free pass that does not end Ready lowers the rank, or leaves it and something is awaited. */
  lemma PassLowers(
    spec: ClusterSpec, c: Cloud, j: Journal, s: ClusterStatus, d: Cloud, k: Journal, t: ClusterStatus, out: PassOutcome)
    requires NormalPass(spec, c, j, s, d, k, t, out) && Clean(j, k) && !out.PassReady?
    requires Creatable(spec) && Offers(spec, c) && Offers(spec, d) && Sound(spec, c, s)
    ensures Sound(spec, d, t)
    ensures Rank(spec, d, t) <= Rank(spec, c, s)
    ensures Rank(spec, d, t) < Rank(spec, c, s) || exists e :: Awaits(spec, d, t, e)
  {
    KeptSound(spec, c, j, d, k);
    InUseIssued(spec, d, s.fipID, t.lbID, t.fipID);
    assert CleanPass(spec, c, s, d, t, out);
    hide Kept, Grown, ValidCloud, ValidFips, KnownIDs, RecordSources, CleanLbStep, LbReady, NetworkSettled,
         NetworkActive, Awaits, LbRank, GroundRank, NormalPass, Offers, StatusKept, OwnsNetwork, NetworkExists;
    match out
    case FinalizerAdded => FinalizerLowers(spec, c, s, t);
    case NetworkWait => NetworkWaitLowers(spec, c, s, d, t);
    case _ =>
      PastNetwork(spec, c, s, d, t, out);
      CreationIsReady(spec, d, t);
      LbLowers(spec, c, s, d, t, LbResultOf(out));
  }

  // ----- a whole creation

  /** One pass: service, journal and status before and after. */
  datatype Round = Round(
    c: Cloud, j: Journal, s: ClusterStatus, d: Cloud, k: Journal, t: ClusterStatus, out: PassOutcome)

  ghost predicate CleanRound(spec: ClusterSpec, r: Round) {
    NormalPass(spec, r.c, r.j, r.s, r.d, r.k, r.t, r.out) && Clean(r.j, r.k) && Offers(spec, r.c) && Offers(spec, r.d)
  }

  /** The next pass starts from the persisted status, and in between nothing was undone and nothing lost. */
  ghost predicate Follows(spec: ClusterSpec, r: Round, n: Round) {
    n.s == r.t && Undisturbed(spec, r.d, n.c, r.t) && (Sound(spec, r.d, r.t) ==> Sound(spec, n.c, r.t))
  }

  /** How often something was awaited between two passes, and nothing of it happened. */
  function Idle(spec: ClusterSpec, run: seq<Round>): nat {
    if |run| < 2 then 0
    else (if Advances(spec, run[0].d, run[1].c, run[0].t) then 0 else 1) + Idle(spec, run[1..])
  }

  ghost predicate Creation(spec: ClusterSpec, run: seq<Round>) {
    && (forall i | 0 <= i < |run| :: CleanRound(spec, run[i]))
    && (forall i | 0 < i < |run| :: Follows(spec, run[i - 1], run[i]))
  }

  /** Waiting for anything means the rank is not zero. */
  lemma AwaitsRank(spec: ClusterSpec, c: Cloud, s: ClusterStatus)
    ensures (exists e :: Awaits(spec, c, s, e)) ==> Rank(spec, c, s) > 0
  {
  }

  lemma RoundLowers(spec: ClusterSpec, r: Round)
    requires Creatable(spec) && CleanRound(spec, r) && !r.out.PassReady? && Sound(spec, r.c, r.s)
    ensures Rank(spec, r.c, r.s) > 0
    ensures forall n | Follows(spec, r, n) ::
              && Sound(spec, n.c, n.s)
              && Rank(spec, n.c, n.s) <= Rank(spec, r.c, r.s)
              && (Advances(spec, r.d, n.c, r.t) ==> Rank(spec, n.c, n.s) < Rank(spec, r.c, r.s))
  {
    hide NormalPass, Offers, Sound, Undisturbed, Awaits, Rank;
    PassLowers(spec, r.c, r.j, r.s, r.d, r.k, r.t, r.out);
    AwaitsRank(spec, r.d, r.t);
    forall n | Follows(spec, r, n)
      ensures Rank(spec, n.c, n.s) <= Rank(spec, r.c, r.s)
      ensures Advances(spec, r.d, n.c, r.t) ==> Rank(spec, n.c, n.s) < Rank(spec, r.c, r.s)
    {
      GapLowers(spec, r.d, n.c, r.t);
    }
  }

  /**
   * The fault-free passes that do not end Ready are no more than the rank, which is at most twelve, and the gaps in
   * which the service stayed idle: if what is awaited happens eventually, so does Ready.
   */
  lemma {:induction false} CreationEnds(spec: ClusterSpec, run: seq<Round>)
    requires Creatable(spec) && run != [] && Creation(spec, run) && Sound(spec, run[0].c, run[0].s)
    requires forall i | 0 <= i < |run| :: !run[i].out.PassReady?
    ensures |run| <= Rank(spec, run[0].c, run[0].s) + Idle(spec, run)
    ensures Rank(spec, run[0].c, run[0].s) <= 12
  {
    hide CleanRound, Follows, LbRank, NetworkActive, Sound, Advances;
    RoundLowers(spec, run[0]);
    RankBound(spec, run[0].c, run[0].s);
    if |run| > 1 {
      assert Follows(spec, run[0], run[1]);
      CreationEnds(spec, run[1..]);
    }
  }

  lemma RankBound(spec: ClusterSpec, c: Cloud, s: ClusterStatus)
    ensures Rank(spec, c, s) <= 12
  {
  }

  // ----- quiescence

  /** What a Ready pass can leave to do: a recorded gateway that is not exposed, because it is gone from the service. */
  predicate GatewayLost(spec: ClusterSpec, s: ClusterStatus) {
    spec.floatingNetworkID != "" && !s.gatewayExposed && s.gatewayID != ""
  }

  /** After a fault-free pass that ends Ready, a further one writes exactly when a recorded gateway is not exposed. */
  lemma NextPassWrites(
    spec: ClusterSpec, c: Cloud, j: Journal, s: ClusterStatus, d: Cloud, k: Journal, t: ClusterStatus,
    l: Journal, e: Cloud, m: Journal, u: ClusterStatus, out: PassOutcome)
    requires NormalPass(spec, c, j, s, d, k, t, PassReady) && Clean(j, k)
    requires NormalPass(spec, d, l, t, e, m, u, out) && Clean(l, m)
    ensures out.PassReady? && Settled(spec, d, t)
    ensures m.writes == l.writes + if GatewayLost(spec, t) then 1 else 0
    ensures GatewayLost(spec, t) ==> NoGateway(d.gateways, t.gatewayID)
    ensures !GatewayLost(spec, t) ==> e == d && u == t
  {
    ReadySettles(spec, c, j, s, d, k, t);
    hide Kept, RecordSources, CleanPass, Settled, LbReady, OwnsNetwork, ExposureLeft, StatusKept, SubnetStep,
         NetworksStep, LookupStep;
  }

  lemma ReadySettles(spec: ClusterSpec, c: Cloud, j: Journal, s: ClusterStatus, d: Cloud, k: Journal, t: ClusterStatus)
    requires NormalPass(spec, c, j, s, d, k, t, PassReady) && Clean(j, k)
    ensures Settled(spec, d, t)
    ensures ExposureLeft(spec, d, t) <==> GatewayLost(spec, t)
    ensures GatewayLost(spec, t) ==> NoGateway(d.gateways, t.gatewayID)
  {
    assert CleanPass(spec, c, s, d, t, PassReady);
    hide Kept, RecordSources, LbReady, OwnsNetwork, StatusKept, NetworkSettled, LbSettled, NormalPass,
         NetworkProgress, LbCreated, FipAvailable, GatewayTracked;
  }

  /**
   * A fault-free Ready pass leaves a gateway to expose exactly when, as it began, the recorded gateway was
   * not exposed and gone from the service: such a gateway is neither forgotten nor looked up by name again.
   */
  lemma ReadyLeavesLost(spec: ClusterSpec, c: Cloud, j: Journal, s: ClusterStatus, d: Cloud, k: Journal,
                        t: ClusterStatus)
    requires NormalPass(spec, c, j, s, d, k, t, PassReady) && Clean(j, k)
    requires s.gatewayID == "" || s.gatewayID in c.issued
    ensures GatewayLost(spec, t) <==>
              spec.floatingNetworkID != "" && GatewayGone(c.gateways, s.gatewayID, s.gatewayExposed)
  {
    ReadySettles(spec, c, j, s, d, k, t);
    assert CleanPass(spec, c, s, d, t, PassReady);
    hide Kept, RecordSources, LbReady, OwnsNetwork, StatusKept, NetworkSettled, LbSettled, NormalPass,
         NetworkProgress, LbCreated, FipAvailable, LbProgress, Settled, ExposureLeft, NoGateway;
  }

  /**
   * A fault-free Ready pass with a floating network that newly marks a gateway as exposed leaves it exposed, and it is
   * the recorded one or carries the cluster's name. Without the mark there is no gateway to expose, recorded or named.
   */
  lemma ReadyExposes(spec: ClusterSpec, c: Cloud, j: Journal, s: ClusterStatus, d: Cloud, k: Journal,
                     t: ClusterStatus)
    requires NormalPass(spec, c, j, s, d, k, t, PassReady) && Clean(j, k) && spec.floatingNetworkID != ""
    ensures t.gatewayExposed && !s.gatewayExposed ==>
              && ExposedAt(d.gateways, t.gatewayID)
              && (t.gatewayID == s.gatewayID || GatewayAt(d.gateways, t.gatewayID, GatewayName(spec)))
    ensures !t.gatewayExposed ==>
              if t.gatewayID != "" then NoGateway(d.gateways, t.gatewayID)
              else First(GatewayNamed(GatewayName(spec)), d.gateways).None?
  {
    ReadySettles(spec, c, j, s, d, k, t);
    assert CleanPass(spec, c, s, d, t, PassReady);
    hide Kept, Homes, ApiSource, PairSource, LbReady, FipSource, LbSource, OwnsNetwork, StatusKept, NetworkSettled,
         LbSettled, NetworkProgress, LbCreated, FipAvailable, Settled, ExposedAt, GatewayAt, GatewayGone, SubnetStep,
         NoGateway, ExposureLeft;
  }

  /** Passes over an otherwise unchanged service, each from the status the one before it left. */
  ghost predicate Undisturbing(spec: ClusterSpec, run: seq<Round>) {
    && (forall i | 0 <= i < |run| ::
          && NormalPass(spec, run[i].c, run[i].j, run[i].s, run[i].d, run[i].k, run[i].t, run[i].out)
          && Clean(run[i].j, run[i].k))
    && (forall i | 0 < i < |run| :: run[i].c == run[i - 1].d && run[i].s == run[i - 1].t)
  }

  /** However many fault-free passes follow a Ready one: all end Ready, and none writes or changes anything. */
  lemma {:induction false} StaysQuiet(spec: ClusterSpec, run: seq<Round>, i: nat)
    requires Undisturbing(spec, run) && 0 < i < |run|
    requires run[0].out.PassReady? && !GatewayLost(spec, run[0].t)
    ensures run[i].out.PassReady? && run[i].d == run[0].d && run[i].t == run[0].t
    ensures run[i].k.writes == run[i].j.writes
  {
    if i > 1 {
      StaysQuiet(spec, run, i - 1);
    }
    assert run[i].c == run[i - 1].d && run[i].s == run[i - 1].t;
    hide NormalPass;
    NextPassWrites(spec, run[0].c, run[0].j, run[0].s, run[0].d, run[0].k, run[0].t,
                   run[i].j, run[i].d, run[i].k, run[i].t, run[i].out);
  }
}
