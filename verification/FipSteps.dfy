/** Gateway and floating IP steps of a reconciling pass. */
module FipSteps {
  import opened Sequences
  import opened CloudModel
  import opened OvhClient
  import opened ClusterModel

  /** What the floating IP steps record. */
  datatype FipRecord = FipRecord(fipID: string, gatewayID: string, exposed: bool)

  /** A fault-free exposure attempt writes exactly when a gateway is recorded or found and not yet marked exposed. */
  predicate GatewayWrites(gateways: seq<Gateway>, gatewayID: string, exposed: bool, name: string) {
    !exposed && (gatewayID != "" || First(GatewayNamed(name), gateways).Some?)
  }

  predicate NoGateway(gateways: seq<Gateway>, id: string) {
    forall g | g in gateways :: g.id != id
  }

  /** Only a recorded gateway that is gone from the service is left to be exposed, and never will be. */
  predicate ExposureSettled(gateways: seq<Gateway>, gatewayID: string, exposed: bool, name: string) {
    && (GatewayWrites(gateways, gatewayID, exposed, name) <==> !exposed && gatewayID != "")
    && (!exposed && gatewayID != "" ==> NoGateway(gateways, gatewayID))
  }

  /** A gateway that is recorded, not marked as exposed, and gone from the service. */
  predicate GatewayGone(gateways: seq<Gateway>, gatewayID: string, exposed: bool) {
    !exposed && gatewayID != "" && NoGateway(gateways, gatewayID)
  }

  /** There is a gateway of this ID and name. */
  predicate GatewayAt(gateways: seq<Gateway>, id: string, name: string) {
    exists g | g in gateways :: g.id == id && g.name == name
  }

  predicate ExposedAt(gateways: seq<Gateway>, id: string) {
    exists g | g in gateways :: g.id == id && g.exposed
  }

  /**
   * A newly recorded gateway carries the cluster's name, and the exposed mark stays. A new mark means that the service
   * accepted the call that exposes the gateway,
       or answered that it is exposed already. If no call failed: a new mark is
   * true of the service; a gateway that is gone stays recorded and unexposed; none gets to be gone by what a step does.
   */
  predicate GatewayTracked(
    gwName: string, j: Journal, k: Journal, issued: set<string>, gateways: seq<Gateway>, id: string, exposed: bool,
    gateways': seq<Gateway>, id': string, exposed': bool)
  {
    && (id' == id || (id == "" && GatewayAt(gateways', id', gwName)))
    && (exposed ==> exposed' && id' == id)
    && (exposed' && !exposed ==> AcceptedSince(j.answers, k.answers, Request.ExposeGateway(id')))
    && (Clean(j, k) && exposed' && !exposed ==> ExposedAt(gateways', id'))
    && (Clean(j, k) && GatewayGone(gateways, id, exposed) && id in issued ==>
          id' == id && GatewayGone(gateways', id', exposed'))
    && (Clean(j, k) && GatewayGone(gateways', id', exposed') ==> id == id' && GatewayGone(gateways, id, exposed))
  }

  /** Gateways are never dropped, and only gain the exposed mark. */
  ghost predicate GatewaysKept(s: seq<Gateway>, t: seq<Gateway>) {
    && |s| <= |t|
    && forall i | 0 <= i < |s| :: t[i] == s[i].(exposed := t[i].exposed) && (s[i].exposed ==> t[i].exposed)
  }

  lemma GatewaysStay(s: seq<Gateway>, t: seq<Gateway>, id: string, name: string)
    requires GatewaysKept(s, t)
    ensures GatewayAt(s, id, name) ==> GatewayAt(t, id, name)
    ensures ExposedAt(s, id) ==> ExposedAt(t, id)
  {
    if GatewayAt(s, id, name) {
      var g :| g in s && g.id == id && g.name == name;
      var i :| 0 <= i < |s| && s[i] == g;
      assert t[i] in t;
    }
    if ExposedAt(s, id) {
      var g :| g in s && g.id == id && g.exposed;
      var i :| 0 <= i < |s| && s[i] == g;
      assert t[i] in t;
    }
  }

  lemma TrackedCompose(
    gwName: string, c: Cloud, j: Journal, id: string, exposed: bool, d: Cloud, k: Journal, id': string, exposed': bool,
    e: Cloud, l: Journal, id'': string, exposed'': bool)
    requires GatewayTracked(gwName, j, k, c.issued, c.gateways, id, exposed, d.gateways, id', exposed')
    requires GatewayTracked(gwName, k, l, d.issued, d.gateways, id', exposed', e.gateways, id'', exposed'')
    requires c.issued <= d.issued && j.faults <= k.faults <= l.faults && GatewaysKept(d.gateways, e.gateways)
    requires j.answers <= k.answers <= l.answers
    ensures GatewayTracked(gwName, j, l, c.issued, c.gateways, id, exposed, e.gateways, id'', exposed'')
  {
    GatewaysStay(d.gateways, e.gateways, id', gwName);
    SeenLonger(j.answers, j.answers, k.answers, l.answers, Request.ExposeGateway(id'));
    SeenLonger(j.answers, k.answers, l.answers, l.answers, Request.ExposeGateway(id''));
    hide AcceptedSince, NoGateway, GatewayAt, ExposedAt, GatewaysKept;
  }

  /** Steps that only add gateways under new IDs leave a recorded one where it is. */
  lemma TrackedSame(gwName: string, j: Journal, k: Journal, c: Cloud, d: Cloud, id: string, exposed: bool)
    requires c.gateways <= d.gateways
    requires forall i | |c.gateways| <= i < |d.gateways| :: d.gateways[i].id !in c.issued
    ensures GatewayTracked(gwName, j, k, c.issued, c.gateways, id, exposed, d.gateways, id, exposed)
  {
  }

  lemma SameIDs(s: seq<Gateway>, t: seq<Gateway>, id: string)
    requires |s| == |t| && forall i | 0 <= i < |s| :: t[i].id == s[i].id
    ensures NoGateway(s, id) <==> NoGateway(t, id)
  {
    if g :| g in s && g.id == id {
      var i :| 0 <= i < |s| && s[i] == g;
      assert t[i] in t;
    }
    if g :| g in t && g.id == id {
      var i :| 0 <= i < |t| && t[i] == g;
      assert s[i] in s;
    }
  }

  /** A fault-free exposure fails exactly when the gateway, recorded or just found, is gone. */
  lemma ExposureTracked(
    gwName: string, j: Journal, k: Journal, issued: set<string>, gateways: seq<Gateway>, id: string,
    gateways': seq<Gateway>, id': string, exposed': bool)
    requires gateways' == gateways || gateways' == ExposedGateways(gateways, id')
    requires id' == id || (id == "" && GatewayAt(gateways, id', gwName))
    requires exposed' ==> AcceptedSince(j.answers, k.answers, Request.ExposeGateway(id'))
    requires Clean(j, k) ==> (exposed' <==> !NoGateway(gateways', id'))
    requires Clean(j, k) && exposed' ==> gateways' == ExposedGateways(gateways, id')
    ensures GatewayTracked(gwName, j, k, issued, gateways, id, false, gateways', id', exposed')
  {
    SameIDs(gateways, gateways', id');
    GatewaysStay(gateways, gateways', id', gwName);
    if Clean(j, k) && exposed' {
      var g :| g in gateways' && g.id == id';
      assert g.exposed;
    }
    assert GatewayAt(gateways, id', gwName) ==> !NoGateway(gateways, id');
    hide NoGateway, ExposedGateways;
  }

  function AddressOnRecord(lb: LoadBalancer): string {
    if lb.fip.Some? then lb.fip.value.ip else ""
  }

  /** The address the load balancer's record shows, or else that of the recorded floating IP. */
  function KnownAddress(lbs: seq<LoadBalancer>, fips: seq<FloatingIP>, lbID: string, fipID: string): string {
    var l := First(LbWithId(lbID), lbs);
    if l.Some? && AddressOnRecord(l.value) != "" then AddressOnRecord(l.value)
    else
      var f := First(FipWithId(fipID), fips);
      if fipID != "" && f.Some? then f.value.ip else ""
  }

  /** An address is known, and the recorded floating IP is the one the load balancer's record shows, if it shows one. */
  predicate FipSettled(lbs: seq<LoadBalancer>, fips: seq<FloatingIP>, lbID: string, fipID: string) {
    var l := First(LbWithId(lbID), lbs);
    && KnownAddress(lbs, fips, lbID, fipID) != "" && fipID != ""
    && (l.Some? && AddressOnRecord(l.value) != "" ==> fipID == l.value.fip.value.id)
  }

  /** The ID was read from a floating IP attached to the load balancer or from the load balancer's own record. */
  predicate RecordedFip(lbs: seq<LoadBalancer>, fips: seq<FloatingIP>, lbID: string, id: string) {
    || (exists f | f in fips :: f.id == id && f.entity == Some(lbID))
    || (exists l | l in lbs :: l.id == lbID && l.fip.Some? && l.fip.value.id == id)
  }

  /**
   * The address is that of a floating IP attached to the load balancer or recorded, or is on the load balancer's own
   * record.
   */
  predicate RecordedAddress(lbs: seq<LoadBalancer>, fips: seq<FloatingIP>, lbID: string, fipID: string, ip: string) {
    || (exists f | f in fips :: f.ip == ip && (f.entity == Some(lbID) || f.id == fipID))
    || (exists l | l in lbs :: l.id == lbID && l.fip.Some? && l.fip.value.ip == ip)
  }

  /** A floating IP the load balancer waits for has no address yet. */
  predicate FipPending(fips: seq<FloatingIP>, lbID: string, fipID: string) {
    || (exists f | f in fips :: f.entity == Some(lbID) && f.ip == "")
    || (fipID != "" && First(FipWithId(fipID), fips).Some? && First(FipWithId(fipID), fips).value.ip == "")
  }

  /** The address is the known one, and the floating IP that has it is recorded. */
  predicate AddressSettled(lbs: seq<LoadBalancer>, fips: seq<FloatingIP>, lbID: string, fipID: string, ip: string) {
    FipSettled(lbs, fips, lbID, fipID) && ip == KnownAddress(lbs, fips, lbID, fipID)
  }

  /**
   * Why there is no address yet: one attached to the load balancer lacks it, or the one that was in use does, or
   * the first one was only attached in this step.
   */
  predicate AddressAwaited(
    inUse: string, before: seq<FloatingIP>, fips: seq<FloatingIP>, lbID: string, fipID: string)
  {
    || (exists f | f in fips :: f.entity == Some(lbID) && f.ip == "")
    || (fipID == inUse && FipPending(fips, lbID, fipID))
    || (First(AttachedTo(lbID), before).None? && First(AttachedTo(lbID), fips).Some?)
  }

  /** A known address; or none, and a reason for it. */
  predicate FipOutcome(
    inUse: string, before: seq<FloatingIP>, lbs: seq<LoadBalancer>, fips: seq<FloatingIP>, lbID: string, fipID: string,
    ip: string)
  {
    if ip != "" then AddressSettled(lbs, fips, lbID, fipID, ip) else AddressAwaited(inUse, before, fips, lbID, fipID)
  }

  /**
   * Floating IPs and gateways were added, gateways exposed, and load balancer records changed only the floating IP they
   * show.
   */
  ghost predicate FipFrame(c: Cloud, d: Cloud) {
    && c.networks == d.networks && c.subnets == d.subnets && c.listeners == d.listeners && c.pools == d.pools
    && c.monitors == d.monitors && c.members == d.members && c.instances == d.instances && c.groups == d.groups
    && c.records == d.records && c.flavors == d.flavors
    && c.issued <= d.issued
    && c.fips <= d.fips
    && (forall i | |c.fips| <= i < |d.fips| :: d.fips[i].id !in c.issued)
    && GatewaysKept(c.gateways, d.gateways)
    && |c.lbs| == |d.lbs|
    && (forall i | 0 <= i < |c.lbs| :: d.lbs[i] == c.lbs[i].(fip := d.lbs[i].fip))
  }

  /** What every step around floating IPs keeps. */
  ghost predicate FipStep(gwName: string, c: Cloud, j: Journal, d: Cloud, k: Journal) {
    && FipFrame(c, d) && NewGateways(gwName, c.gateways, d.gateways)
    && Later(j, k) && k.history == j.history && SameLookups(j, k)
    && (forall l :: GrowsBy(FipTally(c, j, l), FipTally(d, k, l)))
    && (ValidFips(c) ==> ValidFips(d))
    && (KnownIDs(c) ==> KnownIDs(d))
  }

  lemma FipStepCompose(gwName: string, c: Cloud, j: Journal, d: Cloud, k: Journal, e: Cloud, l: Journal)
    requires FipStep(gwName, c, j, d, k) && FipStep(gwName, d, k, e, l)
    ensures FipStep(gwName, c, j, e, l)
  {
    forall m ensures GrowsBy(FipTally(c, j, m), FipTally(e, l, m)) {
      GrowsByCompose(FipTally(c, j, m), FipTally(d, k, m), FipTally(e, l, m));
    }
    hide ValidFips, GrowsBy, FipTally;
    forall i | |c.fips| <= i < |e.fips| ensures e.fips[i].id !in c.issued {
      if i < |d.fips| { assert e.fips[i] == d.fips[i]; }
    }
  }

  lemma FipStepKept(spec: ClusterSpec, c: Cloud, j: Journal, d: Cloud, k: Journal)
    requires FipStep(GatewayName(spec), c, j, d, k)
    ensures Kept(spec, c, j, d, k)
  {
    forall n ensures GrowsBy(LbTally(c, j, n), LbTally(d, k, n)) {
      CountPointwise(LbNamed(n), c.lbs, d.lbs);
    }
  }

  /** Exposing gateways changes nothing that floating IPs depend on. */
  lemma GatewaysOnly(gwName: string, c: Cloud, j: Journal, d: Cloud, k: Journal)
    requires d == c.(gateways := d.gateways) && GatewaysKept(c.gateways, d.gateways) && |d.gateways| == |c.gateways|
    requires Calls(j, k)
    ensures FipStep(gwName, c, j, d, k)
  {
  }

  lemma ListingStep(gwName: string, c: Cloud, j: Journal, k: Journal)
    requires Later(j, k) && k.history == j.history && SameLookups(j, k)
    ensures FipStep(gwName, c, j, c, k)
  {
  }

  lemma FipStepValid(gwName: string, c: Cloud, j: Journal, d: Cloud, k: Journal)
    requires FipStep(gwName, c, j, d, k)
    ensures ValidFips(c) ==> ValidFips(d)
    ensures KnownIDs(c) ==> KnownIDs(d)
    ensures j.faults <= k.faults && c.issued <= d.issued
  {
  }

  /** An allocation made when the list showed nothing attached, or could not be read, is a find-or-create. */
  lemma AllocationStep(c: Cloud, j: Journal, d: Cloud, k: Journal, i: Journal, lbID: string, gwName: string)
    requires d == c.(fips := d.fips, gateways := d.gateways, lbs := d.lbs, issued := d.issued)
    requires FipsGrew(c, d, lbID, gwName) && ValidFips(d) && |d.fips| <= |c.fips| + Cap(j, k)
    requires ListsOnly(i, j) && Writes(j, k)
    requires Count(AttachedTo(lbID), c.fips) == 0 || i.fipListFailures < j.fipListFailures
    ensures FipStep(gwName, c, i, d, k)
  {
    forall l ensures GrowsBy(FipTally(c, i, l), FipTally(d, k, l)) {
      CountGrown(AttachedTo(l), c.fips, d.fips);
      FindOrCreateGrows(FipTally(c, i, l), FipTally(d, k, l));
    }
    AllocationKnown(c, d, lbID, gwName);
    hide ValidFips, KnownIDs, GrowsBy, FipTally;
  }

  lemma AllocationKnown(c: Cloud, d: Cloud, lbID: string, gwName: string)
    requires FipsGrew(c, d, lbID, gwName) && ValidFips(d)
    ensures KnownIDs(c) ==> KnownIDs(d)
  {
    forall x | x in d.gateways && KnownIDs(c) ensures x.id != "" {
      var i :| 0 <= i < |d.gateways| && d.gateways[i] == x;
      if i < |c.gateways| { assert x in c.gateways; }
    }
    forall l | l in d.lbs && l.fip.Some? && KnownIDs(c) ensures l.fip.value.id != "" && l.fip.value.id in d.issued {
      if l !in c.lbs {
        var i :| 0 <= i < |d.lbs| && d.lbs[i] == l;
        assert c.lbs[i] in c.lbs && d.fips[|c.fips|] in d.fips;
      }
    }
  }

  /** With unambiguous IDs, the address known through the list is that of the listed floating IP. */
  lemma OutcomeByList(c: Cloud, lbID: string, f: FloatingIP)
    requires ValidFips(c) && f in c.fips && f.entity == Some(lbID)
    requires First(LbWithId(lbID), c.lbs).Some? ==> AddressOnRecord(First(LbWithId(lbID), c.lbs).value) == ""
    ensures f.ip != "" ==> AddressSettled(c.lbs, c.fips, lbID, f.id, f.ip)
  {
    var i :| 0 <= i < |c.fips| && c.fips[i] == f;
    assert FipWithId(f.id)(c.fips[i]);
  }

  lemma OutcomeByRecord(c: Cloud, lbID: string, ref: FipRef)
    requires First(LbWithId(lbID), c.lbs).Some? && First(LbWithId(lbID), c.lbs).value.fip == Some(ref)
    requires ref.id != ""
    ensures ref.ip != "" ==> AddressSettled(c.lbs, c.fips, lbID, ref.id, ref.ip)
  {
  }

  lemma ShownIsRecorded(c: Cloud, lb: LoadBalancer)
    requires lb in c.lbs && lb.fip.Some?
    ensures forall id :: RecordedAddress(c.lbs, c.fips, lb.id, id, lb.fip.value.ip)
    ensures RecordedFip(c.lbs, c.fips, lb.id, lb.fip.value.id)
    ensures KnownIDs(c) ==> lb.fip.value.id != ""
  {
  }

  /** After an allocation something is attached. */
  lemma AllocationAttached(c: Cloud, d: Cloud, lbID: string, gwName: string)
    requires FipsGrew(c, d, lbID, gwName) && |c.fips| < |d.fips|
    ensures First(AttachedTo(lbID), d.fips).Some?
  {
    assert AttachedTo(lbID)(d.fips[|c.fips|]);
  }

  lemma AttachedIsRecorded(c: Cloud, lbID: string)
    requires First(AttachedTo(lbID), c.fips).Some?
    ensures RecordedFip(c.lbs, c.fips, lbID, First(AttachedTo(lbID), c.fips).value.id)
    ensures forall id :: RecordedAddress(c.lbs, c.fips, lbID, id, First(AttachedTo(lbID), c.fips).value.ip)
  {
  }

  /** Floating IP steps leave what the other parts of the load balancer step look at. */
  lemma FipStepFacts(gwName: string, c: Cloud, j: Journal, d: Cloud, k: Journal)
    requires FipStep(gwName, c, j, d, k)
    ensures PortsGrew(c, d) && j.faults <= k.faults && c.monitors == d.monitors && SameSurroundings(c, d)
    ensures SameLookups(j, k) && |c.lbs| == |d.lbs|
    ensures forall id :: LbActive(c.lbs, id) == LbActive(d.lbs, id)
    ensures forall id | First(LbWithId(id), c.lbs).Some? ::
              First(LbWithId(id), d.lbs).Some?
                  && First(LbWithId(id), d.lbs).value.vip == First(LbWithId(id), c.lbs).value.vip
  {
    forall id ensures LbActive(c.lbs, id) == LbActive(d.lbs, id)
      ensures First(LbWithId(id), c.lbs).Some? ==>
                First(LbWithId(id), d.lbs).Some?
                    && First(LbWithId(id), d.lbs).value.vip == First(LbWithId(id), c.lbs).value.vip
    {
      FirstSameRecords(c.lbs, d.lbs, id);
    }
  }

  lemma {:induction false} FirstSameRecords(s: seq<LoadBalancer>, t: seq<LoadBalancer>, id: string)
    requires |s| == |t| && forall i | 0 <= i < |s| :: t[i] == s[i].(fip := t[i].fip)
    ensures First(LbWithId(id), s).Some? == First(LbWithId(id), t).Some?
    ensures First(LbWithId(id), s).Some? ==>
              First(LbWithId(id), t).value == First(LbWithId(id), s).value.(fip := First(LbWithId(id), t).value.fip)
  {
    if s != [] {
      FirstSameRecords(s[1..], t[1..], id);
    }
  }

  /** A floating IP is attached to the load balancer, and neither such a one nor the one in use lacks an address. */
  predicate FipAvailable(fips: seq<FloatingIP>, lbID: string, fipID: string) {
    First(AttachedTo(lbID), fips).Some? && !FipPending(fips, lbID, fipID)
  }

  /** Doing nothing yet. */
  lemma FipUntouched(gwName: string, c: Cloud, j: Journal, gatewayID: string, exposed: bool)
    ensures FipStep(gwName, c, j, c, j)
    ensures forall a, b ::
              GatewayTracked(gwName, a, b, c.issued, c.gateways, gatewayID, exposed, c.gateways, gatewayID, exposed)
  {
    ListingStep(gwName, c, j, j);
    TrackedSame(gwName, j, j, c, c, gatewayID, exposed);
  }

  /** Two floating IP steps in a row, and what becomes of the gateway. */
  lemma FipStepsTracked(
    gwName: string, c: Cloud, j: Journal, id: string, exposed: bool, d: Cloud, k: Journal, id': string, exposed': bool,
    e: Cloud, l: Journal, id'': string, exposed'': bool)
    requires FipStep(gwName, c, j, d, k) && FipStep(gwName, d, k, e, l)
    requires GatewayTracked(gwName, j, k, c.issued, c.gateways, id, exposed, d.gateways, id', exposed')
    requires GatewayTracked(gwName, k, l, d.issued, d.gateways, id', exposed', e.gateways, id'', exposed'')
    ensures FipStep(gwName, c, j, e, l) && j.faults <= k.faults <= l.faults
    ensures GatewayTracked(gwName, j, l, c.issued, c.gateways, id, exposed, e.gateways, id'', exposed'')
    ensures (ValidFips(c) ==> ValidFips(e)) && (KnownIDs(c) ==> KnownIDs(e))
  {
    FipStepCompose(gwName, c, j, d, k, e, l);
    TrackedCompose(gwName, c, j, id, exposed, d, k, id', exposed', e, l, id'', exposed'');
  }

  /** Finding the cluster's gateway by name and exposing it: what it keeps, records and costs. */
  ghost predicate ExposureStep(
    gwName: string, c: Cloud, j: Journal, id: string, exposed: bool, d: Cloud, k: Journal, id': string, exposed': bool)
  {
    && d == c.(gateways := d.gateways) && d.gateways in {c.gateways, ExposedGateways(c.gateways, id')}
    && FipStep(gwName, c, j, d, k) && (KnownIDs(c) ==> KnownIDs(d))
    && GatewayTracked(gwName, j, k, c.issued, c.gateways, id, exposed, d.gateways, id', exposed')
    && (exposed ==> exposed' && id' == id && d == c && k == j)
    && (Clean(j, k) ==>
          var w := GatewayWrites(c.gateways, id, exposed, gwName);
          && k.writes == j.writes + (if w then 1 else 0)
          && (!w ==> exposed' == exposed && id' == id && d == c)
          && ExposureSettled(d.gateways, id', exposed', gwName))
  }

  /** One attempt to find the gateway, if none is recorded, and to expose it if there is one. */
  lemma ExposureOf(
    gwName: string, c: Cloud, j: Journal, id: string, d: Cloud, k: Journal, id': string, tried: bool, exposed': bool)
    requires d == c.(gateways := d.gateways) && Calls(j, k) && KnownIDs(c)
    requires d.gateways == c.gateways || d.gateways == ExposedGateways(c.gateways, id')
    requires if tried && id == "" then
               First(GatewayNamed(gwName), c.gateways).Some?
               && id' == First(GatewayNamed(gwName), c.gateways).value.id
             else id' == id
    requires Clean(j, k) && tried ==>
               d.gateways == ExposedGateways(c.gateways, id') && (exposed' <==> !NoGateway(d.gateways, id'))
    requires !tried ==>
               id == "" && !exposed' && d == c && (Clean(j, k) ==> First(GatewayNamed(gwName), c.gateways).None?)
    requires Clean(j, k) ==> k.writes == j.writes + (if tried then 1 else 0)
    requires if !tried then k.answers == j.answers
             else
               && k.answers == j.answers + [Answer(Request.ExposeGateway(id'), LastAnswer(k))]
               && (exposed' <==> Accepted(Request.ExposeGateway(id'), LastAnswer(k)))
    ensures ExposureStep(gwName, c, j, id, false, d, k, id', exposed')
  {
    GatewaysOnly(gwName, c, j, d, k);
    FipStepValid(gwName, c, j, d, k);
    if tried {
      OneAnswer(j, k, Request.ExposeGateway(id'));
      ExposureTracked(gwName, j, k, c.issued, c.gateways, id, d.gateways, id', exposed');
    } else {
      TrackedSame(gwName, j, k, c, c, id, false);
    }
    hide GatewayTracked, FipStep, Accepted;
  }

  lemma AlreadyExposed(gwName: string, c: Cloud, j: Journal, id: string)
    ensures ExposureStep(gwName, c, j, id, true, c, j, id, true)
  {
    FipUntouched(gwName, c, j, id, true);
    hide FipStep, GatewayTracked, KnownIDs, ExposedGateways;
  }

  /** At most one call that exposes a gateway, and then one read. */
  lemma ExposedThenRead(j: Journal, k: Journal, l: Journal, gatewayID: string, fipID: string)
    requires k.answers == j.answers
            || k.answers == j.answers + [Answer(Request.ExposeGateway(gatewayID), LastAnswer(k))]
    requires l.answers == k.answers + [Answer(ReadFip(fipID), LastAnswer(l))]
    ensures MissingSince(j.answers, l.answers, ReadFip(fipID)) <==> Missing(LastAnswer(l))
  {
    hide Missing;
    OneAnswer(k, l, ReadFip(fipID));
    SeenLonger(j.answers, k.answers, l.answers, l.answers, ReadFip(fipID));
  }

  /** Exposing the gateway and reading the recorded floating IP; `done` is false when that is gone. */
  ghost predicate TriedStep(
    gwName: string, lb: LoadBalancer, c: Cloud, j: Journal, a: FipRecord, d: Cloud, k: Journal, b: FipRecord,
    done: bool, ip: string)
  {
    && d == c.(gateways := d.gateways) && FipStep(gwName, c, j, d, k)
    && b.fipID == (if done then a.fipID else "") && (!done ==> ip == "")
    && (MissingSince(j.answers, k.answers, ReadFip(a.fipID)) <==> !done)
    && (ip != "" ==> RecordedAddress(d.lbs, d.fips, lb.id, b.fipID, ip))
    && GatewayTracked(gwName, j, k, c.issued, c.gateways, a.gatewayID, a.exposed,
                      d.gateways, b.gatewayID, b.exposed)
    && (Clean(j, k) ==>
          var w := GatewayWrites(c.gateways, a.gatewayID, a.exposed, gwName);
          && ExposureSettled(d.gateways, b.gatewayID, b.exposed, gwName)
          && k.writes == j.writes + (if w then 1 else 0)
          && (!w ==> d == c && b.gatewayID == a.gatewayID && b.exposed == a.exposed)
          && if done then
               && ip == KnownAddress(d.lbs, d.fips, lb.id, b.fipID)
               && (if ip != "" then AddressSettled(d.lbs, d.fips, lb.id, b.fipID, ip)
                   else FipPending(d.fips, lb.id, b.fipID))
             else !FipSettled(d.lbs, d.fips, lb.id, a.fipID))
  }

  /** Taking a floating IP attached to the load balancer, or allocating one. */
  ghost predicate FoundStep(
    gwName: string, lb: LoadBalancer, c: Cloud, j: Journal, a: FipRecord, d: Cloud, k: Journal, b: FipRecord,
    failed: bool, ip: string)
  {
    && FipStep(gwName, c, j, d, k)
    && (ip != "" ==> !failed && RecordedAddress(d.lbs, d.fips, lb.id, b.fipID, ip))
    && (b.fipID == a.fipID || RecordedFip(d.lbs, d.fips, lb.id, b.fipID))
    && GatewayTracked(gwName, j, k, c.issued, c.gateways, a.gatewayID, a.exposed,
                      d.gateways, b.gatewayID, b.exposed)
    && (Clean(j, k) ==>
          && !failed
          && (ip != "" || lb.vip != "" ==> FipOutcome("", c.fips, d.lbs, d.fips, lb.id, b.fipID, ip))
          && (ip != "" ==> ExposureSettled(d.gateways, b.gatewayID, b.exposed, gwName))
          && (FipAvailable(c.fips, lb.id, "") ==> ip != ""))
  }

  /** Finding or allocating the load balancer's public address: what it keeps, records, returns and costs. */
  ghost predicate AddressStep(
    gwName: string, lb: LoadBalancer, c: Cloud, j: Journal, a: FipRecord, d: Cloud, k: Journal, b: FipRecord,
    failed: bool, ip: string)
  {
    && FipStep(gwName, c, j, d, k)
    && (ip != "" ==> !failed && RecordedAddress(d.lbs, d.fips, lb.id, b.fipID, ip))
    && (b.fipID == a.fipID || b.fipID == "" || RecordedFip(d.lbs, d.fips, lb.id, b.fipID))
    && (a.fipID != "" && b.fipID == "" ==> MissingSince(j.answers, k.answers, ReadFip(a.fipID)))
    && GatewayTracked(gwName, j, k, c.issued, c.gateways, a.gatewayID, a.exposed,
                      d.gateways, b.gatewayID, b.exposed)
    && (Clean(j, k) ==>
          && !failed
          && (ip != "" || lb.vip != "" ==> FipOutcome(a.fipID, c.fips, d.lbs, d.fips, lb.id, b.fipID, ip))
          && (ip != "" ==> ExposureSettled(d.gateways, b.gatewayID, b.exposed, gwName))
          && (FipAvailable(c.fips, lb.id, a.fipID) ==> ip != ""))
    && (Clean(j, k) && FipSettled(c.lbs, c.fips, lb.id, a.fipID) ==>
          var w := GatewayWrites(c.gateways, a.gatewayID, a.exposed, gwName);
          && ip == KnownAddress(c.lbs, c.fips, lb.id, a.fipID) && b.fipID == a.fipID
          && k.writes == j.writes + (if w then 1 else 0)
          && (!w ==> d == c && b == a))
  }

  /** The load balancer's own record shows the address. */
  lemma ShownIsAddress(
    gwName: string, lb: LoadBalancer, c: Cloud, j: Journal, a: FipRecord, d: Cloud, k: Journal, b: FipRecord)
    requires ExposureStep(gwName, c, j, a.gatewayID, a.exposed, d, k, b.gatewayID, b.exposed) && KnownIDs(c)
    requires First(LbWithId(lb.id), c.lbs) == Some(lb) && AddressOnRecord(lb) != "" && b.fipID == lb.fip.value.id
    ensures AddressStep(gwName, lb, c, j, a, d, k, b, false, AddressOnRecord(lb))
  {
    ShownIsRecorded(c, lb);
    OutcomeByRecord(c, lb.id, lb.fip.value);
    hide FipStep, GatewayTracked, RecordedAddress, RecordedFip, GatewayWrites, ExposureSettled, FipAvailable,
         KnownIDs;
  }

  /** The recorded floating IP's own record does, or it waits for an address. */
  lemma TriedIsAddress(
    gwName: string, lb: LoadBalancer, c: Cloud, j: Journal, a: FipRecord, d: Cloud, k: Journal, b: FipRecord,
    ip: string)
    requires TriedStep(gwName, lb, c, j, a, d, k, b, true, ip) && AddressOnRecord(lb) == "" && a.fipID != ""
    requires First(LbWithId(lb.id), c.lbs) == Some(lb)
    ensures AddressStep(gwName, lb, c, j, a, d, k, b, false, ip)
  {
    hide FipStep, GatewayTracked, RecordedAddress, RecordedFip, GatewayWrites, ExposureSettled;
  }

  lemma TriedKeeps(
    gwName: string, lb: LoadBalancer, c: Cloud, j: Journal, a: FipRecord, d: Cloud, k: Journal, m: FipRecord,
    seen: string)
    requires if a.fipID == "" then d == c && k == j && m == a else TriedStep(gwName, lb, c, j, a, d, k, m, false, seen)
    ensures (ValidFips(c) ==> ValidFips(d)) && (KnownIDs(c) ==> KnownIDs(d)) && d.lbs == c.lbs
  {
  }

  lemma StepAnswers(
    gwName: string, c: Cloud, j: Journal, d: Cloud, k: Journal, e: Cloud, l: Journal, fipID: string)
    requires (j == k || FipStep(gwName, c, j, d, k)) && FipStep(gwName, d, k, e, l)
    ensures MissingSince(j.answers, k.answers, ReadFip(fipID)) ==> MissingSince(j.answers, l.answers, ReadFip(fipID))
  {
    SeenLonger(j.answers, j.answers, k.answers, l.answers, ReadFip(fipID));
    hide MissingSince;
  }

  /** None is recorded, or the recorded one is gone. */
  lemma FoundIsAddress(
    gwName: string, lb: LoadBalancer, c: Cloud, j: Journal, a: FipRecord, d: Cloud, k: Journal, m: FipRecord,
    seen: string, e: Cloud, l: Journal, b: FipRecord, failed: bool, ip: string)
    requires if a.fipID == "" then d == c && k == j && m == a else TriedStep(gwName, lb, c, j, a, d, k, m, false, seen)
    requires FoundStep(gwName, lb, d, k, m, e, l, b, failed, ip)
    ensures AddressStep(gwName, lb, c, j, a, e, l, b, failed, ip)
  {
    hide FipStep, GatewayTracked, RecordedAddress, RecordedFip, GatewayWrites, ExposureSettled, AddressSettled,
         KnownAddress, MissingSince;
    FipUntouched(gwName, c, j, a.gatewayID, a.exposed);
    StepAnswers(gwName, c, j, d, k, e, l, a.fipID);
    FipStepsTracked(gwName, c, j, a.gatewayID, a.exposed, d, k, m.gatewayID, m.exposed, e, l, b.gatewayID, b.exposed);
  }

  /** An allocation, counted from before the list that preceded it, leaves the recorded gateway alone. */
  lemma AllocationTracked(
    c: Cloud, i: Journal, j: Journal, d: Cloud, k: Journal, lbID: string, gwName: string, id: string, exposed: bool)
    requires d == c.(fips := d.fips, gateways := d.gateways, lbs := d.lbs, issued := d.issued)
    requires FipsGrew(c, d, lbID, gwName) && ValidFips(d) && |d.fips| <= |c.fips| + Cap(j, k)
    requires ListsOnly(i, j) && Writes(j, k) && ValidFips(c) && KnownIDs(c)
    requires Count(AttachedTo(lbID), c.fips) == 0 || i.fipListFailures < j.fipListFailures
    ensures FipStep(gwName, c, i, d, k) && i.faults <= k.faults && KnownIDs(d)
    ensures GatewayTracked(gwName, i, k, c.issued, c.gateways, id, exposed, d.gateways, id, exposed)
    ensures |c.fips| < |d.fips| ==> First(AttachedTo(lbID), d.fips).Some?
  {
    AllocationStep(c, j, d, k, i, lbID, gwName);
    FipStepValid(gwName, c, i, d, k);
    TrackedSame(gwName, i, k, c, d, id, exposed);
    if |c.fips| < |d.fips| {
      AllocationAttached(c, d, lbID, gwName);
    }
    hide FipStep, GatewayTracked, ValidFips, KnownIDs;
  }

  /** Lists that are read after a floating IP step add nothing to it. */
  lemma ThenListed(
    gwName: string, c: Cloud, j: Journal, d: Cloud, k: Journal, l: Journal, id: string, exposed: bool, id': string,
    exposed': bool)
    requires FipStep(gwName, c, j, d, k) && ListsOnly(k, l)
    requires GatewayTracked(gwName, j, k, c.issued, c.gateways, id, exposed, d.gateways, id', exposed')
    ensures FipStep(gwName, c, j, d, l) && j.faults <= k.faults <= l.faults
    ensures GatewayTracked(gwName, j, l, c.issued, c.gateways, id, exposed, d.gateways, id', exposed')
  {
    ListingStep(gwName, d, k, l);
    FipUntouched(gwName, d, k, id', exposed');
    FipStepsTracked(gwName, c, j, id, exposed, d, k, id', exposed', d, l, id', exposed');
  }
}
