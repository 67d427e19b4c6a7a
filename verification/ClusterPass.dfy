/** What a whole reconciling pass must keep, what it achieves when nothing fails, and when it has nothing left to do. */
module ClusterPass {
  import opened Sequences
  import opened CloudModel
  import opened Errors
  import opened OvhClient
  import opened ClusterModel
  import opened NetworkSteps
  import opened PortSteps
  import opened FipSteps
  import opened LbSteps

  datatype PassOutcome = FinalizerAdded | NetworkWait | LbWait | PassFailed(error: Error) | PassReady

  /** Load balancer, DNS and the ready marks are settled. */
  predicate LaterSettled(spec: ClusterSpec, c: Cloud, s: ClusterStatus) {
    && LbSettled(spec, c, s) && (spec.existingFip != "" ==> s.fipID != "")
    && DnsSettled(spec, s.host, s.recordID)
    && s.ready && s.provisioned
  }

  /** A gateway is still to be exposed. */
  predicate ExposureLeft(spec: ClusterSpec, c: Cloud, s: ClusterStatus) {
    spec.floatingNetworkID != "" && GatewayWrites(c.gateways, s.gatewayID, s.gatewayExposed, GatewayName(spec))
  }

  /**
   * A recorded load balancer, and its API pair, is only forgotten after a read answered that it is missing; and so with
   * the recorded floating IP.
   */
  predicate LbForgets(spec: ClusterSpec, a: seq<Answer>, b: seq<Answer>, s: ClusterStatus, t: ClusterStatus) {
    && ((s.lbID != "" && t.lbID != s.lbID) || (s.listenerID != "" && t.listenerID != s.listenerID)
        || (s.poolID != "" && t.poolID != s.poolID) ==>
          MissingSince(a, b, ReadLb(LbInUse(spec, s.lbID))))
    && (s.fipID != "" && t.fipID == "" ==> MissingSince(a, b, ReadFip(s.fipID)))
  }

  /** The whole contract of the load balancer step, over values. */
  ghost predicate LbStep(
    spec: ClusterSpec, c: Cloud, j: Journal, s: ClusterStatus, d: Cloud, k: Journal, t: ClusterStatus, r: LbResult)
  {
    && Kept(spec, c, j, d, k) && SameSurroundings(c, d)
    && t == s.(lbID := t.lbID, listenerID := t.listenerID, poolID := t.poolID,
               registerListenerID := t.registerListenerID, registerPoolID := t.registerPoolID,
               fipID := t.fipID, gatewayID := t.gatewayID, gatewayExposed := t.gatewayExposed, host := t.host)
    && RecordSources(spec, j, k, c, s, d, t) && LbForgets(spec, j.answers, k.answers, s, t)
    && LookupStep(spec, c.lbs, j, k) && LbInPlace(spec, c, d, t, r.LbWaiting?)
    && (if r.LbDone? then LbReady(spec, d, s, t) else t.host == s.host)
    && (Clean(j, k) ==> CleanLbStep(spec, c, s, d, t, r))
    && (Clean(j, k) && LbSettled(spec, c, s) && (spec.existingFip != "" ==> s.fipID != "") ==>
          && r.LbDone? && t.host == s.host
          && k.writes == j.writes + (if ExposureLeft(spec, c, s) then 1 else 0)
          && (!ExposureLeft(spec, c, s) ==> d == c && t == s))
  }

  /** What holds of the recorded load balancer and endpoint when the step is done. */
  ghost predicate LbReady(spec: ClusterSpec, c: Cloud, s: ClusterStatus, t: ClusterStatus) {
    && t.lbID == LbInUse(spec, s.lbID) && LbActive(c.lbs, t.lbID)
    && PairSource(c, API_LISTENER, t.lbID, s.listenerID, s.poolID, t.listenerID, t.poolID)
    && t.listenerID != "" && t.poolID != "" && t.registerListenerID != "" && t.registerPoolID != ""
    && EndpointChosen(spec, c, t.lbID, t.fipID, s.host, t.host)
  }

  ghost predicate CleanLbStep(spec: ClusterSpec, c: Cloud, s: ClusterStatus, d: Cloud, t: ClusterStatus, r: LbResult) {
    var id := LbInUse(spec, s.lbID);
    && (if id != "" && First(LbWithId(id), c.lbs).Some? then
          && t.lbID == id && LbProgress(spec, FipInUse(spec, s.fipID), c.fips, d, t, r)
          && (r.LbDone? && spec.existingFip != "" ==> t.fipID != "")
        else LbCreated(spec, c.lbs, d, t.networkID, t.subnetID, t.lbID, r))
    && (id != "" && LbActive(c.lbs, id) && FipAvailable(c.fips, id, FipInUse(spec, s.fipID)) ==> r.LbDone?)
  }

  /**
   * Adopting what the user named and looking the load balancer up: one that is gone is forgotten with the API pair.
   */
  ghost predicate AdoptStep(
    spec: ClusterSpec, c: Cloud, j: Journal, s: ClusterStatus, k: Journal, t: ClusterStatus,
    r: Result<Option<LoadBalancer>>)
  {
    var id := LbInUse(spec, s.lbID);
    && Calls(j, k) && k.writes == j.writes
    && t == s.(lbID := t.lbID, listenerID := t.listenerID, poolID := t.poolID, fipID := FipInUse(spec, s.fipID))
    && (if r.Ok? && r.value.None? then
          && t.lbID == ""
          && (if id != "" then t.listenerID == "" && t.poolID == ""
              else t.listenerID == s.listenerID && t.poolID == s.poolID)
          && (Clean(j, k) ==> id == "" || First(LbWithId(id), c.lbs).None?)
        else t.lbID == id && t.listenerID == s.listenerID && t.poolID == s.poolID)
    && (r.Ok? && r.value.Some? ==> id != "" && First(LbWithId(id), c.lbs) == r.value)
    && (id != "" ==> (r.Ok? && r.value.None? <==> MissingSince(j.answers, k.answers, ReadLb(id))))
    && (Clean(j, k) ==> r.Ok?)
  }

  /** Nothing is read when none is recorded, and otherwise the recorded one. */
  lemma AdoptCalls(spec: ClusterSpec, j: Journal, k: Journal, lbID: string)
    requires var id := LbInUse(spec, lbID); if id == "" then k == j else Asked(j, k, ReadLb(id))
    ensures Calls(j, k) && k.writes == j.writes
    ensures var id := LbInUse(spec, lbID);
            id != "" ==> (MissingSince(j.answers, k.answers, ReadLb(id)) <==> Missing(LastAnswer(k)))
  {
    if LbInUse(spec, lbID) != "" {
      OneAnswer(j, k, ReadLb(LbInUse(spec, lbID)));
    }
    hide Missing;
  }

  /** The load balancer exists: what seeing to its ports and endpoint keeps, records and achieves. */
  ghost predicate ExistingStep(
    spec: ClusterSpec, c: Cloud, j: Journal, s: ClusterStatus, d: Cloud, k: Journal, t: ClusterStatus, r: LbResult)
  {
    && Kept(spec, c, j, d, k) && SameSurroundings(c, d) && SameLookups(j, k)
    && t == s.(listenerID := t.listenerID, poolID := t.poolID,
               registerListenerID := t.registerListenerID, registerPoolID := t.registerPoolID,
               fipID := t.fipID, gatewayID := t.gatewayID, gatewayExposed := t.gatewayExposed, host := t.host)
    && |d.lbs| == |c.lbs| && (r.LbWaiting? ==> LbShown(d.lbs, s.lbID))
    && (Homes(c, s.lbID, s.listenerID, s.poolID) ==> Homes(d, t.lbID, t.listenerID, t.poolID))
    && PairSource(d, API_LISTENER, s.lbID, s.listenerID, s.poolID, t.listenerID, t.poolID)
    && PairSource(d, REGISTER_LISTENER, s.lbID, s.registerListenerID, s.registerPoolID,
                  t.registerListenerID, t.registerPoolID)
    && (t.fipID == s.fipID || t.fipID == "" || RecordedFip(d.lbs, d.fips, s.lbID, t.fipID))
    && (s.fipID != "" && t.fipID == "" ==> MissingSince(j.answers, k.answers, ReadFip(s.fipID)))
    && GatewayTracked(GatewayName(spec), j, k, c.issued, c.gateways, s.gatewayID, s.gatewayExposed,
                      d.gateways, t.gatewayID, t.gatewayExposed)
    && (if r.LbDone? then
          && LbActive(d.lbs, s.lbID)
          && t.listenerID != "" && t.poolID != "" && t.registerListenerID != "" && t.registerPoolID != ""
          && EndpointChosen(spec, d, s.lbID, t.fipID, s.host, t.host)
        else t.host == s.host)
    && (Clean(j, k) ==>
          && LbProgress(spec, s.fipID, c.fips, d, t, r)
          && (r.LbDone? && s.fipID != "" ==> t.fipID != ""))
    && (Clean(j, k) && LbSettled(spec, c, s) ==>
          && r.LbDone? && t.host == s.host
          && k.writes == j.writes + (if ExposureLeft(spec, c, s) then 1 else 0)
          && (!ExposureLeft(spec, c, s) ==> d == c && t == s))
    && (Clean(j, k) && LbActive(c.lbs, s.lbID) && FipAvailable(c.fips, s.lbID, s.fipID) ==> r.LbDone?)
  }

  /** None is recorded: only load balancers are added, on the recorded network, and one of the name may be recorded. */
  ghost predicate CreateStep(
    spec: ClusterSpec, c: Cloud, j: Journal, s: ClusterStatus, d: Cloud, k: Journal, t: ClusterStatus, r: LbResult)
  {
    && Kept(spec, c, j, d, k) && d == c.(lbs := d.lbs, issued := d.issued)
    && t == s.(lbID := t.lbID) && !r.LbDone? && (r.LbFailed? ==> t.lbID == s.lbID)
    && (t.lbID == s.lbID || LbOfCluster(spec, d.lbs, t.lbID))
    && LookupStep(spec, c.lbs, j, k)
    && LbInPlace(spec, c, d, t, r.LbWaiting?)
    && NewLbsOn(spec, c, d, s.networkID)
    && (Clean(j, k) && s.lbID == "" ==> LbCreated(spec, c.lbs, d, s.networkID, s.subnetID, t.lbID, r))
  }

  /** What the ports' step keeps and records, and when it does nothing. */
  ghost predicate PortsDone(
    spec: ClusterSpec, c: Cloud, j: Journal, s: ClusterStatus, d: Cloud, k: Journal, t: ClusterStatus)
  {
    && Kept(spec, c, j, d, k) && PortFrame(c, d) && SameLookups(j, k)
    && t == s.(listenerID := t.listenerID, poolID := t.poolID,
               registerListenerID := t.registerListenerID, registerPoolID := t.registerPoolID)
    && PairSource(d, API_LISTENER, s.lbID, s.listenerID, s.poolID, t.listenerID, t.poolID)
    && PairSource(d, REGISTER_LISTENER, s.lbID, s.registerListenerID, s.registerPoolID,
                  t.registerListenerID, t.registerPoolID)
    && (Clean(j, k) ==>
          PortsSettled(d.monitors, t.listenerID, t.poolID, t.registerListenerID, t.registerPoolID))
    && (PortsSettled(c.monitors, s.listenerID, s.poolID, s.registerListenerID, s.registerPoolID) ==>
          d == c && k.writes == j.writes && t == s)
  }

  /** What the floating IP and the endpoint host come to. */
  ghost predicate EndpointStep(
    spec: ClusterSpec, c: Cloud, j: Journal, s: ClusterStatus, d: Cloud, k: Journal, t: ClusterStatus, r: LbResult)
  {
    && FipStep(GatewayName(spec), c, j, d, k)
    && t == s.(fipID := t.fipID, gatewayID := t.gatewayID, gatewayExposed := t.gatewayExposed, host := t.host)
    && (t.fipID == s.fipID || t.fipID == "" || RecordedFip(d.lbs, d.fips, s.lbID, t.fipID))
    && (s.fipID != "" && t.fipID == "" ==> MissingSince(j.answers, k.answers, ReadFip(s.fipID)))
    && (if r.LbDone? then EndpointChosen(spec, d, s.lbID, t.fipID, s.host, t.host) else t.host == s.host)
    && GatewayTracked(GatewayName(spec), j, k, c.issued, c.gateways, s.gatewayID, s.gatewayExposed,
                      d.gateways, t.gatewayID, t.gatewayExposed)
    && (Clean(j, k) ==>
          match r
          case LbDone =>
            && EndpointSettled(spec, d.lbs, d.fips, s.lbID, t.fipID, t.host)
            && (s.fipID != "" ==> t.fipID != "")
            && (spec.floatingNetworkID != "" ==>
                  ExposureSettled(d.gateways, t.gatewayID, t.gatewayExposed, GatewayName(spec)))
          case LbWaiting =>
            && spec.floatingNetworkID != ""
            && ((First(LbWithId(s.lbID), c.lbs).Some? && First(LbWithId(s.lbID), c.lbs).value.vip == "")
                || AddressAwaited(s.fipID, c.fips, d.fips, s.lbID, t.fipID))
          case LbFailed(_) => false)
    && (Clean(j, k) && EndpointSettled(spec, c.lbs, c.fips, s.lbID, s.fipID, s.host) ==>
          && r.LbDone? && t.host == s.host
          && k.writes == j.writes + (if ExposureLeft(spec, c, s) then 1 else 0)
          && (!ExposureLeft(spec, c, s) ==> d == c && t == s))
    && (Clean(j, k) && FipAvailable(c.fips, s.lbID, s.fipID) ==> r.LbDone?)
  }

  /** The status after the endpoint step: a host that is set stays, else it is the address found. */
  function EndpointStatus(s: ClusterStatus, b: FipRecord, r: LbResult, address: string): ClusterStatus {
    s.(fipID := b.fipID, gatewayID := b.gatewayID, gatewayExposed := b.exposed,
       host := if r.LbDone? && s.host == "" then address else s.host)
  }

  /** The endpoint host is the load balancer's virtual IP, or with a floating network the address found. */
  lemma EndpointOf(
    spec: ClusterSpec, c: Cloud, j: Journal, s: ClusterStatus, lb: LoadBalancer, d: Cloud, k: Journal, b: FipRecord,
    r: LbResult, address: string)
    requires First(LbWithId(s.lbID), c.lbs) == Some(lb) && lb.id == s.lbID
    requires if spec.floatingNetworkID == "" then
               d == c && k == j && b == FipRecord(s.fipID, s.gatewayID, s.gatewayExposed) && r.LbDone?
               && address == lb.vip
             else
               && AddressStep(GatewayName(spec), lb, c, j, FipRecord(s.fipID, s.gatewayID, s.gatewayExposed),
                              d, k, b, r.LbFailed?, address)
               && (r.LbWaiting? ==> address == "") && (r.LbDone? ==> address != "")
    ensures EndpointStep(spec, c, j, s, d, k, EndpointStatus(s, b, r, address), r)
  {
    hide FipStep, GatewayTracked, RecordedAddress, RecordedFip, GatewayWrites, ExposureSettled, AddressAwaited,
         KnownAddress;
    FipUntouched(GatewayName(spec), c, j, s.gatewayID, s.gatewayExposed);
  }

  /** Waiting for the load balancer to become active touches nothing. */
  lemma WaitsForStatus(spec: ClusterSpec, c: Cloud, j: Journal, s: ClusterStatus, lb: LoadBalancer)
    requires First(LbWithId(s.lbID), c.lbs) == Some(lb) && lb.status != "active" && s.lbID != ""
    ensures ExistingStep(spec, c, j, s, c, j, s, LbWaiting)
  {
    hide Kept, PairSource, GatewayTracked, Homes, PortsSettled, EndpointSettled, AddressAwaited, FipAvailable;
    LbUntouched(spec, c, j, s);
  }

  lemma PortsOnly(
    spec: ClusterSpec, c: Cloud, j: Journal, s: ClusterStatus, d: Cloud, k: Journal, t: ClusterStatus, e: Error)
    requires PortsDone(spec, c, j, s, d, k, t) && s.lbID != "" && !Clean(j, k)
    ensures ExistingStep(spec, c, j, s, d, k, t, LbFailed(e))
  {
    hide Kept, PairSource, GatewayTracked, Homes, PortFrame, LbSettled, PortsGrew, FipStep;
    PortFrameFacts(c, d);
    KeptFacts(spec, c, j, d, k);
    HomesSourced(c, d, s.lbID, s.listenerID, s.poolID, t.listenerID, t.poolID);
    TrackedSame(GatewayName(spec), j, k, c, d, s.gatewayID, s.gatewayExposed);
  }

  /** The ports' step and the endpoint's, together. */
  lemma PortsThenEndpoint(
    spec: ClusterSpec, c: Cloud, j: Journal, s: ClusterStatus, lb: LoadBalancer,
    d: Cloud, k: Journal, m: ClusterStatus, e: Cloud, l: Journal, t: ClusterStatus, r: LbResult)
    requires First(LbWithId(s.lbID), c.lbs) == Some(lb) && lb.status == "active" && s.lbID != ""
    requires PortsDone(spec, c, j, s, d, k, m) && EndpointStep(spec, d, k, m, e, l, t, r)
    requires m.listenerID != "" && m.poolID != "" && m.registerListenerID != "" && m.registerPoolID != ""
    ensures ExistingStep(spec, c, j, s, e, l, t, r)
  {
    hide Kept, FipStep, PortFrame, Homes, PairSource, GatewayTracked, PortsGrew, EndpointSettled, PortsSettled,
         ExposureSettled, AddressAwaited, RecordedFip, FipAvailable, GatewayWrites, MissingSince;
    PortFrameFacts(c, d);
    KeptFacts(spec, c, j, d, k);
    FipStepFacts(GatewayName(spec), d, k, e, l);
    FipStepKept(spec, d, k, e, l);
    KeptFacts(spec, d, k, e, l);
    SeenLonger(j.answers, k.answers, l.answers, l.answers, ReadFip(s.fipID));
    KeptCompose(spec, c, j, d, k, e, l);
    KeptFacts(spec, c, j, e, l);
    PairSourceKept(d, e, API_LISTENER, s.lbID, s.listenerID, s.poolID, t.listenerID, t.poolID);
    PairSourceKept(d, e, REGISTER_LISTENER, s.lbID, s.registerListenerID, s.registerPoolID, t.registerListenerID,
                   t.registerPoolID);
    HomesSourced(c, e, s.lbID, s.listenerID, s.poolID, t.listenerID, t.poolID);
    LaterTracked(GatewayName(spec), c, j, d, k, e, l, s, t);
  }

  lemma LaterTracked(
    gwName: string, c: Cloud, j: Journal, d: Cloud, k: Journal, e: Cloud, l: Journal, s: ClusterStatus,
    t: ClusterStatus)
    requires c.gateways == d.gateways && c.issued <= d.issued && FipStep(gwName, d, k, e, l) && j.faults <= k.faults
    requires j.answers <= k.answers
    requires GatewayTracked(gwName, k, l, d.issued, d.gateways, s.gatewayID, s.gatewayExposed,
                            e.gateways, t.gatewayID, t.gatewayExposed)
    ensures GatewayTracked(gwName, j, l, c.issued, c.gateways, s.gatewayID, s.gatewayExposed,
                           e.gateways, t.gatewayID, t.gatewayExposed)
  {
    SeenLonger(j.answers, k.answers, l.answers, l.answers, Request.ExposeGateway(t.gatewayID));
    hide GatewayGone, GatewayAt, ExposedAt, AcceptedSince;
  }

  /** Answers before and during a step are answers of the two together. */
  lemma StepForgets(spec: ClusterSpec, c: Cloud, j: Journal, k: Journal, d: Cloud, l: Journal, id: string)
    requires Calls(j, k) && Kept(spec, c, k, d, l)
    ensures MissingSince(j.answers, k.answers, ReadLb(id)) ==> MissingSince(j.answers, l.answers, ReadLb(id))
    ensures MissingSince(k.answers, l.answers, ReadFip(id)) ==> MissingSince(j.answers, l.answers, ReadFip(id))
  {
    KeptFacts(spec, c, k, d, l);
    SeenLonger(j.answers, j.answers, k.answers, l.answers, ReadLb(id));
    SeenLonger(j.answers, k.answers, l.answers, l.answers, ReadFip(id));
    hide Kept, MissingSince;
  }

  lemma FailedIsStep(
    spec: ClusterSpec, c: Cloud, j: Journal, s: ClusterStatus, k: Journal, t: ClusterStatus,
    r: Result<Option<LoadBalancer>>)
    requires AdoptStep(spec, c, j, s, k, t, r) && r.Err?
    ensures LbStep(spec, c, j, s, c, k, t, LbFailed(r.error))
  {
    LbLookedUp(spec, c, j, k, s);
    hide Kept, PairSource, GatewayTracked, LbSettled, CleanLbStep, LookupStep, ListenerOn, PoolOn, MissingSince;
  }

  /** What is seen to is not forgotten, apart from a floating IP that is gone. */
  lemma ExistingForgets(
    spec: ClusterSpec, c: Cloud, j: Journal, s: ClusterStatus, k: Journal, s': ClusterStatus, lb: LoadBalancer,
    d: Cloud, l: Journal, t: ClusterStatus, r: LbResult)
    requires AdoptStep(spec, c, j, s, k, s', Ok(Some(lb))) && ExistingStep(spec, c, k, s', d, l, t, r)
    ensures LbForgets(spec, j.answers, l.answers, s, t)
  {
    hide Kept, Homes, GatewayTracked, LbActive, LbSettled, EndpointChosen, RecordedFip, LbProgress, ExposureLeft,
         FipAvailable, SameSurroundings, Calls, MissingSince, ListenerFound, PoolFound;
    StepForgets(spec, c, j, k, d, l, s.fipID);
  }

  /** With none found, what is forgotten is the load balancer that is gone. */
  lemma CreateForgets(
    spec: ClusterSpec, c: Cloud, j: Journal, s: ClusterStatus, k: Journal, s': ClusterStatus,
    d: Cloud, l: Journal, t: ClusterStatus, r: LbResult)
    requires AdoptStep(spec, c, j, s, k, s', Ok(None)) && CreateStep(spec, c, k, s', d, l, t, r)
    ensures LbForgets(spec, j.answers, l.answers, s, t)
  {
    hide Kept, LookupStep, LbCreated, LbOfCluster, Calls, MissingSince, NetworkExists;
    StepForgets(spec, c, j, k, d, l, LbInUse(spec, s.lbID));
  }

  lemma ExistingIsStep(
    spec: ClusterSpec, c: Cloud, j: Journal, s: ClusterStatus, k: Journal, s': ClusterStatus, lb: LoadBalancer,
    d: Cloud, l: Journal, t: ClusterStatus, r: LbResult)
    requires AdoptStep(spec, c, j, s, k, s', Ok(Some(lb))) && ExistingStep(spec, c, k, s', d, l, t, r)
    ensures LbStep(spec, c, j, s, d, l, t, r)
  {
    hide Kept, PairSource, GatewayTracked, LbActive, PortsSettled, EndpointSettled, EndpointChosen, LookupStep,
         ListenerOn, PoolOn, RecordedFip, LbProgress, GatewayWrites, FipAvailable, SameSurroundings, Calls,
         LbOfCluster, LbCreated, MissingSince, LbForgets;
    LbLookedUp(spec, c, j, k, s);
    ExistingForgets(spec, c, j, s, k, s', lb, d, l, t, r);
    LookedUpThen(spec, c, j, k, d, l, s, t.gatewayID, t.gatewayExposed);
    NoLookups(spec, c.lbs, k, l);
  }

  lemma CreateIsClean(
    spec: ClusterSpec, c: Cloud, j: Journal, s: ClusterStatus, k: Journal, s': ClusterStatus,
    d: Cloud, l: Journal, t: ClusterStatus, r: LbResult)
    requires AdoptStep(spec, c, j, s, k, s', Ok(None)) && CreateStep(spec, c, k, s', d, l, t, r)
    ensures Clean(j, l) ==> CleanLbStep(spec, c, s, d, t, r)
  {
    KeptFacts(spec, c, k, d, l);
    hide Kept, LookupStep, LbCreated, FipAvailable, LbOfCluster, MissingSince, NetworkExists;
  }

  lemma CreateIsStep(
    spec: ClusterSpec, c: Cloud, j: Journal, s: ClusterStatus, k: Journal, s': ClusterStatus,
    d: Cloud, l: Journal, t: ClusterStatus, r: LbResult)
    requires AdoptStep(spec, c, j, s, k, s', Ok(None)) && CreateStep(spec, c, k, s', d, l, t, r)
    ensures LbStep(spec, c, j, s, d, l, t, r)
  {
    hide Kept, PairSource, GatewayTracked, PortsSettled, EndpointSettled, LookupStep, ListenerOn, PoolOn,
         LbCreated, ExposureLeft, FipAvailable, SameSurroundings, Calls, LbOfCluster, RecordedFip,
         MissingSince, LbForgets, NetworkExists, CleanLbStep;
    LbLookedUp(spec, c, j, k, s);
    CreateForgets(spec, c, j, s, k, s', d, l, t, r);
    CreateIsClean(spec, c, j, s, k, s', d, l, t, r);
    NewLbOnly(spec, c, k, d, l, s, t.lbID, t.listenerID, t.poolID);
    LookedUpThen(spec, c, j, k, d, l, s, t.gatewayID, t.gatewayExposed);
  }

  /** The DNS step: only the record changes, and it is settled when no call failed. */
  predicate DnsStep(
    spec: ClusterSpec, c: Cloud, j: Journal, recordID: int, d: Cloud, k: Journal, recordID': int, host: string)
  {
    && DnsFrame(c, d) && Calls(j, k) && RecordMade(c, recordID, d, recordID')
    && (Clean(j, k) ==> DnsSettled(spec, host, recordID'))
    && (DnsSettled(spec, host, recordID) ==> recordID' == recordID && d == c && k == j)
  }

  /**
   * What the steps after the network do, whatever fails; what they achieve when nothing fails; and when they do
   * nothing.
   */
  ghost predicate LaterPart(
    spec: ClusterSpec, c: Cloud, j: Journal, s: ClusterStatus, d: Cloud, k: Journal, t: ClusterStatus, out: PassOutcome)
  {
    && c.networks == d.networks && c.subnets == d.subnets && c.flavors == d.flavors && c.groups == d.groups
    && t.groupIDs == s.groupIDs && t.finalizer == s.finalizer && t.networkID == s.networkID
    && t.subnetID == s.subnetID && t.networkCreated == s.networkCreated
    && RecordSources(spec, j, k, c, s, d, t) && LbForgets(spec, j.answers, k.answers, s, t)
    && LookupStep(spec, c.lbs, j, k) && LbInPlace(spec, c, d, t, out.LbWait?)
    && RecordMade(c, s.recordID, d, t.recordID)
    && (if out.PassReady? then t.ready && t.provisioned && LbReady(spec, d, s, t)
        else
          && (out.LbWait? || out.PassFailed?)
          && t.ready == s.ready && t.provisioned == s.provisioned && t.host == s.host)
    && (Clean(j, k) ==>
          && CleanLbStep(spec, c, s, d, t, LbResultOf(out))
          && (out.PassReady? ==> LaterSettled(spec, d, t)))
    && (Clean(j, k) && LaterSettled(spec, c, s) ==>
          && out.PassReady?
          && k.writes == j.writes + (if ExposureLeft(spec, c, s) then 1 else 0)
          && (!ExposureLeft(spec, c, s) ==> d == c && t == s))
  }

  /** The status fields that the load balancer step reads or records agree. */
  predicate SameLbFields(s: ClusterStatus, t: ClusterStatus) {
    && t.lbID == s.lbID && t.listenerID == s.listenerID && t.poolID == s.poolID
    && t.registerListenerID == s.registerListenerID && t.registerPoolID == s.registerPoolID
    && t.fipID == s.fipID && t.gatewayID == s.gatewayID && t.gatewayExposed == s.gatewayExposed
  }

  /** What was not forgotten in a part of the time was not forgotten. */
  lemma LbForgetsLonger(
    spec: ClusterSpec, a: seq<Answer>, b: seq<Answer>, c: seq<Answer>, d: seq<Answer>, s: ClusterStatus,
    t: ClusterStatus, s': ClusterStatus, t': ClusterStatus)
    requires a <= b <= c <= d && LbForgets(spec, b, c, s, t) && SameLbFields(s, s') && SameLbFields(t, t')
    ensures LbForgets(spec, a, d, s', t')
  {
    SeenLonger(a, b, c, d, ReadLb(LbInUse(spec, s.lbID)));
    SeenLonger(a, b, c, d, ReadFip(s.fipID));
    hide MissingSince;
  }

  /** Recording nothing. */
  lemma SourcesSame(spec: ClusterSpec, j: Journal, k: Journal, c: Cloud, s: ClusterStatus, d: Cloud, t: ClusterStatus)
    requires PortsGrew(c, d) && c.gateways == d.gateways && SameLbFields(s, t)
    ensures RecordSources(spec, j, k, c, s, d, t)
  {
    HomesKept(c, d, s.lbID, s.listenerID, s.poolID);
    hide PortsGrew, Homes, ListenerFound, PoolFound;
  }

  /** The time between `j` and `k` is part of that between `i` and `l`. */
  predicate Within(i: Journal, j: Journal, k: Journal, l: Journal) {
    i.answers <= j.answers <= k.answers <= l.answers && i.faults <= j.faults <= k.faults <= l.faults
  }

  /** Sources hold also as seen from an earlier moment. */
  lemma SourcesFrom(
    spec: ClusterSpec, j: Journal, k: Journal, i: Journal, l: Journal, c: Cloud, s: ClusterStatus, d: Cloud,
        t: ClusterStatus,
    e: Cloud, u: ClusterStatus)
    requires PortsGrew(c, d) && c.gateways == d.gateways && SameLbFields(s, t)
    requires Within(i, j, k, l) && RecordSources(spec, j, k, d, t, e, u)
    ensures RecordSources(spec, i, l, c, s, e, u)
  {
    HomesKept(c, d, s.lbID, s.listenerID, s.poolID);
    assert c.issued <= d.issued;
    SeenLonger(i.answers, j.answers, k.answers, l.answers, Request.ExposeGateway(u.gatewayID));
    hide PortsGrew, Homes, PairSource, RecordedFip, LbOfCluster, GatewayGone, GatewayAt, ExposedAt, AcceptedSince;
  }

  /** And later, if what follows leaves what they were read from. */
  lemma SourcesThen(
    spec: ClusterSpec, j: Journal, k: Journal, i: Journal, l: Journal, c: Cloud, s: ClusterStatus, d: Cloud,
        t: ClusterStatus,
    e: Cloud, u: ClusterStatus)
    requires DnsFrame(d, e) && SameLbFields(t, u)
    requires Within(i, j, k, l) && RecordSources(spec, j, k, c, s, d, t)
    ensures RecordSources(spec, i, l, c, s, e, u)
  {
    assert PortsGrew(d, e);
    HomesKept(d, e, t.lbID, t.listenerID, t.poolID);
    PairSourceKept(d, e, API_LISTENER, t.lbID, s.listenerID, s.poolID, t.listenerID, t.poolID);
    PairSourceKept(d, e, REGISTER_LISTENER, t.lbID, s.registerListenerID, s.registerPoolID, t.registerListenerID,
                   t.registerPoolID);
    SeenLonger(i.answers, j.answers, k.answers, l.answers, Request.ExposeGateway(t.gatewayID));
    hide PortsGrew, Homes, PairSource, LbOfCluster, GatewayGone, GatewayAt, ExposedAt, AcceptedSince;
  }

  function LbResultOf(out: PassOutcome): LbResult {
    match out
    case PassReady => LbDone
    case PassFailed(e) => LbFailed(e)
    case _ => LbWaiting
  }

  lemma LbOnly(
    spec: ClusterSpec, c: Cloud, j: Journal, s: ClusterStatus, d: Cloud, k: Journal, t: ClusterStatus, r: LbResult)
    requires LbStep(spec, c, j, s, d, k, t, r) && !r.LbDone?
    ensures Kept(spec, c, j, d, k)
    ensures LaterPart(spec, c, j, s, d, k, t, if r.LbWaiting? then LbWait else PassFailed(r.error))
  {
    hide Kept, RecordSources, CleanLbStep;
  }

  /** After the load balancer step is done, the DNS step and the ready marks leave all that it reached. */
  lemma LbAndRecords(
    spec: ClusterSpec, c: Cloud, j: Journal, s: ClusterStatus,
    d: Cloud, k: Journal, t: ClusterStatus, e: Cloud, l: Journal, u: ClusterStatus)
    requires LbStep(spec, c, j, s, d, k, t, LbDone)
    requires DnsStep(spec, d, k, t.recordID, e, l, u.recordID, t.host)
    requires u == t.(recordID := u.recordID, ready := true, provisioned := true)
    ensures Kept(spec, c, j, e, l)
    ensures LaterPart(spec, c, j, s, e, l, u, PassReady)
  {
    hide Kept, RecordSources, SubnetStep, CleanLbStep, LbReady, LaterSettled,
         ExposureLeft, LbSettled, LookupStep;
    RecordsKept(spec, d, k, e, l);
    KeptCompose(spec, c, j, d, k, e, l);
    KeptFacts(spec, c, j, d, k);
    LbForgetsLonger(spec, j.answers, j.answers, k.answers, l.answers, s, t, s, u);
    RecordsLeave(spec, c, s, d, t, e, u);
    SourcesThen(spec, j, k, j, l, c, s, d, t, e, u);
    LookupThen(spec, c.lbs, j, k, l);
    LbAndRecordsClean(spec, c, j, s, d, k, t, e, l, u);
    hide DnsStep, LbStep;
  }

  lemma LbThenRecords(
    spec: ClusterSpec, c: Cloud, j: Journal, s: ClusterStatus,
    d: Cloud, k: Journal, t: ClusterStatus, r: LbResult, e: Cloud, l: Journal, u: ClusterStatus, out: PassOutcome)
    requires LbStep(spec, c, j, s, d, k, t, r) && r == LbResultOf(out) && (r.LbWaiting? ==> out.LbWait?)
    requires if r.LbDone? then
               && DnsStep(spec, d, k, t.recordID, e, l, u.recordID, t.host)
               && u == t.(recordID := u.recordID, ready := true, provisioned := true)
             else e == d && l == k && u == t
    ensures Kept(spec, c, j, e, l)
    ensures LaterPart(spec, c, j, s, e, l, u, out)
  {
    hide LbStep, DnsStep, LaterPart, Kept;
    if r.LbDone? {
      LbAndRecords(spec, c, j, s, d, k, t, e, l, u);
    } else {
      LbOnly(spec, c, j, s, d, k, t, r);
    }
  }

  lemma LookupThen(spec: ClusterSpec, lbs: seq<LoadBalancer>, j: Journal, k: Journal, l: Journal)
    requires LookupStep(spec, lbs, j, k) && SameLookups(k, l)
    ensures LookupStep(spec, lbs, j, l)
  {
  }

  lemma LbAndRecordsClean(
    spec: ClusterSpec, c: Cloud, j: Journal, s: ClusterStatus,
    d: Cloud, k: Journal, t: ClusterStatus, e: Cloud, l: Journal, u: ClusterStatus)
    requires LbStep(spec, c, j, s, d, k, t, LbDone)
    requires DnsStep(spec, d, k, t.recordID, e, l, u.recordID, t.host)
    requires u == t.(recordID := u.recordID, ready := true, provisioned := true)
    ensures Clean(j, l) ==>
              CleanLbStep(spec, c, s, e, u, LbDone) && LaterSettled(spec, e, u)
    ensures Clean(j, l) && LaterSettled(spec, c, s) ==>
              && l.writes == j.writes + (if ExposureLeft(spec, c, s) then 1 else 0)
              && (!ExposureLeft(spec, c, s) ==> e == c && u == s)
  {
    RecordsLeave(spec, c, s, d, t, e, u);
    KeptFacts(spec, c, j, d, k);
    hide Kept, RecordSources, CleanLbStep, LbReady, LbSettled,
         DnsFrame, ExposureLeft;
    assert Clean(j, l) ==> Clean(j, k) && Clean(k, l);
  }

  lemma GroupsKept(spec: ClusterSpec, c: Cloud, j: Journal, d: Cloud, k: Journal)
    requires GroupFrame(c, d) && Calls(j, k)
    ensures Kept(spec, c, j, d, k) && (ValidCloud(c) ==> ValidCloud(d))
    ensures PortsGrew(c, d)
  {
    SameCountedKeeps(c, j, d, k);
  }

  lemma RecordsKept(spec: ClusterSpec, c: Cloud, j: Journal, d: Cloud, k: Journal)
    requires DnsFrame(c, d) && Calls(j, k)
    ensures Kept(spec, c, j, d, k) && j.faults <= k.faults && j.answers <= k.answers
  {
    SameCountedKeeps(c, j, d, k);
  }

  lemma RecordsLeave(
    spec: ClusterSpec, c: Cloud, s: ClusterStatus, d: Cloud, t: ClusterStatus, e: Cloud, u: ClusterStatus)
    requires DnsFrame(d, e)
    requires u == t.(recordID := u.recordID, ready := u.ready, provisioned := u.provisioned)
    ensures LbReady(spec, d, s, t) ==> LbReady(spec, e, s, u)
    ensures CleanLbStep(spec, c, s, d, t, LbDone) ==>
              CleanLbStep(spec, c, s, e, u, LbDone) && LbSettled(spec, e, u)
              && (spec.existingFip != "" ==> u.fipID != "")
    ensures SameSurroundings(c, d) ==> c.groups == e.groups
    ensures SameSurroundings(c, d) ==> c.networks == e.networks && c.subnets == e.subnets && c.flavors == e.flavors
  {
    PairSourceKept(d, e, API_LISTENER, t.lbID, s.listenerID, s.poolID, t.listenerID, t.poolID);
    hide LbActive, PortsSettled, EndpointSettled, GatewayWrites, ExposureSettled, PairSource;
  }

  /** The whole contract of the credentials and network step, over values. */
  ghost predicate GroundStep(
    spec: ClusterSpec, c: Cloud, j: Journal, s: ClusterStatus, d: Cloud, k: Journal, t: ClusterStatus, r: NetworkResult)
  {
    && Kept(spec, c, j, d, k) && NetworkFrame(c, d)
    && t == s.(networkID := t.networkID, networkCreated := t.networkCreated, subnetID := t.subnetID)
    && SameLookups(j, k) && NetworkVerdict(spec, d, t.networkID, t.subnetID, r)
    && NetworksStep(spec, c, j, s.networkID, d, k, t.networkID)
    && SubnetStep(s.networkID, s.subnetID, c.subnets, t.networkID, t.subnetID, d.subnets)
    && NetworkForgets(j.answers, k.answers, s.networkID, s.subnetID, t.networkID, t.subnetID)
    && (OwnsNetwork(spec, s.networkID, s.networkCreated, j.history.networksCreated) ==>
          OwnsNetwork(spec, t.networkID, t.networkCreated, k.history.networksCreated))
    && (Clean(j, k) ==>
          && (spec.network.None? ==> r.NetworkOk? && t.networkID == s.networkID)
          && NetworkProgress(spec, c, s.networkID, s.subnetID, d, t.networkID, t.subnetID, r))
    && (Clean(j, k) && NetworkSettled(spec, c, s.networkID, s.subnetID) ==>
          r.NetworkOk? && d == c && t == s && k.writes == j.writes)
  }

  predicate GroupStep(
    spec: ClusterSpec, c: Cloud, j: Journal, s: ClusterStatus, d: Cloud, k: Journal, t: ClusterStatus)
  {
    && GroupFrame(c, d) && Calls(j, k)
    && t == s.(groupIDs := t.groupIDs)
    && GroupSource(spec, d.groups, s.groupIDs, t.groupIDs) && NewGroups(spec, c.groups, d.groups)
    && (Clean(j, k) ==> GroupsSettled(spec.groups, t.groupIDs))
    && (GroupsSettled(spec.groups, s.groupIDs) ==> t == s && d == c && k.writes == j.writes)
  }

  /** Groups, load balancer, DNS and ready marks together. */
  ghost predicate OnGroundStep(
    spec: ClusterSpec, c: Cloud, j: Journal, s: ClusterStatus, d: Cloud, k: Journal, t: ClusterStatus, out: PassOutcome)
  {
    && c.networks == d.networks && c.subnets == d.subnets && c.flavors == d.flavors
    && GroupSource(spec, d.groups, s.groupIDs, t.groupIDs) && NewGroups(spec, c.groups, d.groups)
    && t.finalizer == s.finalizer && t.networkID == s.networkID
    && t.subnetID == s.subnetID && t.networkCreated == s.networkCreated
    && RecordSources(spec, j, k, c, s, d, t) && LbForgets(spec, j.answers, k.answers, s, t)
    && LookupStep(spec, c.lbs, j, k) && LbInPlace(spec, c, d, t, out.LbWait?)
    && RecordMade(c, s.recordID, d, t.recordID)
    && (if out.PassReady? then t.ready && t.provisioned && LbReady(spec, d, s, t)
        else
          && (out.LbWait? || out.PassFailed?)
          && t.ready == s.ready && t.provisioned == s.provisioned && t.host == s.host)
    && (Clean(j, k) ==>
          && CleanLbStep(spec, c, s, d, t, LbResultOf(out))
          && (out.PassReady? ==> LaterSettled(spec, d, t) && GroupsSettled(spec.groups, t.groupIDs)))
    && (Clean(j, k) && LaterSettled(spec, c, s) && GroupsSettled(spec.groups, s.groupIDs) ==>
          && out.PassReady?
          && k.writes == j.writes + (if ExposureLeft(spec, c, s) then 1 else 0)
          && (!ExposureLeft(spec, c, s) ==> d == c && t == s))
  }

  lemma GroupsAndLater(
    spec: ClusterSpec, c: Cloud, j: Journal, s: ClusterStatus,
    d: Cloud, k: Journal, t: ClusterStatus, e: Cloud, l: Journal, u: ClusterStatus, out: PassOutcome)
    requires GroupStep(spec, c, j, s, d, k, t)
    requires Kept(spec, d, k, e, l) && LaterPart(spec, d, k, t, e, l, u, out)
    ensures Kept(spec, c, j, e, l)
    ensures OnGroundStep(spec, c, j, s, e, l, u, out)
  {
    hide Kept, RecordSources, LbForgets, CleanLbStep, LbReady, GroupsSettled, GroupSource, PortsGrew, ValidCloud,
         LaterSettled, ExposureLeft;
    GroupsKept(spec, c, j, d, k);
    KeptCompose(spec, c, j, d, k, e, l);
    KeptFacts(spec, d, k, e, l);
    KeptFacts(spec, c, j, d, k);
    LbForgetsLonger(spec, j.answers, k.answers, l.answers, l.answers, t, u, s, u);
    SourcesFrom(spec, k, l, j, l, c, s, d, t, e, u);
    SameLbView(spec, c, s, d, t, e, u, LbResultOf(out));
    assert Clean(j, l) ==> Clean(j, k) && Clean(k, l);
  }

  /** The load balancer step looks only at parts of the service and status that the earlier steps leave alone. */
  lemma SameLbView(
    spec: ClusterSpec, c: Cloud, s: ClusterStatus, d: Cloud, t: ClusterStatus, e: Cloud, u: ClusterStatus, r: LbResult)
    requires c.lbs == d.lbs && c.fips == d.fips && c.monitors == d.monitors && c.gateways == d.gateways
    requires c.issued <= d.issued
    requires t == s.(networkID := t.networkID, networkCreated := t.networkCreated, subnetID := t.subnetID,
                     groupIDs := t.groupIDs)
    ensures CleanLbStep(spec, d, t, e, u, r) ==> CleanLbStep(spec, c, s, e, u, r)
    ensures LaterSettled(spec, d, t) == LaterSettled(spec, c, s)
    ensures ExposureLeft(spec, d, t) == ExposureLeft(spec, c, s)
    ensures LbReady(spec, e, t, u) == LbReady(spec, e, s, u)
  {
  }

  lemma ReadIsGround(spec: ClusterSpec, c: Cloud, j: Journal, s: ClusterStatus, k: Journal, e: Error)
    requires Reads(j, k) && !Clean(j, k)
    ensures GroundStep(spec, c, j, s, c, k, s, NetworkFailed(e))
  {
    ReadKept(spec, c, j, k);
  }

  lemma ReadThenGround(
    spec: ClusterSpec, c: Cloud, j: Journal, s: ClusterStatus, i: Journal, d: Cloud, k: Journal, t: ClusterStatus,
    r: NetworkResult)
    requires Reads(j, i) && GroundStep(spec, c, i, s, d, k, t, r)
    ensures GroundStep(spec, c, j, s, d, k, t, r)
  {
    hide Kept, NetworkSettled, NetworkProgress, OwnsNetwork, NetworkFrame, SubnetStep, NetworkAdded;
    ReadKept(spec, c, j, i);
    KeptCompose(spec, c, j, c, i, d, k);
    KeptFacts(spec, c, i, d, k);
    NetworkForgetsLonger(j.answers, i.answers, k.answers, k.answers, s.networkID, s.subnetID, t.networkID, t.subnetID);
  }

  /** Nothing at all is left to do, but possibly to expose the gateway. */
  predicate Settled(spec: ClusterSpec, c: Cloud, s: ClusterStatus) {
    && s.finalizer
    && NetworkSettled(spec, c, s.networkID, s.subnetID)
    && GroupsSettled(spec.groups, s.groupIDs)
    && LaterSettled(spec, c, s)
  }

  /** What one fault-free pass achieves, by its outcome. */
  ghost predicate CleanPass(
    spec: ClusterSpec, c: Cloud, s: ClusterStatus, d: Cloud, t: ClusterStatus, out: PassOutcome)
  {
    match out
    case FinalizerAdded => !s.finalizer && d == c && t == s.(finalizer := true)
    case NetworkWait =>
      && spec.network.Some? && s.finalizer && NetworkFrame(c, d)
      && t == s.(networkID := t.networkID, networkCreated := t.networkCreated, subnetID := t.subnetID)
      && NetworkProgress(spec, c, s.networkID, s.subnetID, d, t.networkID, t.subnetID, NetworkNotReady)
    case _ =>
      && s.finalizer && t.finalizer
      && (if spec.network.Some? && out.PassFailed?
          && NetworkProgress(spec, c, s.networkID, s.subnetID, d, t.networkID, t.subnetID, NetworkFailed(out.error))
          then true
          else
            && NetworkSettled(spec, d, t.networkID, t.subnetID)
            && (s.networkID != "" ==> t.networkID == s.networkID && d.networks == c.networks)
            && (s.subnetID != "" ==> t.subnetID == s.subnetID)
            && c.flavors == d.flavors
            && CleanLbStep(spec, c, s, d, t, LbResultOf(out)))
      && (out.PassReady? ==> Settled(spec, d, t))
  }

  /** What the network step said to a pass of this outcome; of a failed pass nothing is known. */
  function NetworkResultOf(out: PassOutcome): NetworkResult {
    match out
    case NetworkWait => NetworkNotReady
    case PassFailed(e) => NetworkFailed(e)
    case FinalizerAdded => NetworkFailed(Text(""))
    case _ => NetworkOk
  }

  /** The contract of one reconciling pass. */
  ghost predicate NormalPass(
    spec: ClusterSpec, c: Cloud, j: Journal, s: ClusterStatus, d: Cloud, k: Journal, t: ClusterStatus, out: PassOutcome)
  {
    && Kept(spec, c, j, d, k)
    && (!s.finalizer ==> out.FinalizerAdded? && d == c && k == j && t == s.(finalizer := true))
    && (s.finalizer ==> NetworksStep(spec, c, j, s.networkID, d, k, t.networkID))
    && SubnetStep(s.networkID, s.subnetID, c.subnets, t.networkID, t.subnetID, d.subnets)
    && NetworkForgets(j.answers, k.answers, s.networkID, s.subnetID, t.networkID, t.subnetID)
    && (OwnsNetwork(spec, s.networkID, s.networkCreated, j.history.networksCreated) ==>
          OwnsNetwork(spec, t.networkID, t.networkCreated, k.history.networksCreated))
    && GroupSource(spec, d.groups, s.groupIDs, t.groupIDs) && NewGroups(spec, c.groups, d.groups)
    && StatusKept(s, t)
    && RecordSources(spec, j, k, c, s, d, t) && LbForgets(spec, j.answers, k.answers, s, t)
    && LookupStep(spec, c.lbs, j, k) && LbInPlace(spec, c, d, t, out.LbWait?)
    && RecordMade(c, s.recordID, d, t.recordID)
        && NetworkVerdict(spec, d, t.networkID, t.subnetID, NetworkResultOf(out))
    && (if out.PassReady? then t.ready && t.provisioned && LbReady(spec, d, s, t)
        else t.ready == s.ready && t.provisioned == s.provisioned && t.host == s.host)
    && (Clean(j, k) ==> CleanPass(spec, c, s, d, t, out))
    && (Clean(j, k) && Settled(spec, c, s) ==>
          && out.PassReady?
          && k.writes == j.writes + (if ExposureLeft(spec, c, s) then 1 else 0)
          && (!ExposureLeft(spec, c, s) ==> d == c && t == s))
  }

  lemma FinalizerPass(spec: ClusterSpec, c: Cloud, j: Journal, s: ClusterStatus, t: ClusterStatus)
    requires !s.finalizer && t == s.(finalizer := true)
    ensures NormalPass(spec, c, j, s, c, j, t, FinalizerAdded)
  {
    KeptReflexive(spec, c, j);
    SourcesSame(spec, j, j, c, s, c, t);
    hide Kept, RecordSources;
  }

  lemma GroundPass(
    spec: ClusterSpec, c: Cloud, j: Journal, s: ClusterStatus, d: Cloud, k: Journal, t: ClusterStatus, r: NetworkResult)
    requires s.finalizer && GroundStep(spec, c, j, s, d, k, t, r)
    ensures ValidCloud(c) ==> ValidCloud(d)
    ensures r.NetworkNotReady? ==> NormalPass(spec, c, j, s, d, k, t, NetworkWait)
    ensures r.NetworkFailed? ==> NormalPass(spec, c, j, s, d, k, t, PassFailed(r.error))
  {
    KeptFacts(spec, c, j, d, k);
    SourcesSame(spec, j, k, c, s, d, t);
    hide Kept, RecordSources, NetworkForgets, MissingSince, OwnsNetwork, NetworkFrame, SubnetStep;
  }

  /** A host, once set, stays, and so do the ready marks. */
  lemma GroundKeepsStatus(
    spec: ClusterSpec, c: Cloud, j: Journal, s: ClusterStatus,
    d: Cloud, k: Journal, t: ClusterStatus, e: Cloud, l: Journal, u: ClusterStatus, out: PassOutcome)
    requires GroundStep(spec, c, j, s, d, k, t, NetworkOk) && OnGroundStep(spec, d, k, t, e, l, u, out)
    ensures StatusKept(s, u)
  {
    hide Kept, RecordSources, LbForgets, NetworkForgets, SubnetStep, CleanLbStep, LaterSettled, ExposureLeft,
         GroupsSettled, GroupSource,
         OwnsNetwork, NetworkProgress, NetworksStep, NetworkFrame, NetworkSettled, PairSource, LbActive, LookupStep,
         RecordedAddress;
  }

  /** What the later steps keep to whatever fails, seen from before the network step. */
  lemma GroundVerdicts(
    spec: ClusterSpec, c: Cloud, j: Journal, s: ClusterStatus,
    d: Cloud, k: Journal, t: ClusterStatus, e: Cloud, l: Journal, u: ClusterStatus, out: PassOutcome)
    requires GroundStep(spec, c, j, s, d, k, t, NetworkOk) && OnGroundStep(spec, d, k, t, e, l, u, out)
    ensures LbInPlace(spec, c, e, u, out.LbWait?) && RecordMade(c, s.recordID, e, u.recordID)
    ensures NewGroups(spec, c.groups, e.groups) && LookupStep(spec, c.lbs, j, l)
    ensures NetworkVerdict(spec, e, u.networkID, u.subnetID, NetworkResultOf(out))
  {
    hide Kept, RecordSources, LbForgets, NetworkForgets, SubnetStep, CleanLbStep, LaterSettled, ExposureLeft,
         GroupsSettled, GroupSource, OwnsNetwork, NetworkProgress, NetworksStep, HidesOnly, CreationReady, LbShown,
         LbReady, NetworkActive, SubnetSettled, MissingGroup;
  }

  lemma WholePass(
    spec: ClusterSpec, c: Cloud, j: Journal, s: ClusterStatus,
    d: Cloud, k: Journal, t: ClusterStatus, e: Cloud, l: Journal, u: ClusterStatus, out: PassOutcome)
    requires s.finalizer && GroundStep(spec, c, j, s, d, k, t, NetworkOk)
    requires Kept(spec, d, k, e, l) && OnGroundStep(spec, d, k, t, e, l, u, out)
    ensures NormalPass(spec, c, j, s, e, l, u, out)
  {
    hide LbInPlace, RecordMade, NetworkVerdict, NewGroups, LookupStep, CleanLbStep,
         RecordSources, LbForgets, NetworkForgets, SubnetStep, LbReady, LaterSettled, ExposureLeft,
         GroupsSettled, GroupSource,
         OwnsNetwork, NetworkProgress, CleanPass, StatusKept, Grown, KeepsBounds, Named, ValidCloud, HistoryKept;
    GroundKeepsStatus(spec, c, j, s, d, k, t, e, l, u, out);
    GroundVerdicts(spec, c, j, s, d, k, t, e, l, u, out);
    GroundLeaves(spec, c, j, s, d, k, t, e, l, u, out);
    WholeCleanPass(spec, c, j, s, d, k, t, e, l, u, out);
    hide Kept, NetworkSettled, NetworkFrame;
  }

  lemma WholeCleanPass(
    spec: ClusterSpec, c: Cloud, j: Journal, s: ClusterStatus,
    d: Cloud, k: Journal, t: ClusterStatus, e: Cloud, l: Journal, u: ClusterStatus, out: PassOutcome)
    requires s.finalizer && GroundStep(spec, c, j, s, d, k, t, NetworkOk)
    requires Kept(spec, d, k, e, l) && OnGroundStep(spec, d, k, t, e, l, u, out)
    ensures Clean(j, l) ==> CleanPass(spec, c, s, e, u, out)
    ensures Clean(j, l) && Settled(spec, c, s) ==>
              && out.PassReady?
              && l.writes == j.writes + (if ExposureLeft(spec, c, s) then 1 else 0)
              && (!ExposureLeft(spec, c, s) ==> e == c && u == s)
  {
    hide RecordSources, LbForgets, NetworkForgets, SubnetStep, CleanLbStep, LbReady, LaterSettled, ExposureLeft,
         GroupsSettled, GroupSource,
         OwnsNetwork, Grown, KeepsBounds, Named, ValidCloud, HistoryKept;
    GroundLeaves(spec, c, j, s, d, k, t, e, l, u, out);
    hide Kept, NetworkSettled, NetworkFrame;
  }

  /** What the network step leaves for the later steps, and they for it. */
  lemma GroundLeaves(
    spec: ClusterSpec, c: Cloud, j: Journal, s: ClusterStatus,
    d: Cloud, k: Journal, t: ClusterStatus, e: Cloud, l: Journal, u: ClusterStatus, out: PassOutcome)
    requires GroundStep(spec, c, j, s, d, k, t, NetworkOk)
    requires Kept(spec, d, k, e, l) && OnGroundStep(spec, d, k, t, e, l, u, out)
    ensures Kept(spec, c, j, e, l) && j.faults <= k.faults <= l.faults
    ensures RecordSources(spec, j, l, c, s, e, u)
    ensures LbForgets(spec, j.answers, l.answers, s, u)
    ensures NetworkForgets(j.answers, l.answers, s.networkID, s.subnetID, u.networkID, u.subnetID)
    ensures SubnetStep(s.networkID, s.subnetID, c.subnets, u.networkID, u.subnetID, e.subnets)
    ensures OwnsNetwork(spec, t.networkID, t.networkCreated, k.history.networksCreated) ==>
              OwnsNetwork(spec, u.networkID, u.networkCreated, l.history.networksCreated)
    ensures c.lbs == d.lbs
    ensures CleanLbStep(spec, d, t, e, u, LbResultOf(out)) ==> CleanLbStep(spec, c, s, e, u, LbResultOf(out))
    ensures LaterSettled(spec, d, t) == LaterSettled(spec, c, s) && ExposureLeft(spec, d, t) == ExposureLeft(spec, c, s)
    ensures LbReady(spec, e, t, u) == LbReady(spec, e, s, u)
    ensures NetworkSettled(spec, d, t.networkID, t.subnetID) == NetworkSettled(spec, e, u.networkID, u.subnetID)
    ensures d.networks == e.networks && c.flavors == e.flavors
  {
    KeptCompose(spec, c, j, d, k, e, l);
    KeptFacts(spec, c, j, d, k);
    KeptFacts(spec, d, k, e, l);
    LbForgetsLonger(spec, j.answers, k.answers, l.answers, l.answers, t, u, s, u);
    NetworkForgetsLonger(j.answers, j.answers, k.answers, l.answers, s.networkID, s.subnetID, t.networkID, t.subnetID);
    SourcesFrom(spec, k, l, j, l, c, s, d, t, e, u);
    SameLbView(spec, c, s, d, t, e, u, LbResultOf(out));
    hide RecordSources, LbForgets, NetworkForgets, CleanLbStep, LbReady, LaterSettled, ExposureLeft, GroupsSettled,
         Grown, KeepsBounds, ValidCloud,
         SubnetStep;
  }
}
