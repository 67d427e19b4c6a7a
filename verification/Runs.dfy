/** Whole runs: passes of both controllers, status patches that get lost, and whatever happens outside. */
module Runs {
  import opened Sequences
  import opened CloudModel
  import opened OvhClient
  import opened ClusterModel
  import opened NetworkSteps
  import opened FipSteps
  import opened LbSteps
  import opened ClusterPass
  import opened DeleteModel
  import M = MachineModel

  /** The service, the journal, and the persisted status of the cluster. */
  datatype World = World(c: Cloud, j: Journal, s: ClusterStatus)

  /** `t` is the status a pass ended with; it is persisted, or its patch is lost. */
  datatype Step =
    | ClusterPass(t: ClusterStatus, passed: PassOutcome, persisted: bool)
    | ClusterDelete(t: ClusterStatus, deleted: DeleteOutcome, persisted: bool)
    | MachinePass(
        spec: M.MachineSpec, view: M.View, ms: M.MachineStatus, mt: M.MachineStatus, out: M.MachineOutcome)
    | MachineDelete(
        spec: M.MachineSpec, view: M.View, ms: M.MachineStatus, mt: M.MachineStatus, gone: M.MachineDeleteOutcome)
    | Outside

  /** Outside the controllers objects come, change and go, but no ID is used again for another object. */
  ghost predicate OutsideStep(c: Cloud, d: Cloud) {
    && c.issued <= d.issued
    && (ValidCloud(c) ==> ValidCloud(d))
    && (forall x | x in d.listeners && x.id in c.issued ::
          exists y | y in c.listeners :: y.id == x.id && y.name == x.name && y.lbIDs == x.lbIDs)
    && (forall x | x in d.pools && x.id in c.issued ::
          exists y | y in c.pools :: y.id == x.id && y.name == x.name && y.lbID == x.lbID)
  }

  ghost predicate Next(spec: ClusterSpec, w: World, step: Step, v: World) {
    match step
    case ClusterPass(t, out, persisted) =>
      NormalPass(spec, w.c, w.j, w.s, v.c, v.j, t, out) && v.s == if persisted then t else w.s
    case ClusterDelete(t, out, persisted) =>
      DeletePass(spec, w.c, w.j, w.s, v.c, v.j, t, out) && v.s == if persisted then t else w.s
    case MachinePass(mspec, view, ms, mt, out) =>
      M.MachinePass(mspec, view, w.c, w.j, ms, v.c, v.j, mt, out) && v.s == w.s
    case MachineDelete(mspec, view, ms, mt, out) =>
      M.MachineDeletePass(mspec, view, w.c, w.j, ms, v.c, v.j, mt, out) && v.s == w.s
    case Outside => OutsideStep(w.c, v.c) && v.j == w.j && v.s == w.s
  }

  ghost predicate Run(spec: ClusterSpec, run: seq<World>, steps: seq<Step>) {
    && |run| == |steps| + 1
    && forall i | 0 <= i < |steps| :: Next(spec, run[i], steps[i], run[i + 1])
  }

  // ----- duplicates

  /** What duplicates are counted under. */
  datatype Key =
    | LoadBalancers(name: string)
    | Listeners(name: string, lbID: string)
    | Pools(name: string, lbID: string)
    | FloatingIPs(lbID: string)
    | Instances(name: string)
    | Members(poolID: string, address: string, port: int)

  function TallyOf(key: Key, w: World): Tally {
    match key
    case LoadBalancers(n) => LbTally(w.c, w.j, n)
    case Listeners(n, l) => ListenerTally(w.c, w.j, n, l)
    case Pools(n, l) => PoolTally(w.c, w.j, n, l)
    case FloatingIPs(l) => FipTally(w.c, w.j, l)
    case Instances(n) => InstanceTally(w.c, w.j, n)
    case Members(p, a, q) => MemberTally(w.c, w.j, p, a, q)
  }

  /** Nobody outside adds an object under this key (and nobody attaches a floating IP by hand). */
  predicate OnlyControllers(key: Key, run: seq<World>, steps: seq<Step>)
    requires |run| == |steps| + 1
  {
    forall i | 0 <= i < |steps| && steps[i].Outside? :: TallyOf(key, run[i + 1]).count <= TallyOf(key, run[i]).count
  }

  lemma FewerGrows(j: Journal, k: Journal, n: nat, m: nat, b: nat, b': nat)
    requires Later(j, k) && b <= b' && m <= n
    ensures GrowsBy(Tally(n, b, j.lost), Tally(m, b', k.lost))
  {
  }

  lemma PassGrows(spec: ClusterSpec, w: World, v: World, key: Key)
    requires Kept(spec, w.c, w.j, v.c, v.j)
    ensures GrowsBy(TallyOf(key, w), TallyOf(key, v))
  {
  }

  lemma DeleteGrows(w: World, v: World, key: Key)
    requires Shrunk(w.c, v.c) && Later(w.j, v.j)
    ensures GrowsBy(TallyOf(key, w), TallyOf(key, v))
  {
    match key {
      case LoadBalancers(n) => CountPointwise(LbNamed(n), w.c.lbs, v.c.lbs);
      case FloatingIPs(l) => CountPointwise(AttachedTo(l), w.c.fips, v.c.fips);
      case _ =>
    }
    var t, u := TallyOf(key, w), TallyOf(key, v);
    FewerGrows(w.j, v.j, t.count, u.count, t.blind, u.blind);
  }

  lemma MachineGrows(w: World, v: World, key: Key)
    requires M.MachineStep(w.c, w.j, v.c, v.j)
    ensures GrowsBy(TallyOf(key, w), TallyOf(key, v))
  {
  }

  lemma MachineDeleteGrows(view: M.View, ms: M.MachineStatus, w: World, v: World, key: Key)
    requires M.OthersStay(view, w.c, ms, v.c) && Later(w.j, v.j)
    ensures GrowsBy(TallyOf(key, w), TallyOf(key, v))
  {
    match key {
      case Instances(n) => CountPointwise(InstanceNamed(n), w.c.instances, v.c.instances);
      case _ =>
    }
    var t, u := TallyOf(key, w), TallyOf(key, v);
    FewerGrows(w.j, v.j, t.count, u.count, t.blind, u.blind);
  }

  lemma StepGrows(spec: ClusterSpec, w: World, step: Step, v: World, key: Key)
    requires Next(spec, w, step, v)
    requires step.Outside? ==> TallyOf(key, v).count <= TallyOf(key, w).count
    ensures GrowsBy(TallyOf(key, w), TallyOf(key, v))
  {
    hide Kept, Shrunk, M.MachineStep, M.OthersStay;
    match step
    case ClusterPass(t, out, persisted) =>
      PassGrows(spec, w, v, key);
    case ClusterDelete(t, out, persisted) =>
      DeleteGrows(w, v, key);
    case MachinePass(mspec, view, ms, mt, out) =>
      MachineGrows(w, v, key);
    case MachineDelete(mspec, view, ms, mt, out) =>
      MachineDeleteGrows(view, ms, w, v, key);
    case Outside =>
  }

  /**
   * Between any two moments of a run, whatever fails and whatever is lost, the objects under a key grow
   * to one, by one for each create that could not see the list, and six times that after a lost attempt.
   */
  lemma {:induction false} DuplicatesBounded(
    spec: ClusterSpec, run: seq<World>, steps: seq<Step>, key: Key, m: nat, i: nat)
    requires Run(spec, run, steps) && OnlyControllers(key, run, steps) && m <= i < |run|
    ensures GrowsBy(TallyOf(key, run[m]), TallyOf(key, run[i]))
  {
    hide Next, TallyOf;
    if m < i {
      DuplicatesBounded(spec, run, steps, key, m, i - 1);
      StepGrows(spec, run[i - 1], steps[i - 1], run[i], key);
      GrowsByCompose(TallyOf(key, run[m]), TallyOf(key, run[i - 1]), TallyOf(key, run[i]));
    }
  }

  /** Creates that could not see are lookups and lists that failed; for load balancers also those that were misled. */
  lemma {:induction false} BlindOnlyByFailure(spec: ClusterSpec, run: seq<World>, steps: seq<Step>, m: nat, i: nat)
    requires Run(spec, run, steps) && m <= i < |run|
    ensures Later(run[m].j, run[i].j)
    ensures AllListed(spec, run, steps) ==> run[i].j.hiddenLookups == run[m].j.hiddenLookups
  {
    hide Next;
    if m < i {
      BlindOnlyByFailure(spec, run, steps, m, i - 1);
      StepLater(spec, run[i - 1], steps[i - 1], run[i]);
    }
  }

  predicate Listed(spec: ClusterSpec, c: Cloud) {
    forall l | l in c.lbs && l.name == LbName(spec) :: l.listed
  }

  /** Whenever a pass begins, the list shows every load balancer of the cluster's name. */
  predicate AllListed(spec: ClusterSpec, run: seq<World>, steps: seq<Step>)
    requires |run| == |steps| + 1
  {
    forall i | 0 <= i < |steps| && steps[i].ClusterPass? :: Listed(spec, run[i].c)
  }

  lemma StepLater(spec: ClusterSpec, w: World, step: Step, v: World)
    requires Next(spec, w, step, v)
    ensures Later(w.j, v.j)
    ensures (step.ClusterPass? ==> Listed(spec, w.c)) ==> v.j.hiddenLookups == w.j.hiddenLookups
  {
    hide Homes, CleanPass, Settled, LbReady, FipSource, Shrunk, Freed, M.OthersStay, Grown, KeepsBounds, Named,
         ValidCloud, HistoryKept, RecordSources, NetworksStep, OwnsNetwork, LbName;
  }

  /** From none: at most six for each failed lookup or list and one more; one for each if no attempt was lost. */
  lemma CountsBounded(spec: ClusterSpec, run: seq<World>, steps: seq<Step>, key: Key, i: nat)
    requires Run(spec, run, steps) && OnlyControllers(key, run, steps)
    requires TallyOf(key, run[0]).count == 0 && i < |run|
    requires key.LoadBalancers? ==> AllListed(spec, run, steps)
    ensures var n, failed := TallyOf(key, run[i]).count, Failures(key, run[0].j, run[i].j);
            && n <= 6 * (1 + failed) && (run[i].j.lost == run[0].j.lost ==> n <= 1 + failed)
            && failed <= run[i].j.faults - run[0].j.faults
  {
    hide Next;
    DuplicatesBounded(spec, run, steps, key, 0, i);
    BlindOnlyByFailure(spec, run, steps, 0, i);
  }

  /** The failed calls after which a create cannot see; none for listeners, pools and instances. */
  function Failures(key: Key, j: Journal, k: Journal): int {
    match key
    case LoadBalancers(_) => k.failedLookups - j.failedLookups
    case FloatingIPs(_) => k.fipListFailures - j.fipListFailures
    case Members(_, _, _) => k.memberListFailures - j.memberListFailures
    case _ => 0
  }

  /** A run without a failing attempt never makes a second object under any key. */
  lemma FaultFreeSingle(spec: ClusterSpec, run: seq<World>, steps: seq<Step>, key: Key, i: nat)
    requires Run(spec, run, steps) && OnlyControllers(key, run, steps)
    requires TallyOf(key, run[0]).count <= 1 && i < |run| && run[i].j.faults == run[0].j.faults
    requires key.LoadBalancers? ==> AllListed(spec, run, steps)
    ensures TallyOf(key, run[i]).count <= 1
  {
    hide Next;
    DuplicatesBounded(spec, run, steps, key, 0, i);
    BlindOnlyByFailure(spec, run, steps, 0, i);
  }

  // ----- ownership of the network

  /** What was deleted had been created here; a recorded network is the user's or was created here. */
  ghost predicate Owned(spec: ClusterSpec, w: World) {
    var h := w.j.history;
    && OwnsNetwork(spec, w.s.networkID, w.s.networkCreated, h.networksCreated)
    && h.networksDeleted <= h.networksCreated
    && (NamesNetwork(spec) ==> h.networksDeleted == {})
  }

  lemma PassOwns(spec: ClusterSpec, w: World, t: ClusterStatus, out: PassOutcome, persisted: bool, v: World)
    requires Next(spec, w, ClusterPass(t, out, persisted), v) && Owned(spec, w)
    ensures Owned(spec, v)
    ensures forall id | id in v.j.history.networksCreated && id !in w.j.history.networksCreated ::
              MadeHere(spec, w.c.issued, v.c.networks, id)
  {
    hide Grown, KeepsBounds, CleanPass, Settled, Homes, ValidCloud, LbReady, FipSource, MadeHere;
  }

  lemma DeleteOwns(spec: ClusterSpec, w: World, t: ClusterStatus, out: DeleteOutcome, persisted: bool, v: World)
    requires Next(spec, w, ClusterDelete(t, out, persisted), v) && Owned(spec, w)
    ensures Owned(spec, v) && v.j.history.networksCreated == w.j.history.networksCreated
  {
    hide Shrunk, Freed, FipBlocks, NetworkBlocks;
  }

  /** Some pass before moment `i` made this network: new to the service then, under the cluster's network name. */
  ghost predicate MadeByPass(spec: ClusterSpec, run: seq<World>, steps: seq<Step>, i: nat, id: string)
    requires |run| == |steps| + 1 && i < |run|
  {
    exists m: nat :: m < i && steps[m].ClusterPass? && MadeHere(spec, run[m].c.issued, run[m + 1].c.networks, id)
  }

  /**
   * In every run that starts without networks of its own, every network named in a delete call was made by an
   * earlier pass of this controller: a new ID then, with the cluster's name; none is named if the user gave one.
   */
  lemma {:induction false} NetworksOwned(spec: ClusterSpec, run: seq<World>, steps: seq<Step>, i: nat)
    requires Run(spec, run, steps) && i < |run| && Owned(spec, run[0]) && run[0].j.history.networksCreated == {}
    ensures Owned(spec, run[i])
    ensures forall id | id in run[i].j.history.networksCreated :: MadeByPass(spec, run, steps, i, id)
    ensures forall id | id in run[i].j.history.networksDeleted :: MadeByPass(spec, run, steps, i, id)
  {
    hide Next, MadeHere, OwnsNetwork;
    if i > 0 {
      NetworksOwned(spec, run, steps, i - 1);
      StepOwns(spec, run[i - 1], steps[i - 1], run[i]);
      forall id | id in run[i].j.history.networksCreated ensures MadeByPass(spec, run, steps, i, id) {
        if id in run[i - 1].j.history.networksCreated {
          assert MadeByPass(spec, run, steps, i - 1, id);
        } else {
          assert MadeHere(spec, run[i - 1].c.issued, run[i].c.networks, id);
        }
      }
    }
  }

  lemma StepOwns(spec: ClusterSpec, w: World, step: Step, v: World)
    requires Next(spec, w, step, v) && Owned(spec, w)
    ensures Owned(spec, v)
    ensures forall id | id in v.j.history.networksCreated && id !in w.j.history.networksCreated ::
              step.ClusterPass? && MadeHere(spec, w.c.issued, v.c.networks, id)
  {
    hide NormalPass, DeletePass, M.MachineStep, M.OthersStay, MadeHere;
    match step
    case ClusterPass(t, out, persisted) => PassOwns(spec, w, t, out, persisted, v);
    case ClusterDelete(t, out, persisted) => DeleteOwns(spec, w, t, out, persisted, v);
    case MachinePass(mspec, view, ms, mt, out) => MachineHistory(mspec, view, w.c, w.j, ms, v.c, v.j, mt, out);
    case _ =>
  }

  lemma MachineHistory(
    spec: M.MachineSpec, view: M.View, c: Cloud, j: Journal, s: M.MachineStatus,
    d: Cloud, k: Journal, t: M.MachineStatus, out: M.MachineOutcome)
    requires M.MachinePass(spec, view, c, j, s, d, k, t, out)
    ensures k.history == j.history
  {
  }

  // ----- what is recorded is forgotten only when it is gone

  lemma StepForgetsNetwork(spec: ClusterSpec, w: World, step: Step, v: World)
    requires Next(spec, w, step, v)
    ensures NetworkForgets(w.j.answers, v.j.answers, w.s.networkID, w.s.subnetID, v.s.networkID, v.s.subnetID)
  {
    hide Kept, RecordSources, CleanPass, Settled, LbReady, OwnsNetwork, NetworksStep, SubnetStep, Shrunk, Freed,
         NetworkMissing, LbForgets, StatusKept, GroupSource, M.MachinePass, M.MachineDeletePass;
  }

  /**
   * Between any two moments of a run, whatever fails and whatever is lost, a recorded network or its subnet is given up
   * only after a read of that network was answered that it is missing. Any other answer keeps both.
   */
  lemma {:induction false} NetworkForgottenIfGone(
    spec: ClusterSpec, run: seq<World>, steps: seq<Step>, m: nat, i: nat)
    requires Run(spec, run, steps) && m <= i < |run|
    ensures run[m].j.answers <= run[i].j.answers
    ensures var s, t := run[m].s, run[i].s;
            NetworkForgets(run[m].j.answers, run[i].j.answers, s.networkID, s.subnetID, t.networkID, t.subnetID)
  {
    hide Next, Missing;
    if m < i {
      NetworkForgottenIfGone(spec, run, steps, m, i - 1);
      StepForgetsNetwork(spec, run[i - 1], steps[i - 1], run[i]);
      StepLater(spec, run[i - 1], steps[i - 1], run[i]);
    }
  }

  /** The load balancer in use, with its API pair, changed. */
  predicate LbGivenUp(s: ClusterStatus, t: ClusterStatus) {
    || t.lbID != s.lbID
    || (s.listenerID != "" && t.listenerID != s.listenerID)
    || (s.poolID != "" && t.poolID != s.poolID)
  }

  lemma StepForgetsLb(spec: ClusterSpec, w: World, step: Step, v: World)
    requires Next(spec, w, step, v) && w.s.lbID != "" && LbGivenUp(w.s, v.s)
    ensures MissingSince(w.j.answers, v.j.answers, ReadLb(w.s.lbID))
  {
    hide Kept, RecordSources, CleanPass, Settled, LbReady, OwnsNetwork, NetworksStep, SubnetStep, Shrunk, Freed,
         NetworkForgets, MissingSince, StatusKept, GroupSource, M.MachinePass, M.MachineDeletePass;
  }

  /** So is a recorded load balancer, and what is recorded of its API listener and pool. */
  lemma {:induction false} LbForgottenIfGone(spec: ClusterSpec, run: seq<World>, steps: seq<Step>, m: nat, i: nat)
    requires Run(spec, run, steps) && m <= i < |run| && run[m].s.lbID != ""
    ensures run[m].j.answers <= run[i].j.answers
    ensures LbGivenUp(run[m].s, run[i].s) ==>
              MissingSince(run[m].j.answers, run[i].j.answers, ReadLb(run[m].s.lbID))
  {
    hide Next, MissingSince;
    if m < i {
      var a, b, c := run[m].j.answers, run[i - 1].j.answers, run[i].j.answers;
      LbForgottenIfGone(spec, run, steps, m, i - 1);
      StepLater(spec, run[i - 1], steps[i - 1], run[i]);
      SeenLonger(a, a, b, c, ReadLb(run[m].s.lbID));
      if LbGivenUp(run[m].s, run[i].s) && !LbGivenUp(run[m].s, run[i - 1].s) {
        StepForgetsLb(spec, run[i - 1], steps[i - 1], run[i]);
        SeenLonger(a, b, c, c, ReadLb(run[m].s.lbID));
      }
    }
  }

  lemma StepForgetsFip(spec: ClusterSpec, w: World, step: Step, v: World)
    requires Next(spec, w, step, v) && w.s.fipID != "" && v.s.fipID == ""
    ensures step.ClusterPass? && MissingSince(w.j.answers, v.j.answers, ReadFip(w.s.fipID))
  {
    hide Kept, RecordSources, CleanPass, Settled, LbReady, OwnsNetwork, NetworksStep, SubnetStep, Shrunk, Freed,
         NetworkForgets, MissingSince, StatusKept, GroupSource, M.MachinePass, M.MachineDeletePass;
  }

  /** If no floating IP is recorded any more, some pass since was answered that the one recorded then is missing. */
  lemma {:induction false} FipForgottenIfGone(spec: ClusterSpec, run: seq<World>, steps: seq<Step>, m: nat, i: nat)
    requires Run(spec, run, steps) && m <= i < |run| && run[m].s.fipID != "" && run[i].s.fipID == ""
    ensures exists n ::
              && m <= n < i && steps[n].ClusterPass? && run[n].s.fipID != ""
              && MissingSince(run[n].j.answers, run[n + 1].j.answers, ReadFip(run[n].s.fipID))
  {
    hide Next, MissingSince;
    if run[i - 1].s.fipID == "" {
      FipForgottenIfGone(spec, run, steps, m, i - 1);
    } else {
      StepForgetsFip(spec, run[i - 1], steps[i - 1], run[i]);
    }
  }

  lemma StepMarks(spec: ClusterSpec, w: World, step: Step, v: World)
    requires Next(spec, w, step, v)
    ensures w.s.gatewayExposed ==> v.s.gatewayExposed && v.s.gatewayID == w.s.gatewayID
    ensures v.s.gatewayExposed && !w.s.gatewayExposed ==>
              AcceptedSince(w.j.answers, v.j.answers, Request.ExposeGateway(v.s.gatewayID))
  {
    hide LbInPlace, RecordMade, NetworkVerdict, Kept, Homes, PairSource, CleanPass, Settled, LbReady, OwnsNetwork,
         NetworksStep, SubnetStep, Shrunk, Freed,
         NetworkForgets, AcceptedSince, StatusKept, GroupSource, M.MachinePass, M.MachineDeletePass, LbForgets;
  }

  /** The exposed mark stays with its gateway, and is only ever set after the service said that this one is exposed. */
  lemma {:induction false} MarkIsAnswered(spec: ClusterSpec, run: seq<World>, steps: seq<Step>, m: nat, i: nat)
    requires Run(spec, run, steps) && m <= i < |run|
    ensures run[m].j.answers <= run[i].j.answers
    ensures var s, t := run[m].s, run[i].s;
            if s.gatewayExposed then t.gatewayExposed && t.gatewayID == s.gatewayID
            else t.gatewayExposed ==>
                   AcceptedSince(run[m].j.answers, run[i].j.answers, Request.ExposeGateway(t.gatewayID))
  {
    hide Next, AcceptedSince;
    if m < i {
      var a, b, c := run[m].j.answers, run[i - 1].j.answers, run[i].j.answers;
      MarkIsAnswered(spec, run, steps, m, i - 1);
      StepLater(spec, run[i - 1], steps[i - 1], run[i]);
      StepMarks(spec, run[i - 1], steps[i - 1], run[i]);
      SeenLonger(a, a, b, c, Request.ExposeGateway(run[i].s.gatewayID));
      SeenLonger(a, b, c, c, Request.ExposeGateway(run[i].s.gatewayID));
    }
  }

  // ----- listeners and pools at home

  ghost predicate AtHome(w: World) {
    Homes(w.c, w.s.lbID, w.s.listenerID, w.s.poolID)
  }

  /** In every run the recorded API listener and pool belong to the recorded load balancer. */
  lemma {:induction false} AlwaysAtHome(spec: ClusterSpec, run: seq<World>, steps: seq<Step>, i: nat)
    requires Run(spec, run, steps) && i < |run| && AtHome(run[0])
    ensures AtHome(run[i])
  {
    hide Next, AtHome;
    if i > 0 {
      AlwaysAtHome(spec, run, steps, i - 1);
      StepKeepsHome(spec, run[i - 1], steps[i - 1], run[i]);
    }
  }

  lemma StepKeepsHome(spec: ClusterSpec, w: World, step: Step, v: World)
    requires Next(spec, w, step, v) && AtHome(w)
    ensures AtHome(v)
  {
    match step
    case ClusterPass(t, out, persisted) =>
      KeptFacts(spec, w.c, w.j, v.c, v.j);
      HomesKept(w.c, v.c, w.s.lbID, w.s.listenerID, w.s.poolID);
      hide LbForgets, NetworkForgets, LbInPlace, RecordMade, NetworkVerdict, Kept, Homes, CleanPass, Settled, LbReady,
           FipSource;
    case ClusterDelete(t, out, persisted) =>
      hide Freed, FipBlocks, NetworkBlocks, LbsMarked, GatewaysMarked, FipsReleased, NoneAdded;
    case MachinePass(mspec, view, ms, mt, out) =>
    case MachineDelete(mspec, view, ms, mt, out) =>
    case Outside =>
      hide ValidCloud;
  }

  // ----- what recorded IDs once named

  /** After some pass up to `i`, this was an API listener on the load balancer that the pass recorded. */
  ghost predicate OnceListener(run: seq<World>, steps: seq<Step>, i: nat, lbID: string, id: string)
    requires |run| == |steps| + 1 && i < |run|
  {
    exists m: nat :: m < i && steps[m].ClusterPass?
        && steps[m].t.lbID == lbID && ListenerAt(run[m + 1].c.listeners, id, API_LISTENER, lbID)
  }

  ghost predicate OncePool(run: seq<World>, steps: seq<Step>, i: nat, lbID: string, id: string)
    requires |run| == |steps| + 1 && i < |run|
  {
    exists m: nat :: m < i && steps[m].ClusterPass?
        && steps[m].t.lbID == lbID && PoolAt(run[m + 1].c.pools, id, API_POOL, lbID)
  }

  /** After some pass up to `i`, this was a register listener on the load balancer recorded then. */
  ghost predicate OnceRegisterListener(run: seq<World>, steps: seq<Step>, i: nat, id: string)
    requires |run| == |steps| + 1 && i < |run|
  {
    exists m: nat :: m < i && steps[m].ClusterPass?
        && ListenerAt(run[m + 1].c.listeners, id, REGISTER_LISTENER, steps[m].t.lbID)
  }

  ghost predicate OnceRegisterPool(run: seq<World>, steps: seq<Step>, i: nat, id: string)
    requires |run| == |steps| + 1 && i < |run|
  {
    exists m: nat :: m < i && steps[m].ClusterPass?
        && PoolAt(run[m + 1].c.pools, id, REGISTER_POOL, steps[m].t.lbID)
  }

  predicate SubnetAt(subnets: seq<Subnet>, id: string, networkID: string) {
    exists x | x in subnets :: x.id == id && x.networkID == networkID
  }

  /** After some pass up to `i`, this was a subnet of the network that the pass recorded. */
  ghost predicate OnceSubnet(run: seq<World>, steps: seq<Step>, i: nat, networkID: string, id: string)
    requires |run| == |steps| + 1 && i < |run|
  {
    exists m: nat :: m < i && steps[m].ClusterPass?
        && steps[m].t.networkID == networkID && SubnetAt(run[m + 1].c.subnets, id, networkID)
  }

  /** No listener, pool or subnet is recorded. */
  predicate NonePaired(s: ClusterStatus) {
    && s.listenerID == "" && s.poolID == "" && s.registerListenerID == "" && s.registerPoolID == ""
    && s.subnetID == ""
  }

  /** Each recorded listener, pool and subnet was once found where it is recorded to be. */
  ghost predicate WereFound(run: seq<World>, steps: seq<Step>, i: nat, s: ClusterStatus)
    requires |run| == |steps| + 1 && i < |run|
  {
    && (s.listenerID != "" ==> OnceListener(run, steps, i, s.lbID, s.listenerID))
    && (s.poolID != "" ==> OncePool(run, steps, i, s.lbID, s.poolID))
    && (s.registerListenerID != "" ==> OnceRegisterListener(run, steps, i, s.registerListenerID))
    && (s.registerPoolID != "" ==> OnceRegisterPool(run, steps, i, s.registerPoolID))
    && (s.subnetID != "" ==> s.networkID != "" && OnceSubnet(run, steps, i, s.networkID, s.subnetID))
  }

  /** Of the IDs in question, a pass records only what is kept, or found in the service that it leaves. */
  predicate FoundIn(s: ClusterStatus, c: Cloud, t: ClusterStatus) {
    && (t.listenerID == "" || (t.listenerID == s.listenerID && t.lbID == s.lbID)
        || ListenerAt(c.listeners, t.listenerID, API_LISTENER, t.lbID))
    && (t.poolID == "" || (t.poolID == s.poolID && t.lbID == s.lbID) || PoolAt(c.pools, t.poolID, API_POOL, t.lbID))
    && (t.registerListenerID in {"", s.registerListenerID}
        || ListenerAt(c.listeners, t.registerListenerID, REGISTER_LISTENER, t.lbID))
    && (t.registerPoolID in {"", s.registerPoolID} || PoolAt(c.pools, t.registerPoolID, REGISTER_POOL, t.lbID))
    && (t.subnetID == "" || (t.subnetID == s.subnetID && (s.networkID == "" || t.networkID == s.networkID))
        || (t.networkID != "" && SubnetAt(c.subnets, t.subnetID, t.networkID)))
  }

  predicate SameRecorded(s: ClusterStatus, t: ClusterStatus) {
    && t.lbID == s.lbID && t.listenerID == s.listenerID && t.poolID == s.poolID
    && t.registerListenerID == s.registerListenerID && t.registerPoolID == s.registerPoolID
    && t.networkID == s.networkID && t.subnetID == s.subnetID
  }

  lemma PassFinds(
    spec: ClusterSpec, c: Cloud, j: Journal, s: ClusterStatus, d: Cloud, k: Journal, t: ClusterStatus, out: PassOutcome)
    requires NormalPass(spec, c, j, s, d, k, t, out) && Homes(c, s.lbID, s.listenerID, s.poolID)
    ensures FoundIn(s, d, t)
  {
    hide Kept, CleanPass, Settled, LbReady, FipSource, LbSource, GatewayTracked, OwnsNetwork, NetworksStep, StatusKept,
         ListenerOn, PoolOn;
    if t.subnetID != "" && s.subnetID == "" {
      assert SubnetChosen(t.networkID, c.subnets, d.subnets, t.subnetID);
      var x := First(SubnetOf(t.networkID), c.subnets);
      if x.Some? {
        assert x.value in d.subnets;
      }
    }
  }

  lemma StepFinds(spec: ClusterSpec, w: World, step: Step, v: World)
    requires Next(spec, w, step, v) && AtHome(w)
    ensures SameRecorded(w.s, v.s) || (step.ClusterPass? && v.s == step.t)
    ensures step.ClusterPass? ==> FoundIn(w.s, v.c, step.t)
  {
    hide NormalPass, Homes, FoundIn, Shrunk, Freed, M.MachinePass, M.MachineDeletePass;
    match step
    case ClusterPass(t, out, persisted) => PassFinds(spec, w.c, w.j, w.s, v.c, v.j, t, out);
    case _ =>
  }

  lemma NoneFound(run: seq<World>, steps: seq<Step>)
    requires |run| == |steps| + 1 && NonePaired(run[0].s)
    ensures WereFound(run, steps, 0, run[0].s) && AtHome(run[0])
  {
  }

  lemma FoundLater(run: seq<World>, steps: seq<Step>, i: nat, s: ClusterStatus, t: ClusterStatus)
    requires |run| == |steps| + 1 && 0 < i < |run| && WereFound(run, steps, i - 1, s) && SameRecorded(s, t)
    ensures WereFound(run, steps, i, t)
  {
    hide ListenerAt, PoolAt, SubnetAt;
  }

  lemma FoundNow(run: seq<World>, steps: seq<Step>, i: nat, s: ClusterStatus)
    requires |run| == |steps| + 1 && 0 < i < |run| && WereFound(run, steps, i - 1, s) && steps[i - 1].ClusterPass?
    requires FoundIn(s, run[i].c, steps[i - 1].t)
    ensures WereFound(run, steps, i, steps[i - 1].t)
  {
    hide ListenerAt, PoolAt, SubnetAt;
    FoundLater(run, steps, i, s, s);
  }

  /**
   * In every run a recorded API listener or pool was once found under its name on the recorded load balancer, a
   * register listener or pool on one that was recorded then, and a subnet on the recorded network.
   */
  lemma {:induction false} RecordsWereFound(spec: ClusterSpec, run: seq<World>, steps: seq<Step>, i: nat)
    requires Run(spec, run, steps) && i < |run| && NonePaired(run[0].s)
    ensures WereFound(run, steps, i, run[i].s)
  {
    hide Next, AtHome, FoundIn, SameRecorded, NonePaired, WereFound;
    NoneFound(run, steps);
    if i > 0 {
      RecordsWereFound(spec, run, steps, i - 1);
      AlwaysAtHome(spec, run, steps, i - 1);
      StepFinds(spec, run[i - 1], steps[i - 1], run[i]);
      if SameRecorded(run[i - 1].s, run[i].s) {
        FoundLater(run, steps, i, run[i - 1].s, run[i].s);
      } else {
        FoundNow(run, steps, i, run[i - 1].s);
      }
    }
  }

  // ----- what is never undone

  lemma {:induction false} NeverUndone(spec: ClusterSpec, run: seq<World>, steps: seq<Step>, i: nat, k: nat)
    requires Run(spec, run, steps) && i <= k < |run|
    ensures run[i].s.ready ==> run[k].s.ready
    ensures run[i].s.provisioned ==> run[k].s.provisioned
    ensures run[i].s.host != "" ==> run[k].s.host == run[i].s.host
  {
    hide Next;
    if i < k {
      NeverUndone(spec, run, steps, i, k - 1);
      StepKeepsStatus(spec, run[k - 1], steps[k - 1], run[k]);
    }
  }

  lemma StepKeepsStatus(spec: ClusterSpec, w: World, step: Step, v: World)
    requires Next(spec, w, step, v)
    ensures (w.s.ready ==> v.s.ready) && (w.s.provisioned ==> v.s.provisioned)
            && (w.s.host != "" ==> v.s.host == w.s.host)
  {
    hide LbForgets, NetworkForgets, LbInPlace, RecordMade, NetworkVerdict, Kept, Homes, CleanPass, Settled, LbReady,
         FipSource, Shrunk, Freed, M.MachinePass, M.MachineDeletePass;
  }

  // ----- the finalizer comes first

  /**
   * As long as no deleting pass has run and no finalizer is persisted: every cluster pass has left service and journal
   * alone, and nothing was recorded.
   */
  lemma {:induction false} NothingWithoutFinalizer(spec: ClusterSpec, run: seq<World>, steps: seq<Step>, i: nat)
    requires Run(spec, run, steps) && i < |run| && !run[i].s.finalizer
    requires forall m | 0 <= m < i :: !steps[m].ClusterDelete?
    ensures run[i].s == run[0].s
    ensures forall m | 0 <= m < i && steps[m].ClusterPass? :: run[m + 1].c == run[m].c && run[m + 1].j == run[m].j
  {
    hide Next;
    if i > 0 {
      StepWithoutFinalizer(spec, run[i - 1], steps[i - 1], run[i]);
      NothingWithoutFinalizer(spec, run, steps, i - 1);
    }
  }

  lemma StepWithoutFinalizer(spec: ClusterSpec, w: World, step: Step, v: World)
    requires Next(spec, w, step, v) && !step.ClusterDelete? && !v.s.finalizer
    ensures v.s == w.s && (step.ClusterPass? ==> v.c == w.c && v.j == w.j)
  {
    hide Kept, RecordSources, CleanPass, Settled, LbReady, OwnsNetwork, NetworksStep, SubnetStep, M.MachinePass,
         M.MachineDeletePass;
  }

  // ----- where floating IPs and the endpoint host come from

  /** After some pass up to `i`, a record of the load balancer it recorded showed this floating IP. */
  ghost predicate OnceRecorded(run: seq<World>, steps: seq<Step>, i: nat, id: string)
    requires |run| == |steps| + 1 && i < |run|
  {
    exists m: nat :: m < i && steps[m].ClusterPass?
        && RecordedFip(run[m + 1].c.lbs, run[m + 1].c.fips, steps[m].t.lbID, id)
  }

  /**
   * In every run a recorded floating IP ID is the user's or was read from a record; never an allocation's placeholder.
   */
  lemma {:induction false} FipIDsAreRead(spec: ClusterSpec, run: seq<World>, steps: seq<Step>, i: nat)
    requires Run(spec, run, steps) && i < |run| && run[0].s.fipID == ""
    ensures run[i].s.fipID in {"", spec.existingFip} || OnceRecorded(run, steps, i, run[i].s.fipID)
  {
    hide Next, RecordedFip;
    if i > 0 {
      FipIDsAreRead(spec, run, steps, i - 1);
      StepReadsFip(spec, run[i - 1], steps[i - 1], run[i]);
    }
  }

  lemma StepReadsFip(spec: ClusterSpec, w: World, step: Step, v: World)
    requires Next(spec, w, step, v)
    ensures v.s.fipID in {"", w.s.fipID, spec.existingFip} ||
            (step.ClusterPass? && RecordedFip(v.c.lbs, v.c.fips, step.t.lbID, v.s.fipID))
  {
    hide Kept, Homes, CleanPass, Settled, LbReady, Shrunk, Freed, M.MachinePass, M.MachineDeletePass, LbForgets,
         NetworkForgets, LbInPlace, RecordMade, NetworkVerdict, PairSource, ApiSource, LbSource, GatewayTracked,
         OwnsNetwork, NetworksStep, SubnetStep, GroupSource, NewGroups, LookupStep, RecordsForgotten,
         AttachmentsSpared, GroundSpared;
  }

  /** After some pass up to `i`, the address was on a record of the load balancer or floating IP it recorded. */
  ghost predicate OnceAddress(run: seq<World>, steps: seq<Step>, i: nat, ip: string)
    requires |run| == |steps| + 1 && i < |run|
  {
    exists m: nat :: m < i && steps[m].ClusterPass? && AddressAfter(run[m + 1].c, steps[m].t, ip)
  }

  predicate AddressAfter(c: Cloud, t: ClusterStatus, ip: string) {
    RecordedAddress(c.lbs, c.fips, t.lbID, t.fipID, ip)
  }

  /**
   * With a floating network and no preset host: in every run the host is empty or an address that was read
   * from a record of the cluster's load balancer or floating IP, and a ready cluster has one.
   */
  lemma {:induction false} HostIsRead(spec: ClusterSpec, run: seq<World>, steps: seq<Step>, i: nat)
    requires Run(spec, run, steps) && i < |run| && spec.floatingNetworkID != ""
    requires run[0].s.host == "" && !run[0].s.ready
    ensures run[i].s.host == "" || OnceAddress(run, steps, i, run[i].s.host)
    ensures run[i].s.ready ==> run[i].s.host != ""
  {
    hide Next, AddressAfter;
    if i > 0 {
      HostIsRead(spec, run, steps, i - 1);
      StepReadsHost(spec, run[i - 1], steps[i - 1], run[i]);
    }
  }

  lemma StepReadsHost(spec: ClusterSpec, w: World, step: Step, v: World)
    requires Next(spec, w, step, v) && spec.floatingNetworkID != ""
    requires w.s.ready ==> w.s.host != ""
    ensures v.s.host == w.s.host || (step.ClusterPass? && AddressAfter(v.c, step.t, v.s.host))
    ensures v.s.ready ==> v.s.host != ""
  {
    hide LbForgets, NetworkForgets, LbInPlace, RecordMade, NetworkVerdict, Kept, Homes, CleanPass, Settled, FipSource,
         Shrunk, Freed, M.MachinePass, M.MachineDeletePass, LbActive;
  }

  // ----- what the cluster records, and may delete, is its own

  /** After some pass up to `i`, the load balancer of this ID carried the cluster's load balancer name. */
  ghost predicate OnceOurs(spec: ClusterSpec, run: seq<World>, steps: seq<Step>, i: nat, id: string)
    requires |run| == |steps| + 1 && i < |run|
  {
    exists m: nat :: m < i && steps[m].ClusterPass? && LbOfCluster(spec, run[m + 1].c.lbs, id)
  }

  /** After some pass up to `i`, the security group of this ID carried the cluster's name for it. */
  ghost predicate OnceGroup(spec: ClusterSpec, run: seq<World>, steps: seq<Step>, i: nat, id: string, name: string)
    requires |run| == |steps| + 1 && i < |run|
  {
    exists m: nat :: m < i && steps[m].ClusterPass? && GroupNamed(spec, run[m + 1].c.groups, id, name)
  }

  /** In every run a recorded load balancer is the user's or carried the cluster's name, and so with security groups. */
  lemma {:induction false} RecordsAreOurs(spec: ClusterSpec, run: seq<World>, steps: seq<Step>, i: nat)
    requires Run(spec, run, steps) && i < |run| && run[0].s.lbID == "" && run[0].s.groupIDs == map[]
    ensures run[i].s.lbID in {"", spec.existingLB} || OnceOurs(spec, run, steps, i, run[i].s.lbID)
    ensures forall n | n in run[i].s.groupIDs :: OnceGroup(spec, run, steps, i, run[i].s.groupIDs[n], n)
  {
    hide Next, LbOfCluster, GroupNamed;
    if i > 0 {
      RecordsAreOurs(spec, run, steps, i - 1);
      StepRecordsOurs(spec, run[i - 1], steps[i - 1], run[i]);
      forall n | n in run[i].s.groupIDs ensures OnceGroup(spec, run, steps, i, run[i].s.groupIDs[n], n) {
        if n in run[i - 1].s.groupIDs && run[i].s.groupIDs[n] == run[i - 1].s.groupIDs[n] {
          assert OnceGroup(spec, run, steps, i - 1, run[i - 1].s.groupIDs[n], n);
        }
      }
    }
  }

  lemma StepRecordsOurs(spec: ClusterSpec, w: World, step: Step, v: World)
    requires Next(spec, w, step, v)
    ensures v.s.lbID in {"", w.s.lbID, spec.existingLB} ||
            (step.ClusterPass? && LbOfCluster(spec, v.c.lbs, v.s.lbID))
    ensures forall n | n in v.s.groupIDs ::
              || (n in w.s.groupIDs && v.s.groupIDs[n] == w.s.groupIDs[n])
              || (step.ClusterPass? && GroupNamed(spec, v.c.groups, v.s.groupIDs[n], n))
  {
    hide LbForgets, NetworkForgets, LbInPlace, RecordMade, NetworkVerdict, Kept, Homes, CleanPass, Settled, LbReady,
         FipSource, Shrunk, Freed, M.MachinePass, M.MachineDeletePass, LbOfCluster,
         GroupNamed;
  }

  /**
   * In every run a deleting pass touches a load balancer only if it is the one the user named, once carried the
   * cluster's name, or shares its ID with a listed one under the cluster's prefix.
   */
  lemma OnlyOursDeleted(
    spec: ClusterSpec, run: seq<World>, steps: seq<Step>, i: nat, n: nat)
    requires Run(spec, run, steps) && run[0].s.lbID == "" && run[0].s.groupIDs == map[]
    requires i < |steps| && steps[i].ClusterDelete? && n < |run[i].c.lbs| && |run[i + 1].c.lbs| == |run[i].c.lbs|
    requires run[i + 1].c.lbs[n] != run[i].c.lbs[n]
    ensures var c, id := run[i].c, run[i].c.lbs[n].id;
            || id == spec.existingLB
            || OnceOurs(spec, run, steps, i, id)
            || exists l | l in c.lbs :: l.id == id && l.listed && LbName(spec) <= l.name
  {
    RecordsAreOurs(spec, run, steps, i);
    assert Next(spec, run[i], steps[i], run[i + 1]);
    DeleteSpares(spec, run[i], steps[i], run[i + 1]);
    hide Run, Next, OnceOurs, OnceGroup;
  }

  lemma DeleteSpares(spec: ClusterSpec, w: World, step: Step, v: World)
    requires Next(spec, w, step, v) && step.ClusterDelete?
    ensures LbsSpared(spec, w.s.lbID, w.c.lbs, v.c.lbs)
  {
    hide Shrunk, Freed, LbsSpared;
  }

  // ----- what Ready means

  /**
   * In every run, a pass that ends Ready has seen the network and the load balancer in use active. Listener and pool of
   * each port were kept, or found on it under their names; those of the API port belong to it. A host set by it is an
   * address from a record of the load balancer or its floating IP, or without a floating network the load balancer's
   * virtual IP.
   */
  lemma ReadyIsSafe(
    spec: ClusterSpec, run: seq<World>, steps: seq<Step>, i: nat, t: ClusterStatus, persisted: bool)
    requires Run(spec, run, steps) && AtHome(run[0])
    requires i < |steps| && steps[i] == ClusterPass(t, PassReady, persisted)
    ensures var d, s := run[i + 1].c, run[i].s;
            && t.ready && t.provisioned
            && (spec.network.Some? ==> NetworkActive(d.networks, t.networkID, spec.region))
            && t.lbID == LbInUse(spec, s.lbID) && LbActive(d.lbs, t.lbID)
            && PairSource(d, "api-server", t.lbID, s.listenerID, s.poolID, t.listenerID, t.poolID)
            && t.listenerID != "" && ListenerOn(d, t.listenerID, "api-server", t.lbID)
            && t.poolID != "" && PoolOn(d, t.poolID, API_POOL, t.lbID)
            && t.registerListenerID != "" && t.registerPoolID != ""
            && PairSource(d, "rke2-register", t.lbID, s.registerListenerID, s.registerPoolID,
                          t.registerListenerID, t.registerPoolID)
            && (if s.host != "" then t.host == s.host
                else if spec.floatingNetworkID != "" then t.host != "" && AddressAfter(d, t, t.host)
                else t.host == First(LbWithId(t.lbID), d.lbs).value.vip)
  {
    AlwaysAtHome(spec, run, steps, i);
    assert Next(spec, run[i], steps[i], run[i + 1]);
    hide Kept, CleanPass, Settled, FipSource, Run, ListenerOn, PoolOn, PairSource, LbForgets, NetworkForgets,
         LbInPlace, RecordMade, SubnetSettled, NetworkActive,
         SubnetStep, NetworksStep, OwnsNetwork, GroupSource, LookupStep, GatewayTracked, LbSource;
  }

  /** A pass that ends Ready records a listener and a pool for each port, each of which was once found. */
  lemma ReadyWasFound(spec: ClusterSpec, run: seq<World>, steps: seq<Step>, i: nat, t: ClusterStatus, persisted: bool)
    requires Run(spec, run, steps) && NonePaired(run[0].s)
    requires i < |steps| && steps[i] == ClusterPass(t, PassReady, persisted)
    ensures OnceListener(run, steps, i + 1, t.lbID, t.listenerID)
    ensures OncePool(run, steps, i + 1, t.lbID, t.poolID)
    ensures OnceRegisterListener(run, steps, i + 1, t.registerListenerID)
    ensures OnceRegisterPool(run, steps, i + 1, t.registerPoolID)
  {
    RecordsWereFound(spec, run, steps, i);
    AlwaysAtHome(spec, run, steps, i);
    ReadyIsSafe(spec, run, steps, i, t, persisted);
    StepFinds(spec, run[i], steps[i], run[i + 1]);
    hide Run, Next, FoundIn, OnceListener, OncePool, OnceRegisterListener, OnceRegisterPool, OnceSubnet, PairSource;
    FoundNow(run, steps, i + 1, run[i].s);
  }
}
