/** Deleting a cluster comes to an end. */
module DeleteProgress {
  import opened Sequences
  import opened CloudModel
  import opened Names
  import opened OvhClient
  import opened ClusterModel
  import opened DeleteModel

  // ----- what is still in the way, as sets of IDs

  predicate Ours(spec: ClusterSpec, lbID: string, l: LoadBalancer) {
    (lbID != "" && l.id == lbID) || LbName(spec) <= l.name
  }

  function Present(spec: ClusterSpec, lbID: string, c: Cloud): set<string> {
    set l | l in c.lbs && Ours(spec, lbID, l) :: l.id
  }

  /** Load balancers whose creation has not shown up in the list yet. */
  function Hidden(spec: ClusterSpec, lbID: string, c: Cloud): set<string> {
    set l | l in c.lbs && Ours(spec, lbID, l) && !l.listed :: l.id
  }

  function Gateways(spec: ClusterSpec, c: Cloud): set<string> {
    set g | g in c.gateways && g.name == GatewayName(spec) :: g.id
  }

  /** Floating IPs, recorded or attached to the recorded load balancer, that are not down yet. */
  function Awaited(lbID: string, fipID: string, c: Cloud): set<string> {
    set f | f in c.fips && f.status != "down" &&
            ((fipID != "" && f.id == fipID) || (lbID != "" && f.entity == Some(lbID))) :: f.id
  }

  function Measure(spec: ClusterSpec, lbID: string, fipID: string, c: Cloud): nat {
    |Present(spec, lbID, c)| + |Hidden(spec, lbID, c)| + |Gateways(spec, c)| + |Awaited(lbID, fipID, c)|
  }

  /** Nothing new is in the way. */
  predicate Fewer(spec: ClusterSpec, lbID: string, fipID: string, c: Cloud, d: Cloud) {
    && Present(spec, lbID, d) <= Present(spec, lbID, c) && Hidden(spec, lbID, d) <= Hidden(spec, lbID, c)
    && Gateways(spec, d) <= Gateways(spec, c) && Awaited(lbID, fipID, d) <= Awaited(lbID, fipID, c)
  }

  lemma FewerMeasure(spec: ClusterSpec, lbID: string, fipID: string, c: Cloud, d: Cloud)
    requires Fewer(spec, lbID, fipID, c, d)
    ensures Measure(spec, lbID, fipID, d) <= Measure(spec, lbID, fipID, c)
    ensures !Fewer(spec, lbID, fipID, d, c) ==> Measure(spec, lbID, fipID, d) < Measure(spec, lbID, fipID, c)
  {
    SubsetSmaller(Present(spec, lbID, d), Present(spec, lbID, c));
    SubsetSmaller(Hidden(spec, lbID, d), Hidden(spec, lbID, c));
    SubsetSmaller(Gateways(spec, d), Gateways(spec, c));
    SubsetSmaller(Awaited(lbID, fipID, d), Awaited(lbID, fipID, c));
  }

  lemma SubsetSmaller(s: set<string>, t: set<string>)
    requires s <= t
    ensures |s| <= |t| && (!(t <= s) ==> |s| < |t|)
  {
    assert t == s + (t - s);
    assert |t| == |s| + |t - s|;
  }

  // ----- the service's part

  predicate DeletingLb(spec: ClusterSpec, lbID: string, l: LoadBalancer) {
    Ours(spec, lbID, l) && l.deleting
  }

  predicate HiddenLb(spec: ClusterSpec, lbID: string, l: LoadBalancer) {
    Ours(spec, lbID, l) && !l.listed
  }

  predicate DeletingGateway(spec: ClusterSpec, g: Gateway) {
    g.name == GatewayName(spec) && g.deleting
  }

  predicate SettlingFip(fipID: string, f: FloatingIP) {
    fipID != "" && f.id == fipID && f.entity.None? && f.status != "down"
  }

  /** Something is on its way without the controller. */
  predicate Pending(spec: ClusterSpec, lbID: string, fipID: string, c: Cloud) {
    || (exists l | l in c.lbs :: DeletingLb(spec, lbID, l) || HiddenLb(spec, lbID, l))
    || (exists g | g in c.gateways :: DeletingGateway(spec, g))
    || (exists f | f in c.fips :: SettlingFip(fipID, f))
  }

  /**
   * Between two passes nothing new gets in the way, and if anything is on its way, something arrives:
   * a load balancer or gateway being deleted is gone, a new load balancer is listed, or a detached
   * floating IP is down or gone.
   */
  predicate Settles(spec: ClusterSpec, lbID: string, fipID: string, c: Cloud, d: Cloud) {
    && Fewer(spec, lbID, fipID, c, d)
    && (Pending(spec, lbID, fipID, c) ==>
          || (exists l | l in c.lbs :: DeletingLb(spec, lbID, l) && l.id !in Present(spec, lbID, d))
          || (exists l | l in c.lbs :: HiddenLb(spec, lbID, l) && l.id !in Hidden(spec, lbID, d))
          || (exists g | g in c.gateways :: DeletingGateway(spec, g) && g.id !in Gateways(spec, d))
          || (exists f | f in c.fips :: SettlingFip(fipID, f) && f.id !in Awaited(lbID, fipID, d)))
  }

  lemma GapLowers(spec: ClusterSpec, lbID: string, fipID: string, c: Cloud, d: Cloud)
    requires Fewer(spec, lbID, fipID, c, d)
    ensures Measure(spec, lbID, fipID, d) <= Measure(spec, lbID, fipID, c)
    ensures Settles(spec, lbID, fipID, c, d) && Pending(spec, lbID, fipID, c) ==>
              Measure(spec, lbID, fipID, d) < Measure(spec, lbID, fipID, c)
  {
    FewerMeasure(spec, lbID, fipID, c, d);
  }

  /** The gateways and load balancers on the recorded network are the cluster's own. */
  predicate OnlyOurs(spec: ClusterSpec, lbID: string, networkID: string, c: Cloud) {
    var n := First(NetworkWithId(networkID), c.networks);
    n.Some? ==>
      var os := OpenStackIDIn(n.value.regions, spec.region);
      && (forall g | g in c.gateways && g.network == os :: g.name == GatewayName(spec))
      && (forall l | l in c.lbs && l.network == os :: Ours(spec, lbID, l))
  }

  // ----- the passes' part

  lemma ShrunkFewer(spec: ClusterSpec, lbID: string, fipID: string, c: Cloud, d: Cloud)
    requires Shrunk(c, d)
    ensures Fewer(spec, lbID, fipID, c, d)
  {
    forall l | l in d.lbs ensures exists m | m in c.lbs :: m.id == l.id && m.name == l.name && m.listed == l.listed {
      var i :| 0 <= i < |d.lbs| && d.lbs[i] == l;
      assert c.lbs[i] in c.lbs;
    }
    forall g | g in d.gateways ensures exists h | h in c.gateways :: h.id == g.id && h.name == g.name {
      var i :| 0 <= i < |d.gateways| && d.gateways[i] == g;
      assert c.gateways[i] in c.gateways;
    }
    forall f | f in d.fips
      ensures exists h | h in c.fips ::
                h.id == f.id && h.status == f.status && (f.entity.Some? ==> h.entity == f.entity)
    {
      var i :| 0 <= i < |d.fips| && d.fips[i] == f;
      assert c.fips[i] in c.fips;
    }
  }

  /** A floating IP that blocks is on its way, or has just left the set of those awaited. */
  lemma FipProgress(spec: ClusterSpec, c: Cloud, lbID: string, fipID: string, d: Cloud)
    requires Shrunk(c, d) && ValidFips(c) && FipBlocks(c, lbID, fipID, d)
    ensures Pending(spec, lbID, fipID, d) ||
            exists id :: id in Awaited(lbID, fipID, c) && id !in Awaited(lbID, fipID, d)
  {
    var f :| f in d.fips && Captured(c.fips, lbID, fipID, f.id) && f.status != "down";
    if fipID != "" && f.id == fipID {
      assert SettlingFip(fipID, f);
    } else {
      var i :| 0 <= i < |d.fips| && d.fips[i] == f;
      assert c.fips[i] in c.fips;
      assert f.id in Awaited(lbID, fipID, c);
    }
  }

  /** A network that is still in use is so by something that is on its way out. */
  lemma NetworkProgresses(spec: ClusterSpec, lbID: string, fipID: string, networkID: string, d: Cloud)
    requires NetworkBlocks(spec, lbID, networkID, d) && OnlyOurs(spec, lbID, networkID, d)
    ensures Pending(spec, lbID, fipID, d)
  {
    var os := OpenStackIDIn(First(NetworkWithId(networkID), d.networks).value.regions, spec.region);
    if g :| g in d.gateways && g.network == os {
      var i :| 0 <= i < |d.gateways| && d.gateways[i] == g;
      assert GatewayNamed(GatewayName(spec))(d.gateways[i]);
      var first := First(GatewayNamed(GatewayName(spec)), d.gateways).value;
      assert DeletingGateway(spec, first);
    } else {
      var l :| l in d.lbs && l.network == os;
      assert DeletingLb(spec, lbID, l) || HiddenLb(spec, lbID, l);
    }
  }

  /** A fault-free pass that keeps the finalizer has lowered the measure, or leaves something on its way. */
  lemma PassProgress(
    spec: ClusterSpec, c: Cloud, j: Journal, s: ClusterStatus, d: Cloud, k: Journal, t: ClusterStatus,
    out: DeleteOutcome)
    requires DeletePass(spec, c, j, s, d, k, t, out) && Clean(j, k) && !out.Deleted?
    requires ValidFips(c) && OnlyOurs(spec, s.lbID, s.networkID, d)
    ensures Measure(spec, s.lbID, s.fipID, d) <= Measure(spec, s.lbID, s.fipID, c)
    ensures Pending(spec, s.lbID, s.fipID, d) || Measure(spec, s.lbID, s.fipID, d) < Measure(spec, s.lbID, s.fipID, c)
  {
    ShrunkFewer(spec, s.lbID, s.fipID, c, d);
    FewerMeasure(spec, s.lbID, s.fipID, c, d);
    if FipBlocks(c, s.lbID, s.fipID, d) {
      FipProgress(spec, c, s.lbID, s.fipID, d);
    } else {
      NetworkProgresses(spec, s.lbID, s.fipID, s.networkID, d);
    }
  }

  lemma PendingMeasure(spec: ClusterSpec, lbID: string, fipID: string, c: Cloud)
    ensures Pending(spec, lbID, fipID, c) ==> Measure(spec, lbID, fipID, c) > 0
  {
    if l :| l in c.lbs && (DeletingLb(spec, lbID, l) || HiddenLb(spec, lbID, l)) {
      assert l.id in Present(spec, lbID, c);
    } else if g :| g in c.gateways && DeletingGateway(spec, g) {
      assert g.id in Gateways(spec, c);
    } else if f :| f in c.fips && SettlingFip(fipID, f) {
      assert f.id in Awaited(lbID, fipID, c);
    }
  }

  // ----- a whole deletion

  /** One deleting pass: service, journal and status before and after. */
  datatype Round = Round(
    c: Cloud, j: Journal, s: ClusterStatus, d: Cloud, k: Journal, t: ClusterStatus, out: DeleteOutcome)

  ghost predicate CleanRound(spec: ClusterSpec, r: Round) {
    && DeletePass(spec, r.c, r.j, r.s, r.d, r.k, r.t, r.out)
    && Clean(r.j, r.k) && ValidFips(r.c) && OnlyOurs(spec, r.s.lbID, r.s.networkID, r.d)
  }

  /**
   * The next pass starts from the status before or after this one, as its patch was lost or not, and in between
   * nothing new got in the way.
   */
  ghost predicate Follows(spec: ClusterSpec, r: Round, n: Round) {
    n.s in {r.s, r.t} && Fewer(spec, r.s.lbID, r.s.fipID, r.d, n.c)
  }

  /** How often something was on its way between two passes, and nothing of it arrived. */
  function Idle(spec: ClusterSpec, run: seq<Round>): nat {
    if |run| < 2 then 0
    else (if Settles(spec, run[0].s.lbID, run[0].s.fipID, run[0].d, run[1].c) then 0 else 1) + Idle(spec, run[1..])
  }

  ghost predicate Deletion(spec: ClusterSpec, run: seq<Round>) {
    && (forall i | 0 <= i < |run| :: CleanRound(spec, run[i]))
    && (forall i | 0 < i < |run| :: Follows(spec, run[i - 1], run[i]))
  }

  ghost function RoundMeasure(spec: ClusterSpec, r: Round): nat {
    Measure(spec, r.s.lbID, r.s.fipID, r.c)
  }

  /** One round never raises the measure of the next, lowers it unless the gap is idle, and cannot start at zero. */
  lemma RoundLowers(spec: ClusterSpec, r: Round)
    requires CleanRound(spec, r) && !r.out.Deleted?
    ensures RoundMeasure(spec, r) > 0
    ensures forall n | Follows(spec, r, n) ::
              && RoundMeasure(spec, n) <= RoundMeasure(spec, r)
              && (Settles(spec, r.s.lbID, r.s.fipID, r.d, n.c) ==> RoundMeasure(spec, n) < RoundMeasure(spec, r))
  {
    PassProgress(spec, r.c, r.j, r.s, r.d, r.k, r.t, r.out);
    PendingMeasure(spec, r.s.lbID, r.s.fipID, r.d);
    SameRecords(spec, r);
    hide DeletePass, OnlyOurs, Pending, Measure, Settles, Fewer, ValidFips;
    forall n | Follows(spec, r, n)
      ensures RoundMeasure(spec, n) <= RoundMeasure(spec, r)
      ensures Settles(spec, r.s.lbID, r.s.fipID, r.d, n.c) ==> RoundMeasure(spec, n) < RoundMeasure(spec, r)
    {
      GapLowers(spec, r.s.lbID, r.s.fipID, r.d, n.c);
    }
  }

  lemma SameRecords(spec: ClusterSpec, r: Round)
    requires DeletePass(spec, r.c, r.j, r.s, r.d, r.k, r.t, r.out)
    ensures r.t.lbID == r.s.lbID && r.t.fipID == r.s.fipID && r.t.networkID == r.s.networkID
  {
  }

  /**
   * However many status patches are lost, the passes that do not remove the finalizer are no more than the measure
   * and the gaps in which nothing arrived: if what is on its way arrives eventually, the finalizer goes.
   */
  lemma {:induction false} DeletionEnds(spec: ClusterSpec, run: seq<Round>)
    requires run != [] && Deletion(spec, run)
    requires forall i | 0 <= i < |run| :: !run[i].out.Deleted?
    ensures |run| <= RoundMeasure(spec, run[0]) + Idle(spec, run)
  {
    hide CleanRound, Follows, RoundMeasure, Settles;
    RoundLowers(spec, run[0]);
    if |run| > 1 {
      assert Follows(spec, run[0], run[1]);
      DeletionEnds(spec, run[1..]);
    }
  }

  // ----- what the finalizer waits for

  /** A floating IP that is gone, or detached and down. */
  predicate Released(fips: seq<FloatingIP>, id: string) {
    var f := First(FipWithId(id), fips);
    f.None? || (f.value.entity.None? && f.value.status == "down")
  }

  /**
   * When the finalizer goes, every captured floating IP is gone or detached and down, but for those whose
   * read in that pass failed; all of them are, if nothing failed.
   */
  lemma DeletedReleases(
    spec: ClusterSpec, c: Cloud, j: Journal, s: ClusterStatus, d: Cloud, k: Journal, t: ClusterStatus, id: string)
    requires DeletePass(spec, c, j, s, d, k, t, Deleted) && !spec.keep
    requires id == s.fipID != "" || k.fipListFailures == j.fipListFailures
    requires Captured(c.fips, s.lbID, s.fipID, id)
    ensures Released(d.fips, id) || exists r | r in ReadsSince(j, k) :: r.id == id && r.failed
    ensures Clean(j, k) ==> Released(d.fips, id)
  {
    var seen := ReadsSince(j, k);
    hide Captured, Distinct, Shrunk;
    assert id in ReadIDs(seen);
    var i :| 0 <= i < |seen| && ReadIDs(seen)[i] == id;
    assert seen[i] in seen && !Blocking(seen[i]);
  }

  /** When the finalizer goes after a fault-free pass, every captured floating IP that is left is detached and down. */
  lemma CleanlyDeleted(
    spec: ClusterSpec, c: Cloud, j: Journal, s: ClusterStatus, d: Cloud, k: Journal, t: ClusterStatus, f: FloatingIP)
    requires DeletePass(spec, c, j, s, d, k, t, Deleted) && Clean(j, k) && !spec.keep && ValidFips(c)
    requires f in d.fips && Captured(c.fips, s.lbID, s.fipID, f.id)
    ensures f.entity.None? && f.status == "down"
  {
    DeletedReleases(spec, c, j, s, d, k, t, f.id);
    ShrunkFirst(c, d, f);
    assert CapturedReleased(c, s.lbID, s.fipID, d);
    hide DeletePass, Shrunk, ValidFips, Captured;
  }

  lemma ShrunkFirst(c: Cloud, d: Cloud, f: FloatingIP)
    requires Shrunk(c, d) && ValidFips(c) && f in d.fips
    ensures First(FipWithId(f.id), d.fips).Some? && First(FipWithId(f.id), d.fips).value.status == f.status
  {
    var i :| 0 <= i < |d.fips| && d.fips[i] == f;
    assert FipWithId(f.id)(d.fips[i]);
    var g := First(FipWithId(f.id), d.fips).value;
    var n :| 0 <= n < |d.fips| && d.fips[n] == g;
    assert c.fips[i] in c.fips && c.fips[n] in c.fips;
  }

  // ----- what a later pass no longer sees

  /** After a fault-free pass only the recorded floating IP is captured again; any other is never looked at any more. */
  lemma OthersForgotten(
    spec: ClusterSpec, c: Cloud, j: Journal, s: ClusterStatus, d: Cloud, k: Journal, t: ClusterStatus,
    out: DeleteOutcome, id: string)
    requires DeletePass(spec, c, j, s, d, k, t, out) && Clean(j, k) && !spec.keep
    ensures Captured(d.fips, t.lbID, t.fipID, id) <==> t.fipID != "" && id == t.fipID
  {
  }

  // ----- the sweep

  /**
   * A fault-free deletion of one cluster marks the listed load balancer of another exactly when the
   * other's name starts with its own followed by "-lb".
   */
  lemma SweepReach(
    spec: ClusterSpec, c: Cloud, j: Journal, s: ClusterStatus, d: Cloud, k: Journal, t: ClusterStatus,
    out: DeleteOutcome,
    other: string, i: nat)
    requires DeletePass(spec, c, j, s, d, k, t, out) && Clean(j, k) && !spec.keep
    requires PlainCluster(spec.clusterName) && PlainCluster(other) && other != spec.clusterName
    requires i < |c.lbs| && c.lbs[i].name == GenerateRFC1035Name(["capi", other, "lb"])
    requires c.lbs[i].listed && !c.lbs[i].deleting && c.lbs[i].id != s.lbID
    requires forall n | 0 <= n < |c.lbs| && c.lbs[n].id == c.lbs[i].id :: n == i
    ensures i < |d.lbs| && (d.lbs[i].deleting <==> spec.clusterName + "-lb" <= other)
  {
    OrphanSweepReach(spec.clusterName, other);
    SweepMarks(spec, s.lbID, c.lbs, d.lbs, i);
  }

  lemma SweepMarks(spec: ClusterSpec, lbID: string, s: seq<LoadBalancer>, t: seq<LoadBalancer>, i: nat)
    requires LbsMarked(s, t) && LbsSpared(spec, lbID, s, t) && LbsGoing(spec, lbID, t)
    requires i < |s| && s[i].listed && !s[i].deleting && s[i].id != lbID
    requires forall n | 0 <= n < |s| && s[n].id == s[i].id :: n == i
    ensures t[i].deleting <==> LbName(spec) <= s[i].name
  {
    assert t[i] in t;
    if t[i].deleting {
      var l :| l in s && l.id == s[i].id && l.listed && LbName(spec) <= l.name;
      var n :| 0 <= n < |s| && s[n] == l;
    }
  }
}
