/** What deleting an OVHCluster must do, and why it comes to an end. */
module DeleteModel {
  import opened Sequences
  import opened CloudModel
  import opened Errors
  import opened OvhClient
  import opened ClusterModel

  datatype DeleteOutcome = Deleted | DeleteWait | DeleteFailed(error: Error)

  // ----- floating IPs

  /** A read that stops the deletion: the floating IP is there, and not both detached and down. */
  predicate Blocking(read: FipRead) {
    read.seen.Some? && !(read.seen.value.entity.None? && read.seen.value.status == "down")
  }

  /** The floating IPs to delete: the recorded one and all listed as attached to the recorded load balancer. */
  predicate Captured(fips: seq<FloatingIP>, lbID: string, fipID: string, id: string) {
    || (fipID != "" && id == fipID)
    || (lbID != "" && exists f | f in fips :: f.id == id && f.entity == Some(lbID))
  }

  predicate Distinct(ids: seq<string>) {
    forall i, j | 0 <= i < j < |ids| :: ids[i] != ids[j]
  }

  /** Only floating IPs changed, and only by being detached. */
  ghost predicate FipsReleased(s: seq<FloatingIP>, t: seq<FloatingIP>) {
    |s| == |t| && forall i | 0 <= i < |s| :: t[i] == s[i] || t[i] == s[i].(entity := None)
  }

  // ----- what one pass may do

  /** Load balancers were at most marked for deletion. */
  ghost predicate LbsMarked(s: seq<LoadBalancer>, t: seq<LoadBalancer>) {
    && |s| == |t|
    && forall i | 0 <= i < |s| ::
         t[i] == s[i].(deleting := t[i].deleting) && (s[i].deleting ==> t[i].deleting)
  }

  ghost predicate GatewaysMarked(s: seq<Gateway>, t: seq<Gateway>) {
    && |s| == |t|
    && forall i | 0 <= i < |s| ::
         t[i] == s[i].(deleting := t[i].deleting) && (s[i].deleting ==> t[i].deleting)
  }

  ghost predicate ListenersRemoved(s: seq<Listener>, t: seq<Listener>) {
    && (forall x | x in t :: x in s)
    && (forall n, l :: Count(ListenerKey(n, l), t) <= Count(ListenerKey(n, l), s))
  }

  ghost predicate PoolsRemoved(s: seq<Pool>, t: seq<Pool>) {
    && (forall x | x in t :: x in s)
    && (forall n, l :: Count(PoolKey(n, l), t) <= Count(PoolKey(n, l), s))
  }

  predicate NoneAdded<T(==)>(s: seq<T>, t: seq<T>) {
    forall x | x in t :: x in s
  }

  /** Nothing was added; load balancers and gateways were only marked for deletion, floating IPs only detached. */
  ghost predicate Shrunk(c: Cloud, d: Cloud) {
    && d == c.(networks := d.networks, lbs := d.lbs, listeners := d.listeners, pools := d.pools,
               fips := d.fips, gateways := d.gateways, groups := d.groups)
    && LbsMarked(c.lbs, d.lbs) && GatewaysMarked(c.gateways, d.gateways) && FipsReleased(c.fips, d.fips)
    && ListenersRemoved(c.listeners, d.listeners) && PoolsRemoved(c.pools, d.pools)
    && NoneAdded(c.networks, d.networks) && NoneAdded(c.groups, d.groups)
  }

  lemma ShrunkCompose(c: Cloud, d: Cloud, e: Cloud)
    requires Shrunk(c, d) && Shrunk(d, e)
    ensures Shrunk(c, e)
  {
    forall i | 0 <= i < |c.fips| ensures e.fips[i] == c.fips[i] || e.fips[i] == c.fips[i].(entity := None) {
      assert d.fips[i] == c.fips[i] || d.fips[i] == c.fips[i].(entity := None);
    }
  }

  lemma ShrunkReflexive(c: Cloud)
    ensures Shrunk(c, c)
  {
  }

  /** Any number of client calls of a deleting pass. */
  predicate DeleteCalls(j: Journal, k: Journal) {
    && Later(j, k) && SameLookups(j, k)
    && k.history == j.history.(networksDeleted := k.history.networksDeleted)
    && j.history.networksDeleted <= k.history.networksDeleted
  }

  ghost predicate ShrunkBy(c: Cloud, j: Journal, d: Cloud, k: Journal) {
    && Shrunk(c, d) && DeleteCalls(j, k) && k.history == j.history
    && k.fipListFailures == j.fipListFailures && k.fipReads == j.fipReads
  }

  lemma PortDeleteShrinks(c: Cloud, d: Cloud, listenerID: string, poolID: string)
    requires d == c.(pools := d.pools, listeners := d.listeners)
    requires d.pools == c.pools || d.pools == Keep((x: Pool) => x.id != poolID, c.pools)
    requires d.listeners == c.listeners || d.listeners == Keep((x: Listener) => x.id != listenerID, c.listeners)
    ensures Shrunk(c, d)
  {
    forall n, l ensures Count(ListenerKey(n, l), d.listeners) <= Count(ListenerKey(n, l), c.listeners)
      ensures Count(PoolKey(n, l), d.pools) <= Count(PoolKey(n, l), c.pools)
    {
      CountKeep(ListenerKey(n, l), (x: Listener) => x.id != listenerID, c.listeners);
      CountKeep(PoolKey(n, l), (x: Pool) => x.id != poolID, c.pools);
    }
  }

  /** Marking a load balancer after earlier deletions of the same pass. */
  lemma LbDeleteShrinks(c: Cloud, j: Journal, d: Cloud, k: Journal, e: Cloud, l: Journal, id: string)
    requires ShrunkBy(c, j, d, k)
    requires e == d || e == d.(lbs := MarkedLbs(d.lbs, id))
    requires Ordered(k, l, DeleteLb(id))
    ensures ShrunkBy(c, j, e, l)
  {
    hide GatewaysMarked, FipsReleased, ListenersRemoved, PoolsRemoved, NoneAdded;
  }

  lemma OrphansCovered(s: seq<LoadBalancer>, t: seq<LoadBalancer>, prefix: string, orphans: seq<LoadBalancer>)
    requires |s| == |t| && forall i | 0 <= i < |s| :: t[i] == s[i].(deleting := t[i].deleting)
    requires forall l :: l in orphans <==> l in s && l.listed && prefix <= l.name
    ensures forall l | l in t && l.listed && prefix <= l.name :: exists x | 0 <= x < |orphans| :: orphans[x].id == l.id
  {
    forall l | l in t && l.listed && prefix <= l.name
      ensures exists x | 0 <= x < |orphans| :: orphans[x].id == l.id
    {
      var i :| 0 <= i < |t| && t[i] == l;
      assert s[i] in orphans;
    }
  }

  function ReadIDs(seen: seq<FipRead>): seq<string> {
    seq(|seen|, i requires 0 <= i < |seen| => seen[i].id)
  }

  /** The reads made between two moments. */
  function ReadsSince(j: Journal, k: Journal): seq<FipRead> {
    if j.fipReads <= k.fipReads then k.fipReads[|j.fipReads|..] else []
  }

  /** The floating IP shows what was read of it, but for having been detached since. */
  predicate StillShows(read: FipRead, f: Option<FloatingIP>) {
    f == read.seen || (read.seen.Some? && f == Some(read.seen.value.(entity := None)))
  }

  /** Every read that did not fail saw what the service shows. */
  predicate TrueReads(seen: seq<FipRead>, fips: seq<FloatingIP>) {
    forall r | r in seen && !r.failed :: StillShows(r, First(FipWithId(r.id), fips))
  }

  predicate NoneFailed(seen: seq<FipRead>) {
    forall r | r in seen :: !r.failed
  }

  function FailedRead(): FipRead -> bool {
    (r: FipRead) => r.failed
  }

  lemma {:induction false} FirstReleased(s: seq<FloatingIP>, t: seq<FloatingIP>, id: string)
    requires FipsReleased(s, t)
    ensures var f, g := First(FipWithId(id), s), First(FipWithId(id), t);
            g == f || (f.Some? && g == Some(f.value.(entity := None)))
  {
    if s != [] {
      FirstReleased(s[1..], t[1..], id);
    }
  }

  lemma ReadsStayTrue(seen: seq<FipRead>, s: seq<FloatingIP>, t: seq<FloatingIP>)
    requires TrueReads(seen, s) && FipsReleased(s, t)
    ensures TrueReads(seen, t)
  {
    forall r | r in seen && !r.failed ensures StillShows(r, First(FipWithId(r.id), t)) {
      FirstReleased(s, t, r.id);
    }
  }

  /**
   * Deleting and reading back these floating IPs: what changed, what was read, and what a fault-free run of it reaches.
   */
  ghost predicate CleanupStep(
    s: seq<FloatingIP>, j: Journal, t: seq<FloatingIP>, k: Journal, ids: seq<string>, all: seq<string>,
    seen: seq<FipRead>)
  {
    && FipsReleased(s, t) && ReleasedAmong(s, t, ids)
    && Calls(j.(fipReads := k.fipReads), k) && k.fipReads == j.fipReads + seen
    && ReadIDs(seen) == ids && TrueReads(seen, t)
    && Count(FailedRead(), seen) <= k.faults - j.faults
    && (Clean(j, k) ==>
          && NoneFailed(seen)
          && (forall p | 0 <= p < |t| && t[p].id in ids :: t[p].entity.None?)
          && ((exists r | r in seen :: Blocking(r)) ==> SomeUp(t, all)))
  }

  lemma CleanupNothing(s: seq<FloatingIP>, j: Journal, all: seq<string>)
    ensures CleanupStep(s, j, s, j, [], all, [])
  {
    assert ReadIDs([]) == [];
  }

  lemma CleanupCompose(
    s: seq<FloatingIP>, j: Journal, t: seq<FloatingIP>, k: Journal, ids: seq<string>, all: seq<string>,
    seen: seq<FipRead>,
    u: seq<FloatingIP>, l: Journal, id: string, read: FipRead)
    requires CleanupStep(s, j, t, k, ids, all, seen) && CleanupStep(t, k, u, l, [id], all, [read])
    ensures CleanupStep(s, j, u, l, ids + [id], all, seen + [read])
  {
    ReadsStayTrue(seen, t, u);
    ReleaseKeepsUp(t, u, all);
    CountConcat(FailedRead(), seen, [read]);
    assert ReadIDs(seen + [read]) == ReadIDs(seen) + ReadIDs([read]);
    assert l.fipReads == j.fipReads + (seen + [read]);
    hide TrueReads, SomeUp, Blocking;
    forall i | 0 <= i < |s| ensures u[i] == s[i] || u[i] == s[i].(entity := None)
      ensures u[i] == s[i] || s[i].id in ids + [id]
    {
      assert t[i] == s[i] || t[i] == s[i].(entity := None);
    }
  }

  /** Some of these floating IPs is not down yet. */
  predicate SomeUp(fips: seq<FloatingIP>, ids: seq<string>) {
    exists p | 0 <= p < |fips| :: fips[p].id in ids && fips[p].status != "down"
  }

  lemma ReleaseKeepsUp(s: seq<FloatingIP>, t: seq<FloatingIP>, ids: seq<string>)
    requires FipsReleased(s, t)
    ensures SomeUp(s, ids) ==> SomeUp(t, ids)
  {
    if SomeUp(s, ids) {
      var p :| 0 <= p < |s| && s[p].id in ids && s[p].status != "down";
      assert t[p].id in ids && t[p].status != "down";
    }
  }

  // ----- what a deleting pass spares

  /** The load balancers a pass may delete: the recorded one, and those listed under the cluster's prefix. */
  predicate Reached(spec: ClusterSpec, lbID: string, lbs: seq<LoadBalancer>, id: string) {
    || (lbID != "" && id == lbID)
    || exists l | l in lbs :: l.id == id && l.listed && LbName(spec) <= l.name
  }

  predicate LbsSpared(spec: ClusterSpec, lbID: string, s: seq<LoadBalancer>, t: seq<LoadBalancer>) {
    |s| == |t| && forall i | 0 <= i < |s| :: t[i] == s[i] || Reached(spec, lbID, s, s[i].id)
  }

  predicate FipsSpared(s: seq<FloatingIP>, lbID: string, fipID: string, t: seq<FloatingIP>) {
    |s| == |t| && forall i | 0 <= i < |s| :: t[i] == s[i] || Captured(s, lbID, fipID, s[i].id)
  }

  predicate GatewaysSpared(name: string, s: seq<Gateway>, t: seq<Gateway>) {
    |s| == |t| && forall i | 0 <= i < |s| :: t[i] == s[i] || exists g | g in s :: g.id == s[i].id && g.name == name
  }

  predicate ListenersSpared(id: string, s: seq<Listener>, t: seq<Listener>) {
    forall x | x in s && (id == "" || x.id != id) :: x in t
  }

  predicate PoolsSpared(id: string, s: seq<Pool>, t: seq<Pool>) {
    forall x | x in s && (id == "" || x.id != id) :: x in t
  }

  predicate GroupsSpared(ids: set<string>, s: seq<SecurityGroup>, t: seq<SecurityGroup>) {
    forall x | x in s && x.id !in ids :: x in t
  }

  predicate NetworksSpared(ids: set<string>, s: seq<Network>, t: seq<Network>) {
    forall x | x in s && x.id !in ids :: x in t
  }

  /** Of load balancers, ports, floating IPs and groups, only what is recorded, prefixed or attached was touched. */
  predicate AttachmentsSpared(
    spec: ClusterSpec, lbID: string, listenerID: string, poolID: string, fipID: string, groups: set<string>, c: Cloud,
    d: Cloud)
  {
    && LbsSpared(spec, lbID, c.lbs, d.lbs) && FipsSpared(c.fips, lbID, fipID, d.fips)
    && ListenersSpared(listenerID, c.listeners, d.listeners) && PoolsSpared(poolID, c.pools, d.pools)
    && GroupsSpared(groups, c.groups, d.groups)
  }

  /** Only gateways of the cluster's gateway name and only a network created here were touched. */
  predicate GroundSpared(spec: ClusterSpec, networks: set<string>, c: Cloud, d: Cloud) {
    && GatewaysSpared(GatewayName(spec), c.gateways, d.gateways)
    && NetworksSpared(networks, c.networks, d.networks)
  }

  lemma MarkSpares(spec: ClusterSpec, lbID: string, s: seq<LoadBalancer>, t: seq<LoadBalancer>, id: string)
    requires LbsSpared(spec, lbID, s, t) && Reached(spec, lbID, s, id)
    requires LbsMarked(s, t)
    ensures LbsSpared(spec, lbID, s, MarkedLbs(t, id))
  {
  }

  lemma LbsSparedCompose(spec: ClusterSpec, lbID: string, s: seq<LoadBalancer>, t: seq<LoadBalancer>,
                         u: seq<LoadBalancer>)
    requires LbsMarked(s, t) && LbsSpared(spec, lbID, s, t) && LbsSpared(spec, lbID, t, u)
    ensures LbsSpared(spec, lbID, s, u)
  {
    forall i | 0 <= i < |s| && u[i] != s[i] ensures Reached(spec, lbID, s, s[i].id) {
      if l :| l in t && l.id == t[i].id && l.listed && LbName(spec) <= l.name {
        var k :| 0 <= k < |t| && t[k] == l;
        assert s[k] in s;
      }
    }
  }

  predicate ReleasedAmong(s: seq<FloatingIP>, t: seq<FloatingIP>, ids: seq<string>) {
    |s| == |t| && forall i | 0 <= i < |s| :: t[i] == s[i] || s[i].id in ids
  }

  lemma MarkedIn(c: Cloud, j: Journal, d: Cloud, k: Journal)
    requires ShrunkBy(c, j, d, k)
    ensures LbsMarked(c.lbs, d.lbs)
  {
  }

  lemma ReleaseSpares(s: seq<FloatingIP>, lbID: string, fipID: string, t: seq<FloatingIP>, ids: seq<string>)
    requires ReleasedAmong(s, t, ids)
    requires forall id | id in ids :: Captured(s, lbID, fipID, id)
    ensures FipsSpared(s, lbID, fipID, t)
  {
  }

  // ----- the pass

  lemma ShrunkByCompose(c: Cloud, j: Journal, d: Cloud, k: Journal, e: Cloud, l: Journal)
    requires ShrunkBy(c, j, d, k) && ShrunkBy(d, k, e, l)
    ensures ShrunkBy(c, j, e, l)
  {
    ShrunkCompose(c, d, e);
    hide Shrunk;
  }

  /** Removing groups, detaching floating IPs and marking gateways only shrinks the service. */
  lemma SmallDeletes(c: Cloud, j: Journal, d: Cloud, k: Journal)
    requires d == c.(groups := d.groups, fips := d.fips, gateways := d.gateways)
    requires NoneAdded(c.groups, d.groups) && FipsReleased(c.fips, d.fips) && GatewaysMarked(c.gateways, d.gateways)
    requires Calls(j, k)
    ensures ShrunkBy(c, j, d, k)
  {
  }

  lemma StaysMarked(c: Cloud, d: Cloud, id: string)
    requires Shrunk(c, d)
    requires forall l | l in c.lbs && l.id == id :: l.deleting
    ensures forall l | l in d.lbs && l.id == id :: l.deleting
  {
    forall l | l in d.lbs && l.id == id ensures l.deleting {
      var i :| 0 <= i < |d.lbs| && d.lbs[i] == l;
      assert c.lbs[i] in c.lbs;
    }
  }

  /** A deleting pass up to some moment before it turns to the network. */
  ghost predicate Deleting(c: Cloud, j: Journal, d: Cloud, k: Journal) {
    Shrunk(c, d) && DeleteCalls(j, k) && k.history == j.history
  }

  lemma DeletingBegins(c: Cloud, j: Journal, d: Cloud, k: Journal, k': Journal, e: Cloud, l: Journal)
    requires ShrunkBy(c, j, d, k) && ListsOnly(k, k') && k'.fipReads == k.fipReads && ShrunkBy(d, k', e, l)
    ensures Deleting(c, j, e, l) && l.fipReads == j.fipReads
    ensures l.fipListFailures - j.fipListFailures == k'.fipListFailures - k.fipListFailures
    ensures j.faults <= k.faults <= k'.faults <= l.faults
    ensures j.answers <= k.answers <= k'.answers <= l.answers
  {
    ShrunkCompose(c, d, e);
    hide Shrunk;
  }

  lemma DeletingReleases(
    c: Cloud, j: Journal, d: Cloud, k: Journal, e: Cloud, l: Journal,
    ids: seq<string>, all: seq<string>, seen: seq<FipRead>)
    requires Deleting(c, j, d, k) && k.fipReads == j.fipReads
    requires e == d.(fips := e.fips) && CleanupStep(d.fips, k, e.fips, l, ids, all, seen)
    ensures Deleting(c, j, e, l) && ReadsSince(j, l) == seen
    ensures l.fipListFailures == k.fipListFailures && j.faults <= k.faults <= l.faults
    ensures j.answers <= k.answers <= l.answers
  {
    assert Shrunk(d, e);
    ShrunkCompose(c, d, e);
    hide Shrunk, TrueReads, ReleasedAmong, FipsReleased;
  }

  /** `ids` lists the captured floating IPs once each; all of them if the list could be read. */
  ghost predicate CapturedAll(fips: seq<FloatingIP>, lbID: string, fipID: string, ids: seq<string>, listed: bool) {
    && Distinct(ids)
    && (forall id | id in ids :: Captured(fips, lbID, fipID, id))
    && (fipID != "" ==> fipID in ids)
    && (listed ==> forall id | Captured(fips, lbID, fipID, id) :: id in ids)
  }

  lemma CapturedSpared(
    s: seq<FloatingIP>, lbID: string, fipID: string, t: seq<FloatingIP>, ids: seq<string>, listed: bool)
    requires CapturedAll(s, lbID, fipID, ids, listed) && ReleasedAmong(s, t, ids)
    ensures FipsSpared(s, lbID, fipID, t)
  {
    ReleaseSpares(s, lbID, fipID, t, ids);
  }

  /** All listed load balancers of the cluster, and the recorded one, are being deleted. */
  predicate LbsGoing(spec: ClusterSpec, lbID: string, lbs: seq<LoadBalancer>) {
    forall l | l in lbs && ((lbID != "" && l.id == lbID) || (l.listed && LbName(spec) <= l.name)) :: l.deleting
  }

  /** If the cluster has a gateway, the first one found is being deleted. */
  predicate GatewayGoing(spec: ClusterSpec, gateways: seq<Gateway>) {
    var g := First(GatewayNamed(GatewayName(spec)), gateways);
    g.Some? ==> g.value.deleting
  }

  lemma {:induction false} FirstMarked(s: seq<Gateway>, name: string, id: string)
    ensures var g := First(GatewayNamed(name), s);
            && First(GatewayNamed(name), MarkedGateways(s, id)).Some? == g.Some?
            && (g.Some? && g.value.id == id ==> First(GatewayNamed(name), MarkedGateways(s, id)).value.deleting)
  {
    if s != [] {
      assert MarkedGateways(s, id)[1..] == MarkedGateways(s[1..], id);
      FirstMarked(s[1..], name, id);
    }
  }

  /** Each captured floating IP was read back, once, truly unless the read failed. */
  ghost predicate CapturedRead(c: Cloud, j: Journal, lbID: string, fipID: string, d: Cloud, k: Journal) {
    var seen := ReadsSince(j, k);
    && CapturedAll(c.fips, lbID, fipID, ReadIDs(seen), k.fipListFailures == j.fipListFailures)
    && TrueReads(seen, d.fips)
    && Count(FailedRead(), seen) <= k.faults - j.faults
    && (Clean(j, k) ==> NoneFailed(seen))
  }

  /** What a pass that removes the finalizer has done and seen. */
  ghost predicate Freed(c: Cloud, j: Journal, s: ClusterStatus, d: Cloud, k: Journal) {
    && (s.lbID != "" ==> AcceptedSince(j.answers, k.answers, DeleteLb(s.lbID)))
    && CapturedRead(c, j, s.lbID, s.fipID, d, k)
    && (forall r | r in ReadsSince(j, k) :: !Blocking(r))
    && (s.networkCreated && s.networkID != "" ==> AcceptedSince(j.answers, k.answers, DeleteNetwork(s.networkID)))
  }

  /** Every floating IP captured at the start is detached by now. */
  predicate CapturedReleased(c: Cloud, lbID: string, fipID: string, d: Cloud) {
    forall f | f in d.fips && Captured(c.fips, lbID, fipID, f.id) :: f.entity.None?
  }

  /** A captured floating IP, although detached by now, is not down yet. */
  predicate FipBlocks(c: Cloud, lbID: string, fipID: string, d: Cloud) {
    && CapturedReleased(c, lbID, fipID, d)
    && exists f | f in d.fips :: Captured(c.fips, lbID, fipID, f.id) && f.status != "down"
  }

  /** The network is still in use, although the cluster's load balancers and gateway are being deleted. */
  predicate NetworkBlocks(spec: ClusterSpec, lbID: string, networkID: string, d: Cloud) {
    var n := First(NetworkWithId(networkID), d.networks);
    && n.Some? && InUse(d, n.value, spec.region)
    && LbsGoing(spec, lbID, d.lbs) && GatewayGoing(spec, d.gateways)
  }

  /** What is recorded besides load balancer and floating IP is gone, from the service and from the record. */
  predicate AttachmentsGone(
    spec: ClusterSpec, lbID: string, listenerID: string, poolID: string, groups: set<string>, d: Cloud,
    groupIDs: map<string, string>, recordID: int)
  {
    && groupIDs == map[] && (spec.dns ==> recordID == 0)
    && (forall x | x in d.groups :: x.id !in groups)
    && (lbID != "" && listenerID != "" ==> forall x | x in d.listeners :: x.id != listenerID)
    && (lbID != "" && poolID != "" ==> forall x | x in d.pools :: x.id != poolID)
  }

  /** A recorded security group is forgotten after an accepted delete, and kept after a refused one. */
  predicate GroupAnswered(a: seq<Answer>, b: seq<Answer>, id: string, kept: bool) {
    if kept then RefusedSince(a, b, DeleteGroup(id)) else AcceptedSince(a, b, DeleteGroup(id))
  }

  predicate GroupsAnswered(
    a: seq<Answer>, b: seq<Answer>, groupIDs: map<string, string>, names: set<string>, groupIDs': map<string, string>)
  {
    forall n | n in groupIDs && n !in names :: GroupAnswered(a, b, groupIDs[n], n in groupIDs')
  }

  lemma NoneAnswered(a: seq<Answer>, groupIDs: map<string, string>)
    ensures GroupsAnswered(a, a, groupIDs, groupIDs.Keys, groupIDs)
  {
  }

  lemma GroupsAnsweredThen(
    j: Journal, k: Journal, l: Journal, groupIDs: map<string, string>, names: set<string>,
    groupIDs': map<string, string>, name: string, e: Option<Error>, groupIDs'': map<string, string>)
    requires j.answers <= k.answers && GroupsAnswered(j.answers, k.answers, groupIDs, names, groupIDs')
    requires name in names && name in groupIDs && Ordered(k, l, DeleteGroup(groupIDs[name]))
    requires e.None? <==> Accepted(DeleteGroup(groupIDs[name]), LastAnswer(l))
    requires groupIDs'' == (if e.None? then groupIDs' - {name} else groupIDs') && (e.Some? ==> name in groupIDs')
    ensures GroupsAnswered(j.answers, l.answers, groupIDs, names - {name}, groupIDs'')
  {
    OneAnswer(k, l, DeleteGroup(groupIDs[name]));
    forall n | n in groupIDs && n !in names - {name}
      ensures GroupAnswered(j.answers, l.answers, groupIDs[n], n in groupIDs'')
    {
      if n == name {
        SeenLonger(j.answers, k.answers, l.answers, l.answers, DeleteGroup(groupIDs[n]));
      } else {
        assert GroupAnswered(j.answers, k.answers, groupIDs[n], n in groupIDs');
        SeenLonger(j.answers, j.answers, k.answers, l.answers, DeleteGroup(groupIDs[n]));
      }
    }
  }

  /** So is a recorded DNS record, if the cluster has DNS. */
  predicate RecordAnswered(a: seq<Answer>, b: seq<Answer>, dns: bool, recordID: int, recordID': int) {
    if !dns || recordID == 0 then recordID' == recordID
    else if recordID' == 0 then AcceptedSince(a, b, DeleteRecord(recordID))
    else recordID' == recordID && RefusedSince(a, b, DeleteRecord(recordID))
  }

  /** Of the DNS record and the groups, exactly those are forgotten whose delete was accepted. */
  predicate RecordsForgotten(
    a: seq<Answer>, b: seq<Answer>, dns: bool, groupIDs: map<string, string>, recordID: int,
    groupIDs': map<string, string>, recordID': int)
  {
    && RecordAnswered(a, b, dns, recordID, recordID')
    && groupIDs'.Keys <= groupIDs.Keys && (forall n | n in groupIDs' :: groupIDs'[n] == groupIDs[n])
    && GroupsAnswered(a, b, groupIDs, {}, groupIDs')
  }

  lemma ForgottenLonger(
    a: seq<Answer>, b: seq<Answer>, c: seq<Answer>, dns: bool, groupIDs: map<string, string>, recordID: int,
    groupIDs': map<string, string>, recordID': int)
    requires a <= b <= c && RecordsForgotten(a, b, dns, groupIDs, recordID, groupIDs', recordID')
    ensures RecordsForgotten(a, c, dns, groupIDs, recordID, groupIDs', recordID')
  {
    SeenLonger(a, a, b, c, DeleteRecord(recordID));
    forall n | n in groupIDs ensures GroupAnswered(a, c, groupIDs[n], n in groupIDs') {
      assert GroupAnswered(a, b, groupIDs[n], n in groupIDs');
      SeenLonger(a, a, b, c, DeleteGroup(groupIDs[n]));
    }
  }

  /** The DNS record first, then the groups. */
  lemma RecordThenGroups(
    a: seq<Answer>, b: seq<Answer>, c: seq<Answer>, dns: bool, groupIDs: map<string, string>, recordID: int,
    groupIDs': map<string, string>, recordID': int)
    requires a <= b <= c && RecordAnswered(a, b, dns, recordID, recordID')
    requires groupIDs'.Keys <= groupIDs.Keys && forall n | n in groupIDs' :: groupIDs'[n] == groupIDs[n]
    requires GroupsAnswered(b, c, groupIDs, {}, groupIDs')
    ensures RecordsForgotten(a, c, dns, groupIDs, recordID, groupIDs', recordID')
  {
    SeenLonger(a, a, b, c, DeleteRecord(recordID));
    forall n | n in groupIDs ensures GroupAnswered(a, c, groupIDs[n], n in groupIDs') {
      assert GroupAnswered(b, c, groupIDs[n], n in groupIDs');
      SeenLonger(a, b, c, c, DeleteGroup(groupIDs[n]));
    }
  }

  lemma GoneStays(
    spec: ClusterSpec, lbID: string, listenerID: string, poolID: string, groups: set<string>, c: Cloud, d: Cloud,
    groupIDs: map<string, string>, recordID: int)
    requires d == c.(fips := d.fips)
    ensures AttachmentsGone(spec, lbID, listenerID, poolID, groups, c, groupIDs, recordID) ==>
              AttachmentsGone(spec, lbID, listenerID, poolID, groups, d, groupIDs, recordID)
  {
  }

  /** Which networks a pass may name in a delete call. */
  function DeletableNetworks(s: ClusterStatus): set<string> {
    if s.networkCreated && s.networkID != "" then {s.networkID} else {}
  }

  /** The contract of one deleting pass. */
  ghost predicate DeletePass(
    spec: ClusterSpec, c: Cloud, j: Journal, s: ClusterStatus, d: Cloud, k: Journal, t: ClusterStatus,
    out: DeleteOutcome)
  {
    && t == s.(finalizer := t.finalizer, recordID := t.recordID, groupIDs := t.groupIDs)
    && t.finalizer == (s.finalizer && !out.Deleted?)
    && (!spec.keep ==>
          RecordsForgotten(j.answers, k.answers, spec.dns, s.groupIDs, s.recordID, t.groupIDs, t.recordID))
    && Shrunk(c, d) && DeleteCalls(j, k)
    && AttachmentsSpared(spec, s.lbID, s.listenerID, s.poolID, s.fipID, s.groupIDs.Values, c, d)
    && GroundSpared(spec, DeletableNetworks(s), c, d)
    && k.history.networksDeleted <= j.history.networksDeleted + DeletableNetworks(s)
    && (if spec.keep then
          out.Deleted? && d == c && k == j && t.groupIDs == s.groupIDs && t.recordID == s.recordID
        else
          && (match out
              case Deleted => Freed(c, j, s, d, k)
              case DeleteFailed(_) => s.lbID != "" && RefusedSince(j.answers, k.answers, DeleteLb(s.lbID))
              case DeleteWait =>
                || (exists r | r in ReadsSince(j, k) :: Blocking(r))
                || (s.networkCreated && s.networkID != ""
                    && RefusedSince(j.answers, k.answers, DeleteNetwork(s.networkID))))
          && (Clean(j, k) ==>
                && LbsGoing(spec, s.lbID, d.lbs) && CapturedReleased(c, s.lbID, s.fipID, d)
                && AttachmentsGone(spec, s.lbID, s.listenerID, s.poolID, s.groupIDs.Values, d, t.groupIDs, t.recordID)
                && match out
                case Deleted =>
                  && GatewayGoing(spec, d.gateways)
                  && forall n | n in d.networks :: n.id !in DeletableNetworks(s)
                case DeleteWait => FipBlocks(c, s.lbID, s.fipID, d) || NetworkBlocks(spec, s.lbID, s.networkID, d)
                case DeleteFailed(_) => false))
  }

  lemma KeepPass(spec: ClusterSpec, c: Cloud, j: Journal, s: ClusterStatus, t: ClusterStatus)
    requires spec.keep && t == s.(finalizer := false)
    ensures DeletePass(spec, c, j, s, c, j, t, Deleted)
  {
    ShrunkReflexive(c);
  }

  lemma FipWait(c: Cloud, lbID: string, fipID: string, d: Cloud, ids: seq<string>)
    requires CapturedAll(c.fips, lbID, fipID, ids, true)
    requires forall p | 0 <= p < |d.fips| && d.fips[p].id in ids :: d.fips[p].entity.None?
    ensures CapturedReleased(c, lbID, fipID, d)
    ensures SomeUp(d.fips, ids) ==> FipBlocks(c, lbID, fipID, d)
  {
    if SomeUp(d.fips, ids) {
      var p :| 0 <= p < |d.fips| && d.fips[p].id in ids && d.fips[p].status != "down";
      assert d.fips[p] in d.fips;
    }
  }

  /** Gateway and network: only a network that this controller created is named in a delete call. */
  predicate GroundCalls(networkCreated: bool, networkID: string, j: Journal, k: Journal, accepted: bool) {
    && Later(j, k) && SameLookups(j, k)
    && k.fipListFailures == j.fipListFailures && k.fipReads == j.fipReads
    && (if networkCreated && networkID != "" then
          && k.history == DeletedNetwork(j.history, networkID)
          && (if accepted then AcceptedSince(j.answers, k.answers, DeleteNetwork(networkID))
              else RefusedSince(j.answers, k.answers, DeleteNetwork(networkID)))
        else k.history == j.history && accepted)
  }

  ghost predicate GroundFrame(c: Cloud, d: Cloud) {
    && d == c.(gateways := d.gateways, networks := d.networks)
    && GatewaysMarked(c.gateways, d.gateways) && NoneAdded(c.networks, d.networks)
  }

  /** The network's deletion comes last. */
  lemma DeletingEnds(c: Cloud, j: Journal, d: Cloud, k: Journal, e: Cloud, l: Journal, s: ClusterStatus, accepted: bool)
    requires Deleting(c, j, d, k)
    requires GroundFrame(d, e) && GroundCalls(s.networkCreated, s.networkID, k, l, accepted)
    ensures Shrunk(c, e) && DeleteCalls(j, l) && j.faults <= k.faults <= l.faults
    ensures l.history.networksDeleted <= j.history.networksDeleted + DeletableNetworks(s)
    ensures j.answers <= k.answers <= l.answers
    ensures s.networkCreated && s.networkID != "" ==>
              if accepted then AcceptedSince(j.answers, l.answers, DeleteNetwork(s.networkID))
              else RefusedSince(j.answers, l.answers, DeleteNetwork(s.networkID))
  {
    SeenLonger(j.answers, k.answers, l.answers, l.answers, DeleteNetwork(s.networkID));
  }

  /** The stage of a pass that deals with load balancers and floating IPs. */
  ghost predicate AttachmentStep(
    spec: ClusterSpec, c: Cloud, j: Journal, lbID: string, fipID: string, d: Cloud, k: Journal,
    e: Option<Error>, requeue: bool)
  {
    && Deleting(c, j, d, k) && d.gateways == c.gateways && d.networks == c.networks
    && (e.None? ==>
          && CapturedRead(c, j, lbID, fipID, d, k)
          && (requeue <==> exists r | r in ReadsSince(j, k) :: Blocking(r))
          && (lbID != "" ==> AcceptedSince(j.answers, k.answers, DeleteLb(lbID))))
    && (e.Some? ==> lbID != "" && RefusedSince(j.answers, k.answers, DeleteLb(lbID)))
    && (Clean(j, k) ==>
          && e.None? && LbsGoing(spec, lbID, d.lbs) && CapturedReleased(c, lbID, fipID, d)
          && (requeue ==> FipBlocks(c, lbID, fipID, d)))
  }

  /** The stage that deals with the gateway and the network. */
  ghost predicate GroundDeleteStep(
    spec: ClusterSpec, c: Cloud, j: Journal, lbID: string, networkCreated: bool, networkID: string,
    d: Cloud, k: Journal, e: Option<Error>)
  {
    && GroundFrame(c, d) && d.lbs == c.lbs && d.fips == c.fips
    && GroundSpared(spec, if networkCreated && networkID != "" then {networkID} else {}, c, d)
    && GroundCalls(networkCreated, networkID, j, k, e.None?)
    && (Clean(j, k) ==>
          && GatewayGoing(spec, d.gateways)
          && (e.None? && networkCreated && networkID != "" ==> forall n | n in d.networks :: n.id != networkID)
          && (e.Some? && LbsGoing(spec, lbID, c.lbs) ==> NetworkBlocks(spec, lbID, networkID, d)))
  }

  /** The whole contract of the stages up to the floating IPs. */
  ghost predicate AttachmentsDone(
    spec: ClusterSpec, c: Cloud, j: Journal, s: ClusterStatus, d: Cloud, k: Journal, t: ClusterStatus,
    e: Option<Error>, requeue: bool)
  {
    && t == s.(recordID := t.recordID, groupIDs := t.groupIDs)
    && AttachmentStep(spec, c, j, s.lbID, s.fipID, d, k, e, requeue)
    && AttachmentsSpared(spec, s.lbID, s.listenerID, s.poolID, s.fipID, s.groupIDs.Values, c, d)
    && RecordsForgotten(j.answers, k.answers, spec.dns, s.groupIDs, s.recordID, t.groupIDs, t.recordID)
    && (Clean(j, k) ==>
          AttachmentsGone(spec, s.lbID, s.listenerID, s.poolID, s.groupIDs.Values, d, t.groupIDs, t.recordID))
  }

  lemma EarlyExit(
    spec: ClusterSpec, c: Cloud, j: Journal, s: ClusterStatus, d: Cloud, k: Journal, t: ClusterStatus,
    e: Option<Error>)
    requires !spec.keep && AttachmentsDone(spec, c, j, s, d, k, t, e, e.None?)
    ensures DeletePass(spec, c, j, s, d, k, t, if e.Some? then DeleteFailed(e.value) else DeleteWait)
  {
    hide Shrunk, FipBlocks, CapturedReleased, LbsGoing, AttachmentsSpared, AttachmentsGone;
  }

  /** What comes later in the pass changes neither floating IPs nor what was read of them. */
  lemma CapturedReadLater(
    c: Cloud, j: Journal, lbID: string, fipID: string, d: Cloud, k: Journal, e: Cloud, l: Journal)
    requires CapturedRead(c, j, lbID, fipID, d, k) && d.fips == e.fips && Later(k, l)
    requires l.fipReads == k.fipReads && l.fipListFailures == k.fipListFailures && j.faults <= k.faults
    ensures CapturedRead(c, j, lbID, fipID, e, l) && ReadsSince(j, l) == ReadsSince(j, k)
  {
    hide CapturedAll, TrueReads, ReadIDs, NoneFailed;
  }

  /** Gateway and network leave what the earlier stages reached and spared. */
  lemma GroundLeavesRest(
    spec: ClusterSpec, c: Cloud, s: ClusterStatus, d: Cloud, e: Cloud, groupIDs: map<string, string>, recordID: int,
    networks: set<string>)
    requires GroundFrame(d, e) && d.gateways == c.gateways && d.networks == c.networks
    requires AttachmentsSpared(spec, s.lbID, s.listenerID, s.poolID, s.fipID, s.groupIDs.Values, c, d)
    requires GroundSpared(spec, networks, d, e)
    ensures CapturedReleased(c, s.lbID, s.fipID, d) ==> CapturedReleased(c, s.lbID, s.fipID, e)
    ensures AttachmentsSpared(spec, s.lbID, s.listenerID, s.poolID, s.fipID, s.groupIDs.Values, c, e)
    ensures GroundSpared(spec, networks, c, e)
    ensures AttachmentsGone(spec, s.lbID, s.listenerID, s.poolID, s.groupIDs.Values, d, groupIDs, recordID) ==>
              AttachmentsGone(spec, s.lbID, s.listenerID, s.poolID, s.groupIDs.Values, e, groupIDs, recordID)
  {
    hide LbsSpared, FipsSpared, ListenersSpared, PoolsSpared, GroupsSpared, GatewaysSpared, NetworksSpared,
         GatewaysMarked, NoneAdded;
  }

  /** What the last stage makes of the pass: the network's answer decides. */
  lemma LastOutcome(
    spec: ClusterSpec, c: Cloud, j: Journal, s: ClusterStatus, d: Cloud, k: Journal, m: ClusterStatus,
    e: Cloud, l: Journal, failed: Option<Error>)
    requires AttachmentsDone(spec, c, j, s, d, k, m, None, false)
    requires GroundDeleteStep(spec, d, k, m.lbID, m.networkCreated, m.networkID, e, l, failed)
    ensures if failed.None? then Freed(c, j, s, e, l)
            else s.networkCreated && s.networkID != ""
                 && RefusedSince(j.answers, l.answers, DeleteNetwork(s.networkID))
    ensures RecordsForgotten(j.answers, l.answers, spec.dns, s.groupIDs, s.recordID, m.groupIDs, m.recordID)
    ensures Shrunk(c, e) && DeleteCalls(j, l) && j.faults <= k.faults <= l.faults
    ensures l.history.networksDeleted <= j.history.networksDeleted + DeletableNetworks(s)
  {
    hide RecordsForgotten, AcceptedSince, RefusedSince, Blocking, Shrunk, NetworkBlocks, LbsGoing, CapturedReleased,
         GatewayGoing, AttachmentsGone, AttachmentsSpared, FipBlocks, GatewaysMarked, NoneAdded, GroundSpared;
    DeletingEnds(c, j, d, k, e, l, s, failed.None?);
    ForgottenLonger(j.answers, k.answers, l.answers, spec.dns, s.groupIDs, s.recordID, m.groupIDs, m.recordID);
    SeenLonger(j.answers, j.answers, k.answers, l.answers, DeleteLb(s.lbID));
    CapturedReadLater(c, j, s.lbID, s.fipID, d, k, e, l);
    hide CapturedRead, ReadsSince, DeleteCalls;
  }

  /** Gateway and network, after nothing blocks among the floating IPs. */
  lemma LastStage(
    spec: ClusterSpec, c: Cloud, j: Journal, s: ClusterStatus, d: Cloud, k: Journal, m: ClusterStatus,
    e: Cloud, l: Journal, t: ClusterStatus, failed: Option<Error>)
    requires !spec.keep && AttachmentsDone(spec, c, j, s, d, k, m, None, false)
    requires GroundDeleteStep(spec, d, k, m.lbID, m.networkCreated, m.networkID, e, l, failed)
    requires t == m.(finalizer := m.finalizer && failed.Some?)
    ensures DeletePass(spec, c, j, s, e, l, t, if failed.Some? then DeleteWait else Deleted)
  {
    hide Freed, RecordsForgotten, RefusedSince, Shrunk, DeleteCalls, Deleting, CapturedRead, AcceptedSince, GroundCalls,
         NetworkBlocks, LbsGoing, CapturedReleased, GatewayGoing, FipBlocks, AttachmentsSpared, AttachmentsGone,
         GroundSpared, GatewaysMarked, NoneAdded, CapturedAll, Blocking;
    GroundLeavesRest(spec, c, s, d, e, t.groupIDs, t.recordID, DeletableNetworks(s));
    LastOutcome(spec, c, j, s, d, k, m, e, l, failed);
  }
}
