/** The OVHMachine object as values, and what a pass over it must keep. */
module MachineModel {
  import opened Sequences
  import opened CloudModel
  import opened Errors
  import opened Names
  import opened OvhClient
  import opened ClusterModel

  datatype MachineSpec = MachineSpec(
    machineName: string, controlPlane: bool, existingInstance: string, keep: bool, sshKey: bool)

  /** What a pass sees of the cluster and of its own object's surroundings. */
  datatype View = View(
    clusterName: string, region: string, provisioned: bool, lbID: string, poolID: string,
    paused: bool, bootstrapReady: bool)

  datatype MachineAddress = InternalIP(address: string) | ExternalIP(address: string)

  /** Everything one patch persists: the status, the finalizer and the provider ID. */
  datatype MachineStatus = MachineStatus(
    finalizer: bool, ready: bool, provisioned: bool, instanceID: string,
    addresses: seq<MachineAddress>, providerID: string, memberID: string, registerMemberID: string,
    volumeIDs: seq<string>)

  const ACTIVE := "ACTIVE"
  const DELETED := "DELETED"

  function InstanceName(spec: MachineSpec, view: View): string {
    GenerateRFC1035Name([view.clusterName, spec.machineName])
  }

  // ----- addresses

  predicate IsPrivateIPv4(a: Address) {
    a.version == 4 && a.kind == "private"
  }

  /** The first private IPv4 address, or "". */
  function PrivateIP(addresses: seq<Address>): string {
    var a := First((x: Address) => IsPrivateIPv4(x), addresses);
    if a.Some? then a.value.ip else ""
  }

  /** An entry of version 4 and kind "private" has the address, and no earlier entry is of that version and kind. */
  predicate FirstPrivate(addresses: seq<Address>, ip: string) {
    exists i ::
      && 0 <= i < |addresses|
      && addresses[i].version == 4 && addresses[i].kind == "private" && addresses[i].ip == ip
      && forall n | 0 <= n < i :: addresses[n].version != 4 || addresses[n].kind != "private"
  }

  lemma {:induction false} PrivateIPIsFirst(s: seq<Address>)
    ensures forall ip | ip != "" :: PrivateIP(s) == ip <==> FirstPrivate(s, ip)
  {
    var p := (x: Address) => IsPrivateIPv4(x);
    FirstAt(p, s);
    forall ip | ip != "" ensures PrivateIP(s) == ip <==> FirstPrivate(s, ip) {
      if First(p, s).Some? {
        var i :| FoundAt(p, s, i);
        assert p(s[i]) && forall n | 0 <= n < i :: !p(s[n]);
      } else {
        assert forall n | 0 <= n < |s| :: !p(s[n]);
      }
    }
  }

  /** The IPv4 addresses in order; a public one is external, any other internal. */
  function MachineAddresses(addresses: seq<Address>): seq<MachineAddress> {
    if addresses == [] then []
    else
      var last := addresses[|addresses| - 1];
      MachineAddresses(addresses[..|addresses| - 1])
      + (if IPv4(last) then [MachineAddressOf(last)] else [])
  }

  predicate IPv4(a: Address) {
    a.version == 4
  }

  function MachineAddressOf(a: Address): MachineAddress {
    if a.kind == "public" then ExternalIP(a.ip) else InternalIP(a.ip)
  }

  /**
   * External are exactly the addresses of entries of version 4 and kind "public", internal those of version 4 and any
   * other kind; and each entry of version 4 gives one.
   */
  lemma {:induction false} AddressesAreIPv4(s: seq<Address>)
    ensures |MachineAddresses(s)| == Count((a: Address) => a.version == 4, s)
    ensures forall ip ::
              ExternalIP(ip) in MachineAddresses(s) <==>
              exists a | a in s :: a.version == 4 && a.kind == "public" && a.ip == ip
    ensures forall ip ::
              InternalIP(ip) in MachineAddresses(s) <==>
              exists a | a in s :: a.version == 4 && a.kind != "public" && a.ip == ip
  {
    if s != [] {
      var front, last := s[..|s| - 1], s[|s| - 1];
      AddressesAreIPv4(front);
      CountConcat((a: Address) => a.version == 4, front, [last]);
      assert s == front + [last];
      assert forall a :: a in s <==> a in front || a == last;
    }
  }

  /** The order is that of the entries. */
  lemma {:induction false} AddressesInOrder(s: seq<Address>, t: seq<Address>)
    ensures MachineAddresses(s + t) == MachineAddresses(s) + MachineAddresses(t)
  {
    if t == [] {
      assert s + t == s;
    } else {
      assert (s + t)[..|s + t| - 1] == s + t[..|t| - 1];
      AddressesInOrder(s, t[..|t| - 1]);
    }
  }

  // ----- members

  /** A member of the pool at this address and port has this ID. */
  predicate Registered(members: seq<Member>, id: string, poolID: string, address: string, port: int) {
    exists m | m in members :: m.id == id && m.poolID == poolID && m.address == address && m.port == port
  }

  /** Members were added, and under every key the bound on duplicates survives. */
  ghost predicate MemberStep(c: Cloud, j: Journal, d: Cloud, k: Journal) {
    && d == c.(members := d.members, issued := d.issued)
    && c.issued <= d.issued && c.members <= d.members
    && Later(j, k)
    && k == j.(faults := k.faults, slept := k.slept, lost := k.lost, writes := k.writes,
               memberListFailures := k.memberListFailures, answers := k.answers)
    && (forall p, a, q :: GrowsBy(MemberTally(c, j, p, a, q), MemberTally(d, k, p, a, q)))
  }

  lemma MemberStepCompose(c: Cloud, j: Journal, d: Cloud, k: Journal, e: Cloud, l: Journal)
    requires MemberStep(c, j, d, k) && MemberStep(d, k, e, l)
    ensures MemberStep(c, j, e, l)
  {
    hide GrowsBy, MemberTally;
    forall p, a, q ensures GrowsBy(MemberTally(c, j, p, a, q), MemberTally(e, l, p, a, q)) {
      GrowsByCompose(MemberTally(c, j, p, a, q), MemberTally(d, k, p, a, q), MemberTally(e, l, p, a, q));
    }
  }

  lemma MemberCalls(c: Cloud, j: Journal, k: Journal)
    requires Later(j, k)
    requires k == j.(faults := k.faults, slept := k.slept, lost := k.lost, writes := k.writes,
                     memberListFailures := k.memberListFailures, answers := k.answers)
    ensures MemberStep(c, j, c, k)
  {
  }

  /** A search of the pool's members that finds nothing means there is nothing to be found. */
  lemma NoneInPool(members: seq<Member>, poolID: string, address: string, port: int)
    requires First(MemberKey(poolID, address, port), Keep(InPool(poolID), members)).None?
    ensures Count(MemberKey(poolID, address, port), members) == 0
  {
    var kept := Keep(InPool(poolID), members);
    forall m | m in members ensures !MemberKey(poolID, address, port)(m) {
      if m.poolID == poolID {
        assert m in kept;
      }
    }
    CountZero(MemberKey(poolID, address, port), members);
  }

  /** The pool's list was read, or the call that should read it failed. */
  predicate MembersListed(j: Journal, i: Journal, listed: bool) {
    if listed then Reads(j, i) else Reads(j.(memberListFailures := j.memberListFailures + 1), i) && !Clean(j, i)
  }

  /** A member added when the list showed none at the address and port, or could not be read. */
  lemma MemberAdded(
    c: Cloud, j: Journal, i: Journal, d: Cloud, k: Journal, poolID: string, address: string, port: int, listed: bool)
    requires d == c.(members := d.members, issued := d.issued) && c.issued <= d.issued
    requires Grew(c.members, d.members, i, k)
    requires forall n | |c.members| <= n < |d.members| :: MemberKey(poolID, address, port)(d.members[n])
    requires MembersListed(j, i, listed) && Writes(i, k)
    requires listed ==> Count(MemberKey(poolID, address, port), c.members) == 0
    ensures MemberStep(c, j, d, k)
  {
    forall p, a, q ensures GrowsBy(MemberTally(c, j, p, a, q), MemberTally(d, k, p, a, q)) {
      CountGrown(MemberKey(p, a, q), c.members, d.members);
      FindOrCreateGrows(MemberTally(c, j, p, a, q), MemberTally(d, k, p, a, q));
    }
  }

  // ----- the pass

  datatype MachineOutcome =
    | Paused | FinalizerAdded | WaitForCluster | WaitForBootstrap
    | Created | Ready | NotActive | Failed(error: Error)

  /** Instances and members were added, nothing else changed, and every bound on duplicates survives. */
  ghost predicate MachineStep(c: Cloud, j: Journal, d: Cloud, k: Journal) {
    && d == c.(instances := d.instances, members := d.members, issued := d.issued)
    && c.issued <= d.issued && c.instances <= d.instances && c.members <= d.members
    && Later(j, k)
    && k == j.(faults := k.faults, slept := k.slept, lost := k.lost, writes := k.writes,
               memberListFailures := k.memberListFailures, answers := k.answers)
    && (forall n :: GrowsBy(InstanceTally(c, j, n), InstanceTally(d, k, n)))
    && (forall p, a, q :: GrowsBy(MemberTally(c, j, p, a, q), MemberTally(d, k, p, a, q)))
  }

  /** The instance is the recorded one or the one the user named, or if none is named carries the machine's name. */
  predicate Chosen(spec: MachineSpec, view: View, before: string, x: Instance) {
    || (before != "" && x.id == before)
    || (if spec.existingInstance != "" then x.id == spec.existingInstance else x.name == InstanceName(spec, view))
  }

  /** The instance to use: the recorded one if it exists, else the one the user named, else the first of the name. */
  function Choice(spec: MachineSpec, view: View, before: string, instances: seq<Instance>): Option<Instance> {
    if before != "" && First(InstanceWithId(before), instances).Some? then First(InstanceWithId(before), instances)
    else if spec.existingInstance != "" then First(InstanceWithId(spec.existingInstance), instances)
    else First(InstanceNamed(InstanceName(spec, view)), instances)
  }

  /** The pass gets as far as the instance. */
  predicate Proceeds(view: View, s: MachineStatus) {
    !view.paused && s.finalizer && view.provisioned && view.bootstrapReady
  }

  /** A new member has the instance's address and the port of its pool; workers have none. */
  ghost predicate MembersOf(spec: MachineSpec, view: View, c: Cloud, d: Cloud, address: string) {
    && c.members <= d.members
    && (!spec.controlPlane ==> d.members == c.members)
    && forall i | |c.members| <= i < |d.members| ::
         var m := d.members[i];
         && m.address == address
         && ((m.poolID == view.poolID && m.port == 6443) || RegisterMember(view, d, m))
  }

  predicate RegisterMember(view: View, c: Cloud, m: Member) {
    && m.port == 9345
    && exists p | p in c.pools :: p.id == m.poolID && p.name == "rke2-register-pool" && p.lbID == view.lbID
  }

  /** The recorded members are the earlier ones, or sit at the instance's address behind the two ports. */
  ghost predicate MembersRecorded(view: View, d: Cloud, s: MachineStatus, t: MachineStatus, address: string) {
    && (t.memberID == s.memberID || Registered(d.members, t.memberID, view.poolID, address, API_PORT))
    && (t.registerMemberID == s.registerMemberID ||
        exists p | p in d.pools && p.name == REGISTER_POOL && p.lbID == view.lbID ::
          Registered(d.members, t.registerMemberID, p.id, address, REGISTER_PORT))
  }

  /** What a fault-free registration reaches for a control plane machine. */
  ghost predicate RegistrationDone(spec: MachineSpec, view: View, d: Cloud, t: MachineStatus, address: string) {
    spec.controlPlane && view.poolID != "" && address != "" ==>
      && Registered(d.members, t.memberID, view.poolID, address, API_PORT)
      && var p := First(PoolKey(REGISTER_POOL, view.lbID), d.pools);
         view.lbID != "" && p.Some? ==> Registered(d.members, t.registerMemberID, p.value.id, address, REGISTER_PORT)
  }

  /** External if of version 4 and kind "public", internal if of version 4 and another kind, and nothing else. */
  ghost predicate RecordsAddresses(s: seq<Address>, t: seq<MachineAddress>) {
    && (forall ip :: ExternalIP(ip) in t <==> exists a | a in s :: a.version == 4 && a.kind == "public" && a.ip == ip)
    && (forall ip :: InternalIP(ip) in t <==> exists a | a in s :: a.version == 4 && a.kind != "public" && a.ip == ip)
  }

  /**
   * A machine is ready on an active instance, whose addresses and provider ID are recorded: of each entry of version 4,
   * in order, the address, external if public and else internal. New members sit at the first private IPv4 address.
   */
  ghost predicate ReadyOn(
    spec: MachineSpec, view: View, c: Cloud, s: MachineStatus, d: Cloud, t: MachineStatus, x: Instance)
  {
    && x in c.instances && x.status == "ACTIVE"
    && t == s.(instanceID := x.id, ready := true, provisioned := true,
               addresses := MachineAddresses(x.addresses), providerID := ProviderIDFromInstance(view.region, x.id),
               memberID := t.memberID, registerMemberID := t.registerMemberID)
    && RecordsAddresses(x.addresses, t.addresses)
    && (forall i | |c.members| <= i < |d.members| :: FirstPrivate(x.addresses, d.members[i].address))
    && d.instances == c.instances
    && MembersOf(spec, view, c, d, PrivateIP(x.addresses))
    && MembersRecorded(view, d, s, t, PrivateIP(x.addresses))
  }

  /** The contract of one pass over a machine that is not being deleted. */
  ghost predicate MachinePass(
    spec: MachineSpec, view: View, c: Cloud, j: Journal, s: MachineStatus, d: Cloud, k: Journal, t: MachineStatus,
    out: MachineOutcome)
  {
    && MachineStep(c, j, d, k)
    && (s.instanceID != "" && t.instanceID != s.instanceID ==>
          MissingSince(j.answers, k.answers, ReadInstance(s.instanceID)))
    && match out
       case Paused => view.paused && d == c && k == j && t == s.(ready := false, provisioned := false)
       case FinalizerAdded =>
         && !view.paused && !s.finalizer && d == c && k == j
         && t == s.(finalizer := true, ready := false, provisioned := false)
       case WaitForCluster => !view.paused && s.finalizer && !view.provisioned && d == c && k == j && t == s
       case WaitForBootstrap =>
         && !view.paused && s.finalizer && view.provisioned && !view.bootstrapReady && d == c && k == j && t == s
       case Created =>
         && Proceeds(view, s)
         && t == s.(instanceID := t.instanceID) && d.members == c.members
         && (Clean(j, k) ==> Choice(spec, view, s.instanceID, c.instances).None?)
         && Count(InstanceNamed(InstanceName(spec, view)), c.instances) == 0 && spec.existingInstance == ""
         && (exists x | x in d.instances :: x.id == t.instanceID && x.name == InstanceName(spec, view))
         && NewInstancesNamed(spec, view, c, d)
       case Ready =>
         && Proceeds(view, s)
         && exists x ::
           && Chosen(spec, view, s.instanceID, x) && ReadyOn(spec, view, c, s, d, t, x)
           && (Clean(j, k) ==>
                 Choice(spec, view, s.instanceID, c.instances) == Some(x)
                 && RegistrationDone(spec, view, d, t, PrivateIP(x.addresses)))
       case NotActive =>
         && Proceeds(view, s)
         && t == s.(instanceID := t.instanceID, ready := false) && d == c
         && exists x | x in c.instances ::
              && x.id == t.instanceID && x.status != "ACTIVE" && Chosen(spec, view, s.instanceID, x)
              && (Clean(j, k) ==> Choice(spec, view, s.instanceID, c.instances) == Some(x))
       case Failed(_) =>
         && Proceeds(view, s)
         && t == s.(instanceID := t.instanceID) && t.instanceID in {s.instanceID, ""}
         && (Clean(j, k) && t.instanceID != s.instanceID ==>
               First(InstanceWithId(s.instanceID), c.instances).None?)
         && d.members == c.members && NewInstancesNamed(spec, view, c, d)
  }

  /**
   * Looking for the recorded instance, then the one the user named, then one of the name; `id` is what stays recorded.
   */
  ghost predicate LookUpStep(
    spec: MachineSpec, view: View, instances: seq<Instance>, j: Journal, before: string, k: Journal, id: string,
    r: Result<Option<Instance>>)
  {
    && Calls(j, k) && id in {before, ""}
    && (before != "" ==> (id == "" <==> MissingSince(j.answers, k.answers, ReadInstance(before))))
    && (r.Ok? && r.value.Some? ==> r.value.value in instances && Chosen(spec, view, before, r.value.value))
    && (r.Ok? && r.value.Some? && before != "" && id != "" ==> r.value.value.id == before)
    && (Clean(j, k) ==>
          var x := Choice(spec, view, before, instances);
          && (if r.Ok? then r.value == x else x.None? && spec.existingInstance != "")
          && (id != before ==> First(InstanceWithId(before), instances).None?))
    && (r.Ok? && r.value.None? ==>
          Count(InstanceNamed(InstanceName(spec, view)), instances) == 0 && spec.existingInstance == "" && id == "")
  }

  /** An instance that exists decides the machine's state; an active one is registered, best effort. */
  ghost predicate ExistingInstanceStep(
    spec: MachineSpec, view: View, c: Cloud, j: Journal, s: MachineStatus, d: Cloud, k: Journal, t: MachineStatus,
    x: Instance, out: MachineOutcome)
  {
    && MachineStep(c, j, d, k)
    && if x.status == "ACTIVE" then
         && out == Ready && ReadyOn(spec, view, c, s, d, t, x)
         && (Clean(j, k) ==> RegistrationDone(spec, view, d, t, PrivateIP(x.addresses)))
       else out == NotActive && d == c && k == j && t == s.(instanceID := x.id, ready := false)
  }

  ghost predicate NewInstanceStep(
    spec: MachineSpec, view: View, c: Cloud, j: Journal, s: MachineStatus, d: Cloud, k: Journal, t: MachineStatus,
    out: MachineOutcome)
  {
    && MachineStep(c, j, d, k) && t == s.(instanceID := t.instanceID) && d.members == c.members
    && NewInstancesNamed(spec, view, c, d)
    && match out
       case Created => exists x | x in d.instances :: x.id == t.instanceID && x.name == InstanceName(spec, view)
       case Failed(_) => t.instanceID == s.instanceID
       case _ => false
  }

  lemma LookUpShows(
    spec: MachineSpec, view: View, instances: seq<Instance>, j: Journal, before: string, k: Journal, id: string,
    x: Option<Instance>)
    requires LookUpStep(spec, view, instances, j, before, k, id, Ok(x))
    ensures x.Some? ==> x.value in instances
    ensures x.None? ==> Count(InstanceNamed(InstanceName(spec, view)), instances) == 0
  {
  }

  lemma LookUpForgets(j: Journal, k: Journal, d: Cloud, e: Cloud, l: Journal, before: string)
    requires MachineStep(d, k, e, l) && Calls(j, k)
    ensures MissingSince(j.answers, k.answers, ReadInstance(before)) ==>
              MissingSince(j.answers, l.answers, ReadInstance(before))
    ensures j.faults <= k.faults <= l.faults
  {
    SeenLonger(j.answers, j.answers, k.answers, l.answers, ReadInstance(before));
    hide MissingSince;
  }

  lemma LookUpFails(
    spec: MachineSpec, view: View, c: Cloud, j: Journal, s: MachineStatus, k: Journal, t: MachineStatus, e: Error)
    requires Proceeds(view, s) && t == s.(instanceID := t.instanceID)
    requires LookUpStep(spec, view, c.instances, j, s.instanceID, k, t.instanceID, Err(e))
    ensures MachinePass(spec, view, c, j, s, c, k, t, Failed(e))
  {
    hide MachineStep, MissingSince, Chosen, Choice;
    MachineReads(c, j, k);
  }

  lemma LookUpThenHandled(
    spec: MachineSpec, view: View, c: Cloud, j: Journal, s: MachineStatus, k: Journal, m: MachineStatus, x: Instance,
    d: Cloud, l: Journal, t: MachineStatus, out: MachineOutcome)
    requires Proceeds(view, s) && m == s.(instanceID := m.instanceID)
    requires LookUpStep(spec, view, c.instances, j, s.instanceID, k, m.instanceID, Ok(Some(x)))
    requires ExistingInstanceStep(spec, view, c, k, m, d, l, t, x, out)
    ensures MachinePass(spec, view, c, j, s, d, l, t, out)
  {
    hide MachineStep, MissingSince, Chosen, Choice, RecordsAddresses, MembersOf, RegistrationDone, FirstPrivate,
         Calls;
    MachineReads(c, j, k);
    MachineStepCompose(c, j, c, k, d, l);
    LookUpForgets(j, k, c, d, l, s.instanceID);
  }

  lemma LookUpThenCreated(
    spec: MachineSpec, view: View, c: Cloud, j: Journal, s: MachineStatus, k: Journal, m: MachineStatus,
    d: Cloud, l: Journal, t: MachineStatus, out: MachineOutcome)
    requires Proceeds(view, s) && m == s.(instanceID := m.instanceID)
    requires LookUpStep(spec, view, c.instances, j, s.instanceID, k, m.instanceID, Ok(None))
    requires NewInstanceStep(spec, view, c, k, m, d, l, t, out)
    ensures MachinePass(spec, view, c, j, s, d, l, t, out)
  {
    hide MachineStep, MissingSince, Chosen, Choice, NewInstancesNamed, Calls;
    MachineReads(c, j, k);
    MachineStepCompose(c, j, c, k, d, l);
    LookUpForgets(j, k, c, d, l, s.instanceID);
  }

  predicate NewInstancesNamed(spec: MachineSpec, view: View, c: Cloud, d: Cloud) {
    forall i | |c.instances| <= i < |d.instances| :: d.instances[i].name == InstanceName(spec, view)
  }

  lemma MemberStepIsMachineStep(c: Cloud, j: Journal, d: Cloud, k: Journal)
    requires MemberStep(c, j, d, k)
    ensures MachineStep(c, j, d, k)
  {
  }

  lemma MachineStepCompose(c: Cloud, j: Journal, d: Cloud, k: Journal, e: Cloud, l: Journal)
    requires MachineStep(c, j, d, k) && MachineStep(d, k, e, l)
    ensures MachineStep(c, j, e, l)
  {
    hide GrowsBy, MemberTally, InstanceTally;
    forall n ensures GrowsBy(InstanceTally(c, j, n), InstanceTally(e, l, n)) {
      GrowsByCompose(InstanceTally(c, j, n), InstanceTally(d, k, n), InstanceTally(e, l, n));
    }
    forall p, a, q ensures GrowsBy(MemberTally(c, j, p, a, q), MemberTally(e, l, p, a, q)) {
      GrowsByCompose(MemberTally(c, j, p, a, q), MemberTally(d, k, p, a, q), MemberTally(e, l, p, a, q));
    }
  }

  lemma MachineReads(c: Cloud, j: Journal, k: Journal)
    requires Calls(j, k)
    ensures MachineStep(c, j, c, k)
  {
    MemberCalls(c, j, k);
    MemberStepIsMachineStep(c, j, c, k);
  }

  /** An instance created when none carried its name. */
  lemma InstanceAdded(c: Cloud, j: Journal, d: Cloud, k: Journal, name: string)
    requires d == c.(instances := d.instances, issued := d.issued) && c.issued <= d.issued
    requires Grew(c.instances, d.instances, j, k) && Writes(j, k)
    requires forall n | |c.instances| <= n < |d.instances| :: d.instances[n].name == name
    requires Count(InstanceNamed(name), c.instances) == 0
    ensures MachineStep(c, j, d, k)
  {
    forall n ensures GrowsBy(InstanceTally(c, j, n), InstanceTally(d, k, n)) {
      CountGrown(InstanceNamed(n), c.instances, d.instances);
      FindOrCreateGrows(InstanceTally(c, j, n), InstanceTally(d, k, n));
    }
  }

  /**
   * After a pass that ends Ready the provider ID parses to region and instance, exactly when these can be told apart.
   */
  lemma ReadyProviderID(
    spec: MachineSpec, view: View, c: Cloud, j: Journal, s: MachineStatus, d: Cloud, k: Journal, t: MachineStatus)
    requires MachinePass(spec, view, c, j, s, d, k, t, Ready)
    ensures t.providerID == "ovhcloud://" + view.region + "/" + t.instanceID
    ensures ParseProviderID(t.providerID) == Some((view.region, t.instanceID)) <==>
              view.region != "" && '/' !in view.region && t.instanceID != ""
  {
    ProviderIDRoundTrip(view.region, t.instanceID);
    hide MachineStep, MembersOf, MembersRecorded, RegistrationDone, ParseProviderID;
  }

  // ----- deletion

  datatype MachineDeleteOutcome = Gone | Terminating | DeleteFailed(error: Error)

  /** Members other than the recorded one of the API pool stay, and so do other instances than the recorded one. */
  ghost predicate OthersStay(view: View, c: Cloud, s: MachineStatus, d: Cloud) {
    && d == c.(members := d.members, instances := d.instances)
    && (forall m | m in d.members :: m in c.members)
    && (forall m | m in c.members && !(s.memberID != "" && m.poolID == view.poolID && m.id == s.memberID) ::
          m in d.members)
    && (forall p, a, q :: Count(MemberKey(p, a, q), d.members) <= Count(MemberKey(p, a, q), c.members))
    && |d.instances| == |c.instances|
    && (forall i | 0 <= i < |c.instances| ::
          d.instances[i] == c.instances[i] ||
          (s.instanceID != "" && c.instances[i].id == s.instanceID
           && d.instances[i] == c.instances[i].(status := "DELETING")))
  }

  lemma DeletesOnly(view: View, c: Cloud, s: MachineStatus, d: Cloud)
    requires d == c.(members := d.members, instances := d.instances)
    requires d.members == c.members ||
             (s.memberID != "" &&
              d.members == Keep((m: Member) => !(m.poolID == view.poolID && m.id == s.memberID), c.members))
    requires d.instances == c.instances ||
             (s.instanceID != "" && d.instances == TerminatingInstances(c.instances, s.instanceID))
    ensures OthersStay(view, c, s, d)
  {
    forall p, a, q ensures Count(MemberKey(p, a, q), d.members) <= Count(MemberKey(p, a, q), c.members) {
      CountKeep(MemberKey(p, a, q), (m: Member) => !(m.poolID == view.poolID && m.id == s.memberID), c.members);
    }
  }

  /** Each recorded volume was asked to be deleted, and before that, if there is an instance, to be detached from it. */
  predicate VolumesAsked(a: seq<Answer>, b: seq<Answer>, volumes: seq<string>, instanceID: string) {
    forall v | v in volumes ::
      && MadeSince(a, b, Request.DeleteVolume(v))
      && (instanceID != "" ==> MadeSince(a, b, Request.DetachVolume(v, instanceID)))
  }

  /** One more volume. */
  lemma VolumeAsked(j: Journal, k: Journal, l: Journal, m: Journal, volumes: seq<string>, instanceID: string, v: string)
    requires j.answers <= k.answers && VolumesAsked(j.answers, k.answers, volumes, instanceID)
    requires if instanceID == "" then l == k else Ordered(k, l, Request.DetachVolume(v, instanceID))
    requires Ordered(l, m, Request.DeleteVolume(v))
    ensures VolumesAsked(j.answers, m.answers, volumes + [v], instanceID) && j.answers <= m.answers
  {
    forall w | w in volumes + [v]
      ensures MadeSince(j.answers, m.answers, Request.DeleteVolume(w))
      ensures instanceID != "" ==> MadeSince(j.answers, m.answers, Request.DetachVolume(w, instanceID))
    {
      if w in volumes {
        SeenLonger(j.answers, j.answers, k.answers, m.answers, Request.DeleteVolume(w));
        SeenLonger(j.answers, j.answers, k.answers, m.answers, Request.DetachVolume(w, instanceID));
      } else {
        assert m.answers[|l.answers|].request == Request.DeleteVolume(w);
        assert instanceID != "" ==> m.answers[|k.answers|].request == Request.DetachVolume(w, instanceID);
      }
    }
  }

  lemma NoVolumes(a: seq<Answer>, instanceID: string)
    ensures VolumesAsked(a, a, [], instanceID)
  {
  }

  lemma VolumesLonger(a: seq<Answer>, b: seq<Answer>, c: seq<Answer>, volumes: seq<string>, instanceID: string)
    requires a <= b <= c && VolumesAsked(a, b, volumes, instanceID)
    ensures VolumesAsked(a, c, volumes, instanceID)
  {
    forall v | v in volumes
      ensures MadeSince(a, c, Request.DeleteVolume(v))
      ensures instanceID != "" ==> MadeSince(a, c, Request.DetachVolume(v, instanceID))
    {
      SeenLonger(a, a, b, c, Request.DeleteVolume(v));
      SeenLonger(a, a, b, c, Request.DetachVolume(v, instanceID));
    }
  }

  /** The recorded member of the API pool is forgotten exactly if its delete was accepted. */
  predicate MemberForgotten(
    a: seq<Answer>, b: seq<Answer>, poolID: string, memberID: string, memberID': string)
  {
    if memberID == "" || poolID == "" then memberID' == memberID
    else if memberID' == "" then AcceptedSince(a, b, DeleteMember(poolID, memberID))
    else memberID' == memberID && RefusedSince(a, b, DeleteMember(poolID, memberID))
  }

  /**
   * The service's answers decide: a refused delete of the instance fails the pass. After an accepted one the instance
   * is read, and the finalizer stays only if that shows it in another state than deleted.
   */
  predicate InstanceAnswered(
    instances: seq<Instance>, a: seq<Answer>, b: seq<Answer>, id: string, out: MachineDeleteOutcome)
  {
    && a <= b && a != b
    && match out
       case DeleteFailed(_) => RefusedSince(a, b, Request.DeleteInstance(id))
       case _ =>
         && AcceptedSince(a, b, Request.DeleteInstance(id)) && b[|b| - 1].request == ReadInstance(id)
         && (out.Terminating? <==>
             b[|b| - 1].error.None?
             && exists x | x in instances :: First(InstanceWithId(id), instances) == Some(x) && x.status != "DELETED")
  }

  /**
   * The contract of one deleting pass over a machine: the finalizer goes only after an accepted delete of the instance,
   * and exactly if the read after it fails or shows no instance that is still there.
   */
  ghost predicate MachineDeletePass(
    spec: MachineSpec, view: View, c: Cloud, j: Journal, s: MachineStatus, d: Cloud, k: Journal, t: MachineStatus,
    out: MachineDeleteOutcome)
  {
    && OthersStay(view, c, s, d) && Calls(j, k)
    && t == s.(finalizer := s.finalizer && !out.Gone?, memberID := t.memberID)
    && (if spec.keep then out.Gone? && d == c && k == j && t.memberID == s.memberID
        else
          && VolumesAsked(j.answers, k.answers, s.volumeIDs, s.instanceID)
          && MemberForgotten(j.answers, k.answers, view.poolID, s.memberID, t.memberID)
          && (if s.instanceID == "" then out.Gone? && d.instances == c.instances
              else InstanceAnswered(d.instances, j.answers, k.answers, s.instanceID, out)))
    && (Clean(j, k) && !spec.keep ==>
          && (s.memberID != "" && view.poolID != "" ==>
                t.memberID == "" && forall m | m in d.members :: !(m.poolID == view.poolID && m.id == s.memberID))
          && (s.instanceID != "" ==>
                var x := First(InstanceWithId(s.instanceID), d.instances);
                out == if x.Some? && x.value.status != "DELETED" then Terminating else Gone))
  }

  function WithoutMember(members: seq<Member>, poolID: string, id: string): seq<Member> {
    Keep((m: Member) => !(m.poolID == poolID && m.id == id), members)
  }

  /** The first stage of a deleting pass: the recorded member of the API pool may go. */
  predicate DetachStep(view: View, c: Cloud, j: Journal, memberID: string, d: Cloud, k: Journal, memberID': string) {
    && d == c.(members := d.members) && Calls(j, k)
    && MemberForgotten(j.answers, k.answers, view.poolID, memberID, memberID')
    && (d.members == c.members || (memberID != "" && d.members == WithoutMember(c.members, view.poolID, memberID)))
    && (Clean(j, k) && memberID != "" && view.poolID != "" ==>
          memberID' == "" && d.members == WithoutMember(c.members, view.poolID, memberID))
  }

  lemma ThenDetached(
    view: View, c: Cloud, j: Journal, k: Journal, memberID: string, d: Cloud, l: Journal, memberID': string)
    requires Calls(j, k) && DetachStep(view, c, k, memberID, d, l, memberID')
    ensures DetachStep(view, c, j, memberID, d, l, memberID') && k.answers <= l.answers
  {
    SeenLonger(j.answers, k.answers, l.answers, l.answers, DeleteMember(view.poolID, memberID));
    hide AcceptedSince, RefusedSince, WithoutMember;
  }

  /**
   * The second stage: the recorded instance; `gone` unless the service still shows it in another state than deleted.
   */
  predicate InstanceDeleteStep(
    c: Cloud, j: Journal, instanceID: string, d: Cloud, k: Journal, e: Option<Error>, gone: bool)
  {
    && d == c.(instances := d.instances)
    && (d.instances == c.instances
        || (instanceID != "" && d.instances == TerminatingInstances(c.instances, instanceID)))
    && Calls(j, k)
    && (if instanceID == "" then e.None? && gone && d == c && k == j
        else InstanceAnswered(d.instances, j.answers, k.answers, instanceID, DeleteOutcomeOf(e, gone)))
    && (Clean(j, k) && instanceID != "" ==>
          var x := First(InstanceWithId(instanceID), d.instances);
          e.None? && (gone <==> x.None? || x.value.status == "DELETED"))
  }

  /** The delete of the instance, and the read after it if that was accepted. */
  lemma AnswersOf(
    instances: seq<Instance>, j: Journal, k: Journal, l: Journal, id: string, e: Option<Error>, gone: bool)
    requires Ordered(j, k, Request.DeleteInstance(id))
    requires e.None? <==> Accepted(Request.DeleteInstance(id), LastAnswer(k))
    requires if e.Some? then l == k else Asked(k, l, ReadInstance(id))
    requires e.None? ==>
               if gone then
                 LastAnswer(l).None? ==>
                   First(InstanceWithId(id), instances).Some?
                   && First(InstanceWithId(id), instances).value.status == "DELETED"
               else
                 LastAnswer(l).None? && First(InstanceWithId(id), instances).Some?
                 && First(InstanceWithId(id), instances).value.status != "DELETED"
    ensures InstanceAnswered(instances, j.answers, l.answers, id, DeleteOutcomeOf(e, gone)) && Calls(j, l)
  {
    hide Accepted;
    OneAnswer(j, k, Request.DeleteInstance(id));
    SeenLonger(j.answers, j.answers, k.answers, l.answers, Request.DeleteInstance(id));
  }

  function DeleteOutcomeOf(e: Option<Error>, gone: bool): MachineDeleteOutcome {
    if e.Some? then DeleteFailed(e.value) else if gone then Gone else Terminating
  }

  /** Of the service, the two stages change only what is recorded. */
  lemma StagesSpare(
    view: View, c: Cloud, j: Journal, s: MachineStatus, d: Cloud, k: Journal, memberID: string,
    x: Cloud, l: Journal, e: Option<Error>, gone: bool)
    requires DetachStep(view, c, j, s.memberID, d, k, memberID)
    requires InstanceDeleteStep(d, k, s.instanceID, x, l, e, gone)
    ensures OthersStay(view, c, s, x)
  {
    hide TerminatingInstances, InstanceAnswered, MemberForgotten, Calls;
    DeletesOnly(view, c, s, x);
  }

  /** A detached member is gone from the pool. */
  lemma Detached(members: seq<Member>, poolID: string, id: string)
    ensures forall m | m in WithoutMember(members, poolID, id) :: !(m.poolID == poolID && m.id == id)
  {
  }

  /** What the two stages were answered is what the pass was. */
  lemma StagesAnswered(
    a: seq<Answer>, b: seq<Answer>, c: seq<Answer>, view: View, s: MachineStatus, memberID: string,
    instances: seq<Instance>, out: MachineDeleteOutcome)
    requires a <= b <= c && MemberForgotten(a, b, view.poolID, s.memberID, memberID)
    ensures MemberForgotten(a, c, view.poolID, s.memberID, memberID)
    ensures InstanceAnswered(instances, b, c, s.instanceID, out) ==>
              InstanceAnswered(instances, a, c, s.instanceID, out)
  {
    SeenLonger(a, a, b, c, DeleteMember(view.poolID, s.memberID));
    SeenLonger(a, b, c, c, Request.DeleteInstance(s.instanceID));
    hide AcceptedSince, RefusedSince;
  }

  lemma MachineDeleteStages(
    spec: MachineSpec, view: View, c: Cloud, j: Journal, s: MachineStatus, d: Cloud, k: Journal, memberID: string,
    x: Cloud, l: Journal, t: MachineStatus, e: Option<Error>, gone: bool)
    requires !spec.keep && VolumesAsked(j.answers, k.answers, s.volumeIDs, s.instanceID)
    requires DetachStep(view, c, j, s.memberID, d, k, memberID)
    requires InstanceDeleteStep(d, k, s.instanceID, x, l, e, gone)
    requires t == s.(finalizer := s.finalizer && !DeleteOutcomeOf(e, gone).Gone?, memberID := memberID)
    ensures MachineDeletePass(spec, view, c, j, s, x, l, t, DeleteOutcomeOf(e, gone))
  {
    StagesSpare(view, c, j, s, d, k, memberID, x, l, e, gone);
    StagesAnswered(j.answers, k.answers, l.answers, view, s, memberID, x.instances, DeleteOutcomeOf(e, gone));
    VolumesLonger(j.answers, k.answers, l.answers, s.volumeIDs, s.instanceID);
    Detached(c.members, view.poolID, s.memberID);
    hide OthersStay, TerminatingInstances, WithoutMember, MemberForgotten, InstanceAnswered, VolumesAsked;
  }

  lemma MachineKeepPass(spec: MachineSpec, view: View, c: Cloud, j: Journal, s: MachineStatus, t: MachineStatus)
    requires spec.keep && t == s.(finalizer := false)
    ensures MachineDeletePass(spec, view, c, j, s, c, j, t, Gone)
  {
    DeletesOnly(view, c, s, c);
  }
}
