/** The OVHMachine reconciler of internal/controller/ovhmachine_controller.go. */
module MachineController {
  import opened Sequences
  import opened Errors
  import opened Names
  import opened CloudModel
  import opened OvhClient
  import opened ClusterModel
  import opened MachineModel

  class MachineScope {
    const spec: MachineSpec
    const client: Client

    var finalizer: bool
    var ready: bool
    var provisioned: bool
    var instanceID: string
    var addresses: seq<MachineAddress>
    var providerID: string
    var memberID: string
    var registerMemberID: string
    var volumeIDs: seq<string>

    ghost function Status(): MachineStatus
      reads this
    {
      MachineStatus(finalizer, ready, provisioned, instanceID, addresses, providerID, memberID, registerMemberID,
                    volumeIDs)
    }

    /** A new object: nothing recorded. */
    constructor (spec: MachineSpec, client: Client)
      ensures this.spec == spec && this.client == client
      ensures Status() == MachineStatus(false, false, false, "", [], "", "", "", [])
    {
      this.spec, this.client := spec, client;
      finalizer, ready, provisioned, instanceID, addresses, providerID := false, false, false, "", [], "";
      memberID, registerMemberID, volumeIDs := "", "", [];
    }

    // ----- members

    /** The ID of the pool's member at this address and port; one is added if the list shows none or cannot be read. */
    method EnsureMember(poolID: string, address: string, port: int) returns (r: Result<string>)
      modifies client
      ensures MemberStep(old(client.cloud), old(client.journal), client.cloud, client.journal)
      ensures forall i | |old(client.cloud).members| <= i < |client.cloud.members| ::
                var m := client.cloud.members[i];
                m.poolID == poolID && m.address == address && m.port == port
      ensures r.Ok? ==> Registered(client.cloud.members, r.value, poolID, address, port)
      ensures client.journal.memberListFailures == old(client.journal).memberListFailures
              && (exists m | m in old(client.cloud).members :: MemberKey(poolID, address, port)(m)) ==>
                client.cloud == old(client.cloud) && client.journal.writes == old(client.journal).writes
      ensures Clean(old(client.journal), client.journal) ==> r.Ok?
    {
      ghost var c, j := client.cloud, client.journal;
      var members := client.ListPoolMembers(poolID);
      ghost var i := client.journal;
      MemberCalls(c, j, i);
      if members.Ok? {
        var known := FindFirst(MemberKey(poolID, address, port), members.value);
        if known.Some? {
          return Ok(known.value.id);
        }
        NoneInPool(c.members, poolID, address, port);
      }
      var member := client.AddPoolMember(poolID, address, port);
      MemberAdded(c, j, i, client.cloud, client.journal, poolID, address, port, members.Ok?);
      if member.Err? {
        return Err(Wrap("", member.error));
      }
      assert member.value in client.cloud.members;
      r := Ok(member.value.id);
    }

    /** Registers a control plane machine's first private IPv4 address in the API pool, then in the register pool. */
    method EnsureLBPoolMember(view: View, x: Instance) returns (e: Option<Error>)
      modifies this`memberID, this`registerMemberID, client
      ensures MemberStep(old(client.cloud), old(client.journal), client.cloud, client.journal)
      ensures MembersOf(spec, view, old(client.cloud), client.cloud, PrivateIP(x.addresses))
      ensures client.cloud.members != old(client.cloud).members ==> PrivateIP(x.addresses) != ""
      ensures MembersRecorded(view, client.cloud, old(Status()), Status(), PrivateIP(x.addresses))
      ensures Clean(old(client.journal), client.journal) ==>
                RegistrationDone(spec, view, client.cloud, Status(), PrivateIP(x.addresses))
    {
      ghost var c, j := client.cloud, client.journal;
      MemberCalls(c, j, j);
      if !spec.controlPlane {
        return None;
      }
      if view.poolID == "" {
        return Some(Text("no pool"));
      }
      var privateIP := FirstPrivateIP(x.addresses);
      if privateIP == "" {
        return Some(Text("no address"));
      }
      var member := EnsureMember(view.poolID, privateIP, API_PORT);
      if member.Err? {
        return Some(Wrap("", member.error));
      }
      memberID := member.value;
      ghost var d, k := client.cloud, client.journal;
      EnsureRKE2RegisterPoolMember(view, privateIP);
      MemberStepCompose(c, j, d, k, client.cloud, client.journal);
      e := None;
    }

    /** The linear scan for the first private IPv4 address. */
    method FirstPrivateIP(addresses: seq<Address>) returns (ip: string)
      ensures ip == PrivateIP(addresses)
    {
      var a := FindFirst((x: Address) => IsPrivateIPv4(x), addresses);
      ip := if a.Some? then a.value.ip else "";
    }

    /** The register pool is found by name on the cluster's load balancer; failures are left to the next pass. */
    method EnsureRKE2RegisterPoolMember(view: View, privateIP: string)
      modifies this`registerMemberID, client
      ensures MemberStep(old(client.cloud), old(client.journal), client.cloud, client.journal)
      ensures forall i | |old(client.cloud).members| <= i < |client.cloud.members| ::
                client.cloud.members[i].address == privateIP
                    && RegisterMember(view, client.cloud, client.cloud.members[i])
      ensures registerMemberID == old(registerMemberID) ||
              exists p | p in client.cloud.pools && p.name == REGISTER_POOL && p.lbID == view.lbID ::
                Registered(client.cloud.members, registerMemberID, p.id, privateIP, REGISTER_PORT)
      ensures Clean(old(client.journal), client.journal) ==>
                var p := First(PoolKey(REGISTER_POOL, view.lbID), client.cloud.pools);
                view.lbID != "" && p.Some? ==>
                  Registered(client.cloud.members, registerMemberID, p.value.id, privateIP, REGISTER_PORT)
    {
      ghost var c, j := client.cloud, client.journal;
      MemberCalls(c, j, j);
      if view.lbID == "" {
        return;
      }
      var pool := client.FindPoolByName(view.lbID, REGISTER_POOL);
      ghost var i := client.journal;
      MemberCalls(c, j, i);
      if pool.Err? || pool.value.None? {
        return;
      }
      var member := EnsureMember(pool.value.value.id, privateIP, REGISTER_PORT);
      MemberStepCompose(c, j, c, i, client.cloud, client.journal);
      if member.Ok? {
        registerMemberID := member.value;
      }
    }

    // ----- the instance

    /** The IPv4 addresses of the instance, in its order. */
    method CollectAddresses(ips: seq<Address>) returns (r: seq<MachineAddress>)
      ensures r == MachineAddresses(ips)
      ensures RecordsAddresses(ips, r)
    {
      r := [];
      for i := 0 to |ips|
        invariant r == MachineAddresses(ips[..i])
      {
        assert ips[..i + 1][..i] == ips[..i];
        if ips[i].version == 4 {
          r := r + [if ips[i].kind == "public" then ExternalIP(ips[i].ip) else InternalIP(ips[i].ip)];
        }
      }
      assert ips[..|ips|] == ips;
      AddressesAreIPv4(ips);
    }

    /** An instance that exists decides the machine's state; an active one is registered, best effort. */
    method HandleExistingInstance(view: View, x: Instance) returns (out: MachineOutcome)
      requires x in client.cloud.instances
      modifies this`instanceID, this`ready, this`provisioned, this`addresses, this`providerID,
               this`memberID, this`registerMemberID, client
      ensures ExistingInstanceStep(spec, view, old(client.cloud), old(client.journal), old(Status()),
                                   client.cloud, client.journal, Status(), x, out)
    {
      ghost var c, j := client.cloud, client.journal;
      instanceID := x.id;
      if x.status == ACTIVE {
        addresses := CollectAddresses(x.addresses);
        providerID := ProviderIDFromInstance(view.region, x.id);
        ready, provisioned := true, true;
        var warning := EnsureLBPoolMember(view, x);
        PrivateIPIsFirst(x.addresses);
        MemberStepIsMachineStep(c, j, client.cloud, client.journal);
        out := Ready;
      } else {
        MachineReads(c, j, j);
        ready := false;
        out := NotActive;
      }
    }

    /** The recorded instance, else the one the user named, else one that carries the machine's name. */
    method LookUpInstance(view: View) returns (r: Result<Option<Instance>>)
      modifies this`instanceID, client`journal
      ensures LookUpStep(spec, view, client.cloud.instances, old(client.journal), old(instanceID), client.journal,
                         instanceID, r)
    {
      hide IsNotFound, MissingSince;
      ghost var j, id := client.journal, instanceID;
      ghost var k := j;
      if instanceID != "" {
        var x := client.GetInstance(instanceID);
        k := client.journal;
        OneAnswer(j, k, ReadInstance(id));
        if x.Ok? {
          return Ok(Some(x.value));
        }
        if !IsNotFound(x.error) {
          return Err(Wrap("", x.error));
        }
        instanceID := "";
      }
      if spec.existingInstance != "" {
        var x := client.GetInstance(spec.existingInstance);
        r := if x.Ok? then Ok(Some(x.value)) else Err(Wrap("", x.error));
        SeenLonger(j.answers, j.answers, k.answers, client.journal.answers, ReadInstance(id));
        return;
      }
      r := client.FindInstanceByName(InstanceName(spec, view));
      FirstNone(InstanceNamed(InstanceName(spec, view)), client.cloud.instances);
      if r.Err? {
        r := Err(Wrap("", r.error));
      }
    }

    /** Flavor, image, bootstrap data and SSH key; any of them may be missing. */
    method ResolveInputs() returns (e: Option<Error>)
      modifies client`journal
      ensures Calls(old(client.journal), client.journal)
    {
      var lookups := if spec.sshKey then 3 else 2;
      for i := 0 to lookups
        invariant Calls(old(client.journal), client.journal)
      {
        e := client.Read();
        var missing: bool := *;
        if e.Some? || missing {
          return Some(if e.Some? then Wrap("", e.value) else Text("missing"));
        }
      }
      e := None;
    }

    /** Creates the instance; `ready` stays as it was. */
    method CreateMissingInstance(view: View) returns (out: MachineOutcome)
      requires Count(InstanceNamed(InstanceName(spec, view)), client.cloud.instances) == 0
      modifies this`instanceID, client
      ensures NewInstanceStep(spec, view, old(client.cloud), old(client.journal), old(Status()),
                              client.cloud, client.journal, Status(), out)
    {
      ghost var c, j := client.cloud, client.journal;
      var e := ResolveInputs();
      ghost var k := client.journal;
      MachineReads(c, j, k);
      if e.Some? {
        return Failed(e.value);
      }
      var x := client.CreateInstance(InstanceName(spec, view));
      InstanceAdded(c, k, client.cloud, client.journal, InstanceName(spec, view));
      MachineStepCompose(c, j, c, k, client.cloud, client.journal);
      if x.Err? {
        return Failed(Wrap("", x.error));
      }
      assert x.value in client.cloud.instances;
      instanceID := x.value.id;
      out := Created;
    }

    // ----- the passes

    /** The instance is looked for, and then seen to or created. */
    method ReconcileInstance(view: View) returns (out: MachineOutcome)
      requires Proceeds(view, Status())
      modifies this, client
      ensures MachinePass(spec, view, old(client.cloud), old(client.journal), old(Status()),
                          client.cloud, client.journal, Status(), out)
    {
      hide LookUpStep, ExistingInstanceStep, NewInstanceStep, MachinePass;
      ghost var c, j, s := client.cloud, client.journal, Status();
      var x := LookUpInstance(view);
      ghost var k, m := client.journal, Status();
      if x.Err? {
        LookUpFails(spec, view, c, j, s, k, m, x.error);
        return Failed(x.error);
      }
      LookUpShows(spec, view, c.instances, j, s.instanceID, k, m.instanceID, x.value);
      if x.value.Some? {
        out := HandleExistingInstance(view, x.value.value);
        LookUpThenHandled(spec, view, c, j, s, k, m, x.value.value, client.cloud, client.journal, Status(), out);
      } else {
        out := CreateMissingInstance(view);
        LookUpThenCreated(spec, view, c, j, s, k, m, client.cloud, client.journal, Status(), out);
      }
    }

    /** One pass over a machine that is not being deleted. */
    method ReconcileNormal(view: View) returns (out: MachineOutcome)
      modifies this, client
      ensures MachinePass(spec, view, old(client.cloud), old(client.journal), old(Status()),
                          client.cloud, client.journal, Status(), out)
    {
      hide MachineStep, ReadyOn, RegistrationDone;
      MachineReads(client.cloud, client.journal, client.journal);
      if view.paused {
        ready, provisioned := false, false;
        return Paused;
      }
      if !finalizer {
        finalizer, ready, provisioned := true, false, false;
        return MachineOutcome.FinalizerAdded;
      }
      if !view.provisioned {
        return WaitForCluster;
      }
      if !view.bootstrapReady {
        return WaitForBootstrap;
      }
      hide MachinePass;
      out := ReconcileInstance(view);
    }

    /** Removes the recorded member of the API pool; nothing removes the one of the register pool. */
    method RemoveLBPoolMember(view: View)
      modifies this`memberID, client
      ensures DetachStep(view, old(client.cloud), old(client.journal), old(memberID), client.cloud, client.journal,
                         memberID)
    {
      hide Accepted;
      ghost var j, id := client.journal, memberID;
      if memberID == "" || view.poolID == "" {
        return;
      }
      var e := client.RemovePoolMember(view.poolID, memberID);
      OneAnswer(j, client.journal, DeleteMember(view.poolID, id));
      if e.None? {
        memberID := "";
      }
    }

    /** Volumes are detached and deleted, best effort. */
    method DeleteVolumes()
      modifies client`journal
      ensures Calls(old(client.journal), client.journal)
      ensures VolumesAsked(old(client.journal).answers, client.journal.answers, volumeIDs, instanceID)
    {
      hide VolumesAsked;
      ghost var j := client.journal;
      NoVolumes(j.answers, instanceID);
      for i := 0 to |volumeIDs|
        invariant Calls(j, client.journal)
        invariant VolumesAsked(j.answers, client.journal.answers, volumeIDs[..i], instanceID)
      {
        ghost var k := client.journal;
        if instanceID != "" {
          var warning := client.DetachVolume(volumeIDs[i], instanceID);
        }
        ghost var l := client.journal;
        var warning := client.DeleteVolume(volumeIDs[i]);
        VolumeAsked(j, k, l, client.journal, volumeIDs[..i], instanceID, volumeIDs[i]);
        assert volumeIDs[..i + 1] == volumeIDs[..i] + [volumeIDs[i]];
      }
      assert volumeIDs[..|volumeIDs|] == volumeIDs;
    }

    /** Volumes and pool member go first. */
    method Detach(view: View)
      modifies this`memberID, client
      ensures DetachStep(view, old(client.cloud), old(client.journal), old(memberID), client.cloud, client.journal,
                         memberID)
      ensures VolumesAsked(old(client.journal).answers, client.journal.answers, volumeIDs, instanceID)
    {
      hide VolumesAsked, DetachStep;
      ghost var c, j, id := client.cloud, client.journal, memberID;
      DeleteVolumes();
      ghost var k := client.journal;
      RemoveLBPoolMember(view);
      ThenDetached(view, c, j, k, id, client.cloud, client.journal, memberID);
      VolumesLonger(j.answers, k.answers, client.journal.answers, volumeIDs, instanceID);
    }

    /** The recorded instance, if there is one; a read that fails counts as gone. */
    method DeleteRecordedInstance() returns (e: Option<Error>, gone: bool)
      modifies client
      ensures InstanceDeleteStep(old(client.cloud), old(client.journal), instanceID, client.cloud, client.journal, e,
                                 gone)
    {
      hide IsNotFound, Accepted;
      ghost var j := client.journal;
      if instanceID == "" {
        return None, true;
      }
      e := client.DeleteInstance(instanceID);
      ghost var k := client.journal;
      if e.Some? {
        AnswersOf(client.cloud.instances, j, k, k, instanceID, Some(Wrap("", e.value)), false);
        return Some(Wrap("", e.value)), false;
      }
      var x := client.GetInstance(instanceID);
      gone := x.Err? || x.value.status == DELETED;
      AnswersOf(client.cloud.instances, j, k, client.journal, instanceID, e, gone);
    }

    /** One deleting pass; `Gone` exactly when it removes the finalizer. Only a recorded instance is deleted. */
    method ReconcileDelete(view: View) returns (out: MachineDeleteOutcome)
      modifies this`finalizer, this`memberID, client
      ensures MachineDeletePass(spec, view, old(client.cloud), old(client.journal), old(Status()),
                                client.cloud, client.journal, Status(), out)
    {
      hide MachineDeletePass, DetachStep, InstanceDeleteStep;
      ghost var c, j, s := client.cloud, client.journal, Status();
      if spec.keep {
        finalizer := false;
        MachineKeepPass(spec, view, c, j, s, Status());
        return Gone;
      }
      Detach(view);
      ghost var d, k, id := client.cloud, client.journal, memberID;
      var e, gone := DeleteRecordedInstance();
      if e.None? && gone {
        finalizer := false;
      }
      MachineDeleteStages(spec, view, c, j, s, d, k, id, client.cloud, client.journal, Status(), e, gone);
      out := if e.Some? then DeleteFailed(e.value) else if gone then Gone else Terminating;
    }
  }
}
