/** The AzureMachine service: the ordered chains of provider calls that
    create and delete the resources of one machine, and the decisions made
    on the way (availability zone, network interfaces, image, the recovery
    of a VM whose provisioning failed). */
module MachineReconciler {
  import opened Wrappers
  import opened Errors
  import opened Resources
  import opened Provider
  import opened Adapters
  import PublicIPs
  import Base64

  datatype AvailabilityZone = AvailabilityZone(id: Option<string>, enabled: Option<bool>)

  /** What the machine scope and the collaborators whose code is not part of
      this model provide to the service. */
  datatype MachineInputs = MachineInputs(
    name: string,
    resourceGroup: string,
    location: string,                      // the machine scope's location
    vmSize: string,
    sshPublicKey: string,
    availabilityZone: AvailabilityZone,    // the deprecated AvailabilityZone field
    requestedZone: string,                 // the machine scope's AvailabilityZone()
    allocatePublicIP: bool,
    image: Option<Image>,
    publicIPs: seq<PublicIPs.PublicIPSpec>,
    supportedZoneLocations: seq<string>,   // azure.SupportedAvailabilityZoneLocations
    zones: Result<seq<string>, Error>,     // the SKU cache's zones for the VM size and location
    defaultImage: Result<Image, Error>,    // the default Ubuntu image for the machine's version
    bootstrapData: Result<string, Error>)  // the machine scope's bootstrap data

  /** Resource names derived from the machine name (cloud/defaults.go and the
      adapters, not part of this model). */
  function NICName(machine: string): string { machine + "-nic" }
  function PublicNICName(machine: string): string { machine + "-public-nic" }
  function OSDiskName(machine: string): string { machine + "_OSDisk" }

  /** The messages the service wraps step errors with. */
  const DeleteMachineMsg := "failed to delete machine"
  const CreateRoleAssignmentMsg := "unable to create role assignment"
  const CreatePublicIPsMsg := "unable to create public IPs"
  const CreateNatRuleMsg := "unable to create inbound NAT rule"
  const CreateNicMsg := "unable to create VM network interface"
  const ReconcileVmMsg := "failed to reconcile virtual machine"
  const DeletePublicIPsMsg := "failed to delete public IPs"
  const DeleteNicMsg := "Unable to delete network interface"
  const DeleteNatRuleMsg := "Unable to delete inbound NAT rule"
  const GetVmMsg := "Failed to get VM"

  /** The error base64.StdEncoding.DecodeString reports; the offset of the
      offending byte is not modelled. */
  const Base64Error := New("illegal base64 data")

  // ---------------------------------------------------------------------
  // Availability zones

  /** isAvailabilityZoneSupported: a search of the supported locations. */
  method IsAvailabilityZoneSupported(location: string, supported: seq<string>) returns (azSupported: bool)
    ensures azSupported <==> location in supported
  {
    azSupported := false;
    for i := 0 to |supported|
      invariant location !in supported[..i]
    {
      if location == supported[i] {
        azSupported := true;
        return azSupported;
      }
    }
  }

  /** The zone getVirtualMachineZone picks from the zones that offer the VM
      size. A requested zone is kept only if offered; without one, the
      deprecated zone ID is used in its place; with neither, the first
      offered zone is taken. */
  function ZoneFor(zones: seq<string>, requested: string, deprecatedID: Option<string>): (zone: string)
    ensures zone == "" || zone in zones
    ensures zones == [] ==> zone == ""
    ensures zones != [] && requested != "" ==> zone == (if requested in zones then requested else "")
    ensures zones != [] && requested == "" && deprecatedID.Some? && deprecatedID.value != "" ==>
              zone == (if deprecatedID.value in zones then deprecatedID.value else "")
    ensures zones != [] && requested == "" && (deprecatedID.None? || deprecatedID.value == "") ==> zone == zones[0]
  {
    if zones == [] then ""
    else
      var wanted := if requested == "" && deprecatedID.Some? then deprecatedID.value else requested;
      if wanted == "" then zones[0]
      else if wanted in zones then wanted
      else ""
  }

  /** getVirtualMachineZone: the zones lookup may fail; otherwise ZoneFor. */
  method GetVirtualMachineZone(zonesLookup: Result<seq<string>, Error>, vmSize: string, requested: string, deprecatedID: Option<string>)
    returns (zone: string, err: Option<Error>)
    ensures zonesLookup.Failure? ==>
              zone == "" && err == Some(Wrap("failed to get zones for VM size " + vmSize, zonesLookup.error))
    ensures zonesLookup.Success? ==> err.None? && zone == ZoneFor(zonesLookup.value, requested, deprecatedID)
  {
    if zonesLookup.Failure? {
      return "", Some(Wrap("failed to get zones for VM size " + vmSize, zonesLookup.error));
    }
    var zones := zonesLookup.value;
    if |zones| <= 0 {
      return "", None;
    }
    var wanted := requested;
    if wanted == "" && deprecatedID.Some? {
      wanted := deprecatedID.value;
    }
    zone := "";
    if wanted != "" {
      for i := 0 to |zones|
        invariant wanted !in zones[..i]
      {
        if zones[i] == wanted {
          zone := wanted;
          break;
        }
      }
    } else {
      zone := zones[0];
    }
    err := None;
  }

  // ---------------------------------------------------------------------
  // Image and VM spec

  /** getVMImage: the machine's own image if it names one, otherwise the
      default image (whose lookup may fail). */
  function VMImage(image: Option<Image>, defaultImage: Result<Image, Error>): (r: Result<Image, Error>)
    ensures image.Some? ==> r == Success(image.value)
    ensures image.None? ==> r == defaultImage
  {
    if image.Some? then Success(image.value) else defaultImage
  }

  /** The zone is looked up only in a location that supports zones, and only
      when zones are not explicitly disabled. */
  predicate UsesZone(m: MachineInputs) {
    m.location in m.supportedZoneLocations && m.availabilityZone.enabled != Some(false)
  }

  /** The primary interface, then the public one when a public IP is
      allocated. */
  function NICNames(m: MachineInputs, nicName: string): seq<string> {
    [nicName] + (if m.allocatePublicIP then [PublicNICName(m.name)] else [])
  }

  /** The VM spec reconcileVirtualMachine asks for, or the error that stops
      it before any provider call: the SSH key is decoded first, then the
      zone, the image and the bootstrap data are resolved. */
  function PrepareVm(m: MachineInputs, nicName: string): Result<VmSpec, Error> {
    match Base64.Decode(m.sshPublicKey)
    case None => Failure(Wrap("failed to decode ssh public key", Base64Error))
    case Some(key) =>
      if UsesZone(m) && m.zones.Failure? then
        Failure(Wrap("failed to get availability zone", Wrap("failed to get zones for VM size " + m.vmSize, m.zones.error)))
      else
        var zone := if UsesZone(m) then ZoneFor(m.zones.value, m.requestedZone, m.availabilityZone.id) else "";
        var image := VMImage(m.image, m.defaultImage);
        if image.Failure? then Failure(Wrap("failed to get VM image", image.error))
        else if m.bootstrapData.Failure? then Failure(Wrap("failed to retrieve bootstrap data", m.bootstrapData.error))
        else Success(VmSpec(m.name, NICNames(m, nicName), key, m.vmSize, image.value, m.bootstrapData.value, zone))
  }

  /** What the prepared spec is: the decoded key, a zone only where zones
      are used (and then the one the zone choice picks, offered for the VM
      size), the interfaces, the own or the default image and the bootstrap
      data; and a key that is not standard base64
      stops everything, whatever else is wrong. */
  lemma PreparedVm(m: MachineInputs, nicName: string)
    ensures !Base64.IsStdBase64(m.sshPublicKey) ==>
              PrepareVm(m, nicName) == Failure(Wrap("failed to decode ssh public key", Base64Error))
    ensures PrepareVm(m, nicName).Success? ==>
              var spec := PrepareVm(m, nicName).value;
              && Base64.Decode(m.sshPublicKey) == Some(spec.sshKeyData)
              && spec.name == m.name && spec.size == m.vmSize
              && (!UsesZone(m) ==> spec.zone == "")
              && (spec.zone != "" ==> UsesZone(m) && m.zones.Success? && spec.zone in m.zones.value)
              && (UsesZone(m) ==> m.zones.Success? && spec.zone == ZoneFor(m.zones.value, m.requestedZone, m.availabilityZone.id))
              && spec.nicNames[0] == nicName
              && (|spec.nicNames| == 2 <==> m.allocatePublicIP)
              && (m.allocatePublicIP ==> spec.nicNames[1] == PublicNICName(m.name))
              && (m.image.Some? ==> spec.image == m.image.value)
              && (m.image.None? ==> m.defaultImage == Success(spec.image))
              && m.bootstrapData == Success(spec.customData)
  {
  }

  /** A key that is the standard base64 of some bytes reaches the VM spec as
      exactly those bytes. */
  lemma SSHKeyReachesSpec(m: MachineInputs, nicName: string, key: seq<Base64.byte>)
    requires m.sshPublicKey == Base64.Encode(key)
    ensures PrepareVm(m, nicName).Success? ==> PrepareVm(m, nicName).value.sshKeyData == key
    ensures PrepareVm(m, nicName) != Failure(Wrap("failed to decode ssh public key", Base64Error))
  {
    Base64.DecodeEncode(key);
  }

  // ---------------------------------------------------------------------
  // The virtual machine step

  /** What reconcileVirtualMachine does, as a function of the provider's
      behaviour: the calls it makes in order, what it returns, and the store
      it leaves. */
  datatype VmRun = VmRun(calls: seq<Call>, result: Result<Vm, Error>, store: map<Key, Record>)

  /** The run of reconcileVirtualMachine for machine `name` from store `s0`,
      given the spec PrepareVm gives (or the error it stops with). Nothing
      reaches the provider until the spec is prepared; the VM is then
      created and read back, and its provisioning state decides the rest. */
  function RunVm(s0: map<Key, Record>, prepared: Result<VmSpec, Error>, name: string, resourceGroup: string,
                 faults: set<Call>, provision: VmSpec -> Vm): (run: VmRun)
    ensures run.result.Success? ==>
              && prepared.Success?
              && run.result.value == provision(prepared.value)
              && run.result.value.state == VMStateSucceeded
              && Key(VirtualMachine, name) in run.store
              && run.store[Key(VirtualMachine, name)] == VmRecord(prepared.value, run.result.value)
    ensures run.calls == [] <==> prepared.Failure?
    ensures prepared.Failure? ==> run.result == Failure(prepared.error) && run.store == s0
  {
    match prepared
    case Failure(e) => VmRun([], Failure(e), s0)
    case Success(spec) =>
      var create := Call(CreateOrUpdate, VirtualMachine, name);
      var get := Call(Op.Get, VirtualMachine, name);
      var vm := provision(spec);
      var s1 := s0[Key(VirtualMachine, name) := VmRecord(spec, vm)];
      if create in faults then
        VmRun([create], Failure(Wrap(ReconcileVmMsg, Provider(InternalServerError))), s0)
      else if get in faults then
        VmRun([create, get], Failure(Wrap("failed to get VM " + name + " in " + resourceGroup, Provider(InternalServerError))), s1)
      else
        var after := CheckState(s1, vm, name, faults);
        VmRun([create, get] + after.calls, after.result, after.store)
  }

  /** What follows the read-back of a VM: one that failed provisioning is
      deleted together with its OS disk and reported for a retry; any
      other state but Succeeded is an error; a Succeeded VM is returned. */
  function CheckState(s1: map<Key, Record>, vm: Vm, name: string, faults: set<Call>): (run: VmRun)
    ensures run.result.Success? <==> vm.state == VMStateSucceeded
    ensures run.result.Success? ==> run.result.value == vm && run.store == s1 && run.calls == []
    ensures vm.state != VMStateFailed ==> run.calls == [] && run.store == s1
    ensures vm.state == VMStateFailed ==> 0 < |run.calls| && run.calls[0] == Call(Op.Delete, VirtualMachine, name)
    ensures forall c | c in run.calls :: c == Call(Op.Delete, VirtualMachine, name) || c == Call(Op.Delete, Disk, OSDiskName(name))
  {
    if vm.state == VMStateFailed then
      var deleteVm := Call(Op.Delete, VirtualMachine, name);
      var deleteDisk := Call(Op.Delete, Disk, OSDiskName(name));
      if deleteVm in faults then
        VmRun([deleteVm], Failure(Wrap(DeleteMachineMsg, Provider(InternalServerError))), s1)
      else if deleteDisk in faults then
        VmRun([deleteVm, deleteDisk],
              Failure(Wrap("failed to delete OS disk of machine " + name, Provider(InternalServerError))),
              s1 - {Key(VirtualMachine, name)})
      else
        VmRun([deleteVm, deleteDisk],
              Failure(New("virtual machine " + name + " is deleted, retry creating in next reconcile")),
              s1 - {Key(VirtualMachine, name)} - {Key(Disk, OSDiskName(name))})
    else if vm.state != VMStateSucceeded then
      VmRun([], Failure(New("virtual machine " + name + " is still in provisioning state " + vm.state + ", reconcile")), s1)
    else
      VmRun([], Success(vm), s1)
  }

  /** A VM whose provisioning failed never survives the step: once the
      create and the read-back succeed, the step fails, and unless one of
      the deletes fails, neither the VM nor its OS disk is left behind. */
  lemma FailedVmRemoved(s0: map<Key, Record>, spec: VmSpec, name: string, resourceGroup: string,
                        faults: set<Call>, provision: VmSpec -> Vm)
    requires provision(spec).state == VMStateFailed
    requires Call(CreateOrUpdate, VirtualMachine, name) !in faults && Call(Op.Get, VirtualMachine, name) !in faults
    ensures var run := RunVm(s0, Success(spec), name, resourceGroup, faults, provision);
            && run.result.Failure?
            && run.calls[..3] == [Call(CreateOrUpdate, VirtualMachine, name), Call(Op.Get, VirtualMachine, name),
                                  Call(Op.Delete, VirtualMachine, name)]
            && (Call(Op.Delete, VirtualMachine, name) !in faults && Call(Op.Delete, Disk, OSDiskName(name)) !in faults ==>
                  Key(VirtualMachine, name) !in run.store && Key(Disk, OSDiskName(name)) !in run.store
                  && run.result.error == New("virtual machine " + name + " is deleted, retry creating in next reconcile"))
  {
  }

  /** The VM step touches nothing but the machine's VM and its OS disk. */
  lemma VmRunCalls(s0: map<Key, Record>, prepared: Result<VmSpec, Error>, name: string, resourceGroup: string,
                   faults: set<Call>, provision: VmSpec -> Vm)
    ensures forall c | c in RunVm(s0, prepared, name, resourceGroup, faults, provision).calls ::
              (c.kind == VirtualMachine && c.name == name) || c == Call(Op.Delete, Disk, OSDiskName(name))
  {
    if prepared.Success? {
      var spec := prepared.value;
      var s1 := s0[Key(VirtualMachine, name) := VmRecord(spec, provision(spec))];
      var after := CheckState(s1, provision(spec), name, faults);
    }
  }

  /** reconcileVirtualMachine: prepares the spec, creates the VM, reads it
      back and acts on its provisioning state, as RunVm describes. */
  method ReconcileVirtualMachine(cloud: Cloud, m: MachineInputs, nicName: string) returns (vm: Option<Vm>, err: Option<Error>)
    requires cloud.Valid()
    modifies cloud
    ensures cloud.Valid()
    ensures var run := RunVm(old(cloud.store), PrepareVm(m, nicName), m.name, m.resourceGroup, cloud.faults, cloud.provision);
            && cloud.trace == old(cloud.trace) + run.calls
            && cloud.store == run.store
            && (run.result.Success? ==> vm == Some(run.result.value) && err.None?)
            && (run.result.Failure? ==> vm.None? && err == Some(run.result.error))
  {
    var prepared := PrepareVm(m, nicName);
    if prepared.Failure? {
      return None, Some(prepared.error);
    }
    vm, err := CreateVm(cloud, prepared.value, m.name, m.resourceGroup);
  }

  /** The part of reconcileVirtualMachine after the spec is prepared. */
  method CreateVm(cloud: Cloud, spec: VmSpec, name: string, resourceGroup: string) returns (vm: Option<Vm>, err: Option<Error>)
    requires cloud.Valid()
    modifies cloud
    ensures cloud.Valid()
    ensures var run := RunVm(old(cloud.store), Success(spec), name, resourceGroup, cloud.faults, cloud.provision);
            && cloud.trace == old(cloud.trace) + run.calls
            && cloud.store == run.store
            && (run.result.Success? ==> vm == Some(run.result.value) && err.None?)
            && (run.result.Failure? ==> vm.None? && err == Some(run.result.error))
  {
    var e := Ensure(cloud, VirtualMachine, name, VmRecord(spec, cloud.provision(spec)));
    if e.Some? {
      return None, Some(Wrap(ReconcileVmMsg, e.value));
    }
    var got := cloud.Get(VirtualMachine, name);
    if got.Failure? {
      return None, Some(Wrap("failed to get VM " + name + " in " + resourceGroup, got.error));
    }
    vm, err := RecreateIfFailed(cloud, name, got.value.vm);
  }

  /** The tail of reconcileVirtualMachine, after the read-back: as CheckState
      describes. */
  method RecreateIfFailed(cloud: Cloud, name: string, newVM: Vm) returns (vm: Option<Vm>, err: Option<Error>)
    requires cloud.Valid()
    modifies cloud
    ensures cloud.Valid()
    ensures var run := CheckState(old(cloud.store), newVM, name, cloud.faults);
            && cloud.trace == old(cloud.trace) + run.calls
            && cloud.store == run.store
            && (run.result.Success? ==> vm == Some(run.result.value) && err.None?)
            && (run.result.Failure? ==> vm.None? && err == Some(run.result.error))
  {
    if newVM.state == VMStateFailed {
      var e := Remove(cloud, VirtualMachine, name);
      if e.Some? {
        return None, Some(Wrap(DeleteMachineMsg, e.value));
      }
      e := Remove(cloud, Disk, OSDiskName(name));
      if e.Some? && !IsNotFound(e.value) {
        return None, Some(Wrap("failed to delete OS disk of machine " + name, e.value));
      }
      return None, Some(New("virtual machine " + name + " is deleted, retry creating in next reconcile"));
    } else if newVM.state != VMStateSucceeded {
      return None, Some(New("virtual machine " + name + " is still in provisioning state " + newVM.state + ", reconcile"));
    }
    return Some(newVM), None;
  }

  // ---------------------------------------------------------------------
  // Order of the calls

  /** The two chains of steps: creation and teardown. */
  datatype Chain = Creation | Teardown

  /** The step of `chain` a call belongs to. */
  function Rank(chain: Chain, c: Call): nat {
    match chain
    case Creation => CreateRank(c)
    case Teardown => DeleteRank(c)
  }

  /** The calls of `t` never go back to an earlier step of `chain`. */
  predicate Ordered(t: seq<Call>, chain: Chain) {
    forall i, j | 0 <= i < j < |t| :: Rank(chain, t[i]) <= Rank(chain, t[j])
  }

  /** Appending calls of one step, no earlier than any call so far, keeps a
      trace ordered. */
  lemma OrderedExtend(a: seq<Call>, b: seq<Call>, chain: Chain, r: nat)
    requires Ordered(a, chain) && (forall c | c in a :: Rank(chain, c) <= r)
    requires forall c | c in b :: Rank(chain, c) == r
    ensures Ordered(a + b, chain) && (forall c | c in a + b :: Rank(chain, c) <= r)
  {
    forall i, j | 0 <= i < j < |a + b| ensures Rank(chain, (a + b)[i]) <= Rank(chain, (a + b)[j]) {
      if j < |a| {
        assert (a + b)[i] == a[i] && (a + b)[j] == a[j];
      } else if i < |a| {
        assert (a + b)[i] == a[i] && a[i] in a;
        assert (a + b)[j] == b[j - |a|] && b[j - |a|] in b;
      } else {
        assert (a + b)[i] == b[i - |a|] && b[i - |a|] in b;
        assert (a + b)[j] == b[j - |a|] && b[j - |a|] in b;
      }
    }
  }

  // ---------------------------------------------------------------------
  // The create chain

  /** The steps of azureMachineService.Reconcile, in the order they run. */
  datatype CreateStep = PublicIPsStep | NatRuleStep | NicStep | VmStep | RoleAssignmentStep

  function StepRank(step: CreateStep): nat {
    match step
    case PublicIPsStep => 0
    case NatRuleStep => 1
    case NicStep => 2
    case VmStep => 3
    case RoleAssignmentStep => 4
  }

  /** The create step a provider call belongs to. */
  function CreateRank(c: Call): nat {
    match c.kind
    case PublicIP => 0
    case InboundNatRule => 1
    case NetworkInterface => 2
    case VirtualMachine => 3
    case Disk => 3
    case RoleAssignment => 4
    case _ => 5
  }

  /** The teardown step a provider call belongs to. */
  function DeleteRank(c: Call): nat {
    match c.kind
    case VirtualMachine => 0
    case NetworkInterface => 1
    case InboundNatRule => 2
    case PublicIP => 3
    case Disk => 4
    case _ => 5
  }

  function NatRuleCreate(m: MachineInputs): Call { Call(CreateOrUpdate, InboundNatRule, m.name) }
  function NicCreate(m: MachineInputs): Call { Call(CreateOrUpdate, NetworkInterface, NICName(m.name)) }
  function RoleAssignmentCreate(m: MachineInputs): Call { Call(CreateOrUpdate, RoleAssignment, m.name) }

  /** The store once the public IPs, the NAT rule and the network interface
      are created. */
  function BeforeVm(s0: map<Key, Record>, m: MachineInputs): map<Key, Record> {
    PublicIPs.Created(s0, m.publicIPs, m.location)[Key(InboundNatRule, m.name) := Opaque][Key(NetworkInterface, NICName(m.name)) := Opaque]
  }

  /** The VM step of the create chain started from store `s0`. */
  function VmStepRun(s0: map<Key, Record>, m: MachineInputs, faults: set<Call>, provision: VmSpec -> Vm): VmRun {
    RunVm(BeforeVm(s0, m), PrepareVm(m, NICName(m.name)), m.name, m.resourceGroup, faults, provision)
  }

  /** What azureMachineService.Reconcile does from trace `t0` and store `s0`,
      by the step that failed, when its VM step runs as `run`: each step
      runs only once every earlier step succeeded, the failing step's error
      is wrapped, and nothing after it is called. */
  ghost predicate CreateChain(t0: seq<Call>, trace: seq<Call>, s0: map<Key, Record>, store: map<Key, Record>,
                              faults: set<Call>, m: MachineInputs, run: VmRun,
                              vm: Option<Vm>, err: Option<Error>, failed: Option<CreateStep>)
  {
    var ips := PublicIPs.CreateCalls(m.publicIPs);
    match failed
    case Some(PublicIPsStep) =>
      && vm.None?
      && PublicIPs.CreateStopped(t0, trace, s0, store, faults, m.publicIPs, m.location)
      && err == Some(Wrap(CreatePublicIPsMsg, Wrap("cannot create public IP", Provider(InternalServerError))))
    case Some(NatRuleStep) =>
      && vm.None?
      && trace == t0 + ips + [NatRuleCreate(m)]
      && (forall c | c in ips :: c !in faults) && NatRuleCreate(m) in faults
      && store == PublicIPs.Created(s0, m.publicIPs, m.location)
      && err == Some(Wrap(CreateNatRuleMsg, Provider(InternalServerError)))
    case Some(NicStep) =>
      && vm.None?
      && trace == t0 + ips + [NatRuleCreate(m), NicCreate(m)]
      && (forall c | c in ips + [NatRuleCreate(m)] :: c !in faults) && NicCreate(m) in faults
      && store == PublicIPs.Created(s0, m.publicIPs, m.location)[Key(InboundNatRule, m.name) := Opaque]
      && err == Some(Wrap(CreateNicMsg, Provider(InternalServerError)))
    case Some(VmStep) =>
      && vm.None?
      && trace == t0 + ips + [NatRuleCreate(m), NicCreate(m)] + run.calls
      && (forall c | c in ips + [NatRuleCreate(m), NicCreate(m)] :: c !in faults)
      && run.result.Failure? && store == run.store
      && err == Some(Wrap("failed to create VM " + m.name + " ", run.result.error))
    case Some(RoleAssignmentStep) =>
      && vm.None?
      && trace == t0 + ips + [NatRuleCreate(m), NicCreate(m)] + run.calls + [RoleAssignmentCreate(m)]
      && (forall c | c in ips + [NatRuleCreate(m), NicCreate(m)] :: c !in faults)
      && run.result.Success? && RoleAssignmentCreate(m) in faults && store == run.store
      && err == Some(Wrap(CreateRoleAssignmentMsg, Provider(InternalServerError)))
    case None =>
      && trace == t0 + ips + [NatRuleCreate(m), NicCreate(m)] + run.calls + [RoleAssignmentCreate(m)]
      && (forall c | c in ips + [NatRuleCreate(m), NicCreate(m), RoleAssignmentCreate(m)] :: c !in faults)
      && run.result.Success? && vm == Some(run.result.value) && err.None?
      && store == run.store[Key(RoleAssignment, m.name) := Opaque]
  }

  /** The create chain issues its calls step by step, never going back to
      an earlier step, and a failed step is the last one called; an error
      is returned exactly when a step failed, and a VM exactly when none
      did. The VM step's calls all belong to that step (VmRunCalls). */
  lemma CreateChainOrdered(t0: seq<Call>, trace: seq<Call>, s0: map<Key, Record>, store: map<Key, Record>,
                           faults: set<Call>, m: MachineInputs, run: VmRun,
                           vm: Option<Vm>, err: Option<Error>, failed: Option<CreateStep>)
    requires forall c | c in run.calls :: CreateRank(c) == 3
    requires CreateChain(t0, trace, s0, store, faults, m, run, vm, err, failed)
    ensures Extends(t0, trace)
    ensures Ordered(Since(t0, trace), Creation)
    ensures failed.Some? ==> forall c | c in Since(t0, trace) :: CreateRank(c) <= StepRank(failed.value)
    ensures err.None? <==> failed.None?
    ensures vm.Some? <==> failed.None?
  {
    match failed
    case Some(PublicIPsStep) =>
      PublicIPsStepOrdered(t0, trace, s0, store, faults, m);
    case Some(step) =>
      CreateChainStepOrdered(t0, trace, s0, store, faults, m, run, vm, err, step);
    case None =>
      CreateChainStepOrdered(t0, trace, s0, store, faults, m, run, vm, err, RoleAssignmentStep);
  }

  lemma PublicIPsStepOrdered(t0: seq<Call>, trace: seq<Call>, s0: map<Key, Record>, store: map<Key, Record>,
                              faults: set<Call>, m: MachineInputs)
    requires PublicIPs.CreateStopped(t0, trace, s0, store, faults, m.publicIPs, m.location)
    ensures Extends(t0, trace)
    ensures Ordered(Since(t0, trace), Creation)
    ensures forall c | c in Since(t0, trace) :: CreateRank(c) == 0
  {
    var t := Since(t0, trace);
    PublicIPs.CreateCallsCreatePublicIPs(m.publicIPs[..|t|]);
    OrderedExtend([], t, Creation, 0);
    assert [] + t == t;
  }

  lemma CreateChainStepOrdered(t0: seq<Call>, trace: seq<Call>, s0: map<Key, Record>, store: map<Key, Record>,
                               faults: set<Call>, m: MachineInputs, run: VmRun,
                               vm: Option<Vm>, err: Option<Error>, step: CreateStep)
    requires forall c | c in run.calls :: CreateRank(c) == 3
    requires step != PublicIPsStep
    requires CreateChain(t0, trace, s0, store, faults, m, run, vm, err, Some(step))
             || (step == RoleAssignmentStep && CreateChain(t0, trace, s0, store, faults, m, run, vm, err, None))
    ensures Extends(t0, trace)
    ensures Ordered(Since(t0, trace), Creation)
    ensures forall c | c in Since(t0, trace) :: CreateRank(c) <= StepRank(step)
  {
    var ips := PublicIPs.CreateCalls(m.publicIPs);
    FullCreateChainPrefixes(m, run.calls);
    match step
    case NatRuleStep =>
      CreateChainPrefix(t0, trace, m, run.calls, |ips| + 1, 1);
    case NicStep =>
      CreateChainPrefix(t0, trace, m, run.calls, |ips| + 2, 2);
    case VmStep =>
      CreateChainPrefix(t0, trace, m, run.calls, |ips| + 2 + |run.calls|, if run.calls == [] then 2 else 3);
    case RoleAssignmentStep =>
      CreateChainPrefix(t0, trace, m, run.calls, |ips| + 3 + |run.calls|, 4);
  }

  lemma FullCreateChainPrefixes(m: MachineInputs, vmCalls: seq<Call>)
    ensures var ips := PublicIPs.CreateCalls(m.publicIPs);
            var full := ips + [NatRuleCreate(m), NicCreate(m)] + vmCalls + [RoleAssignmentCreate(m)];
            && full[..|ips| + 1] == ips + [NatRuleCreate(m)]
            && full[..|ips| + 2] == ips + [NatRuleCreate(m), NicCreate(m)]
            && full[..|ips| + 2 + |vmCalls|] == ips + [NatRuleCreate(m), NicCreate(m)] + vmCalls
            && full[..|ips| + 3 + |vmCalls|] == full
  {
  }

  /** A create chain that stops after its first `n` calls. */
  lemma CreateChainPrefix(t0: seq<Call>, trace: seq<Call>, m: MachineInputs, vmCalls: seq<Call>, n: nat, r: nat)
    requires forall c | c in vmCalls :: CreateRank(c) == 3
    requires var ips := PublicIPs.CreateCalls(m.publicIPs);
             && |ips| < n <= |ips| + 3 + |vmCalls|
             && trace == t0 + (ips + [NatRuleCreate(m), NicCreate(m)] + vmCalls + [RoleAssignmentCreate(m)])[..n]
             && (n == |ips| + 1 ==> r == 1)
             && (n == |ips| + 2 ==> r == 2)
             && (|ips| + 2 < n <= |ips| + 2 + |vmCalls| ==> r == 3)
             && (n == |ips| + 3 + |vmCalls| ==> r == 4)
    ensures Extends(t0, trace)
    ensures Ordered(Since(t0, trace), Creation)
    ensures forall c | c in Since(t0, trace) :: CreateRank(c) <= r
  {
    var ips := PublicIPs.CreateCalls(m.publicIPs);
    var full := ips + [NatRuleCreate(m), NicCreate(m)] + vmCalls + [RoleAssignmentCreate(m)];
    FullCreateChainOrdered(m, vmCalls);
    SinceAppend(t0, full[..n]);
    if n <= |ips| + 2 {
      assert full[n - 1] == if n == |ips| + 1 then NatRuleCreate(m) else NicCreate(m);
    } else if n <= |ips| + 2 + |vmCalls| {
      assert full[n - 1] == vmCalls[n - 1 - |ips| - 2] && vmCalls[n - 1 - |ips| - 2] in vmCalls;
    }
    OrderedPrefix(full, Creation, n);
  }

  /** A prefix of an ordered trace is ordered and goes no further than its
      last call. */
  lemma OrderedPrefix(t: seq<Call>, chain: Chain, n: nat)
    requires Ordered(t, chain) && 0 < n <= |t|
    ensures Ordered(t[..n], chain)
    ensures forall c | c in t[..n] :: Rank(chain, c) <= Rank(chain, t[n - 1])
  {
    forall c | c in t[..n] ensures Rank(chain, c) <= Rank(chain, t[n - 1]) {
      var i :| 0 <= i < n && t[..n][i] == c;
      assert t[i] == c;
    }
  }

  /** The calls of a create chain in which no step fails are ordered. */
  lemma FullCreateChainOrdered(m: MachineInputs, vmCalls: seq<Call>)
    requires forall c | c in vmCalls :: CreateRank(c) == 3
    ensures Ordered(PublicIPs.CreateCalls(m.publicIPs) + [NatRuleCreate(m), NicCreate(m)] + vmCalls + [RoleAssignmentCreate(m)], Creation)
  {
    var ips := PublicIPs.CreateCalls(m.publicIPs);
    PublicIPs.CreateCallsCreatePublicIPs(m.publicIPs);
    OrderedExtend([], ips, Creation, 0);
    assert [] + ips == ips;
    OrderedExtend(ips, [NatRuleCreate(m)], Creation, 1);
    OrderedExtend(ips + [NatRuleCreate(m)], [NicCreate(m)], Creation, 2);
    assert ips + [NatRuleCreate(m)] + [NicCreate(m)] == ips + [NatRuleCreate(m), NicCreate(m)];
    OrderedExtend(ips + [NatRuleCreate(m), NicCreate(m)], vmCalls, Creation, 3);
    OrderedExtend(ips + [NatRuleCreate(m), NicCreate(m)] + vmCalls, [RoleAssignmentCreate(m)], Creation, 4);
  }

  lemma PublicIPsStepFailed(t0: seq<Call>, trace: seq<Call>, s0: map<Key, Record>, store: map<Key, Record>,
                            faults: set<Call>, m: MachineInputs, run: VmRun)
    requires PublicIPs.CreateStopped(t0, trace, s0, store, faults, m.publicIPs, m.location)
    ensures CreateChain(t0, trace, s0, store, faults, m, run, None,
                        Some(Wrap(CreatePublicIPsMsg, Wrap("cannot create public IP", Provider(InternalServerError)))),
                        Some(PublicIPsStep))
  {
  }

  lemma NatRuleStepFailed(t0: seq<Call>, trace: seq<Call>, s0: map<Key, Record>, store: map<Key, Record>,
                          faults: set<Call>, m: MachineInputs, run: VmRun)
    requires trace == t0 + PublicIPs.CreateCalls(m.publicIPs) + [NatRuleCreate(m)]
    requires (forall c | c in PublicIPs.CreateCalls(m.publicIPs) :: c !in faults) && NatRuleCreate(m) in faults
    requires store == PublicIPs.Created(s0, m.publicIPs, m.location)
    ensures CreateChain(t0, trace, s0, store, faults, m, run, None,
                        Some(Wrap(CreateNatRuleMsg, Provider(InternalServerError))), Some(NatRuleStep))
  {
  }

  lemma NicStepFailed(t0: seq<Call>, trace: seq<Call>, s0: map<Key, Record>, store: map<Key, Record>,
                      faults: set<Call>, m: MachineInputs, run: VmRun)
    requires trace == t0 + PublicIPs.CreateCalls(m.publicIPs) + [NatRuleCreate(m), NicCreate(m)]
    requires (forall c | c in PublicIPs.CreateCalls(m.publicIPs) + [NatRuleCreate(m)] :: c !in faults) && NicCreate(m) in faults
    requires store == PublicIPs.Created(s0, m.publicIPs, m.location)[Key(InboundNatRule, m.name) := Opaque]
    ensures CreateChain(t0, trace, s0, store, faults, m, run, None,
                        Some(Wrap(CreateNicMsg, Provider(InternalServerError))), Some(NicStep))
  {
  }

  lemma VmStepEnded(t0: seq<Call>, trace: seq<Call>, s0: map<Key, Record>, store: map<Key, Record>,
                    faults: set<Call>, m: MachineInputs, run: VmRun)
    requires trace == t0 + PublicIPs.CreateCalls(m.publicIPs) + [NatRuleCreate(m), NicCreate(m)] + run.calls
    requires forall c | c in PublicIPs.CreateCalls(m.publicIPs) + [NatRuleCreate(m), NicCreate(m)] :: c !in faults
    requires store == run.store && run.result.Failure?
    ensures CreateChain(t0, trace, s0, store, faults, m, run, None,
                        Some(Wrap("failed to create VM " + m.name + " ", run.result.error)), Some(VmStep))
  {
  }

  lemma RoleAssignmentStepEnded(t0: seq<Call>, trace: seq<Call>, s0: map<Key, Record>, store: map<Key, Record>,
                                faults: set<Call>, m: MachineInputs, run: VmRun, failed: bool)
    requires trace == t0 + PublicIPs.CreateCalls(m.publicIPs) + [NatRuleCreate(m), NicCreate(m)] + run.calls + [RoleAssignmentCreate(m)]
    requires forall c | c in PublicIPs.CreateCalls(m.publicIPs) + [NatRuleCreate(m), NicCreate(m)] :: c !in faults
    requires run.result.Success?
    requires failed <==> RoleAssignmentCreate(m) in faults
    requires store == if failed then run.store else run.store[Key(RoleAssignment, m.name) := Opaque]
    ensures failed ==> CreateChain(t0, trace, s0, store, faults, m, run, None,
                                   Some(Wrap(CreateRoleAssignmentMsg, Provider(InternalServerError))),
                                   Some(RoleAssignmentStep))
    ensures !failed ==> CreateChain(t0, trace, s0, store, faults, m, run, Some(run.result.value), None, None)
  {
    if !failed {
      var ips := PublicIPs.CreateCalls(m.publicIPs);
      forall c | c in ips + [NatRuleCreate(m), NicCreate(m), RoleAssignmentCreate(m)] ensures c !in faults {
        if c in ips {
          assert c in ips + [NatRuleCreate(m), NicCreate(m)];
        }
      }
    }
  }

  /** Reconcile: public IPs, the inbound NAT rule, the network interface,
      the VM, then the role assignment, as CreateChain describes. */
  method Reconcile(cloud: Cloud, m: MachineInputs) returns (vm: Option<Vm>, err: Option<Error>, ghost failed: Option<CreateStep>)
    requires cloud.Valid()
    modifies cloud
    ensures cloud.Valid()
    ensures CreateChain(old(cloud.trace), cloud.trace, old(cloud.store), cloud.store, cloud.faults, m,
                        VmStepRun(old(cloud.store), m, cloud.faults, cloud.provision), vm, err, failed)
  {
    ghost var t0 := cloud.trace;
    ghost var s0 := cloud.store;
    ghost var run := VmStepRun(s0, m, cloud.faults, cloud.provision);
    ghost var ips := PublicIPs.CreateCalls(m.publicIPs);
    var e := PublicIPs.Reconcile(cloud, m.location, m.publicIPs);
    if e.Some? {
      PublicIPsStepFailed(t0, cloud.trace, s0, cloud.store, cloud.faults, m, run);
      return None, Some(Wrap(CreatePublicIPsMsg, e.value)), Some(PublicIPsStep);
    }
    SinceSplit(t0, cloud.trace);
    e := Ensure(cloud, InboundNatRule, m.name, Opaque);
    if e.Some? {
      NatRuleStepFailed(t0, cloud.trace, s0, cloud.store, cloud.faults, m, run);
      return None, Some(Wrap(CreateNatRuleMsg, e.value)), Some(NatRuleStep);
    }
    e := Ensure(cloud, NetworkInterface, NICName(m.name), Opaque);
    assert t0 + ips + [NatRuleCreate(m)] + [NicCreate(m)] == t0 + ips + [NatRuleCreate(m), NicCreate(m)];
    if e.Some? {
      NicStepFailed(t0, cloud.trace, s0, cloud.store, cloud.faults, m, run);
      return None, Some(Wrap(CreateNicMsg, e.value)), Some(NicStep);
    }
    vm, err, failed := ReconcileVmAndRoleAssignment(cloud, m, t0, s0);
  }

  /** The last two steps of Reconcile: the VM, then the role assignment. */
  method ReconcileVmAndRoleAssignment(cloud: Cloud, m: MachineInputs, ghost t0: seq<Call>, ghost s0: map<Key, Record>)
    returns (vm: Option<Vm>, err: Option<Error>, ghost failed: Option<CreateStep>)
    requires cloud.Valid()
    requires cloud.trace == t0 + PublicIPs.CreateCalls(m.publicIPs) + [NatRuleCreate(m), NicCreate(m)]
    requires forall c | c in PublicIPs.CreateCalls(m.publicIPs) + [NatRuleCreate(m), NicCreate(m)] :: c !in cloud.faults
    requires cloud.store == BeforeVm(s0, m)
    modifies cloud
    ensures cloud.Valid()
    ensures CreateChain(t0, cloud.trace, s0, cloud.store, cloud.faults, m,
                        VmStepRun(s0, m, cloud.faults, cloud.provision), vm, err, failed)
  {
    ghost var run := VmStepRun(s0, m, cloud.faults, cloud.provision);
    var v, vmErr := ReconcileVirtualMachine(cloud, m, NICName(m.name));
    if vmErr.Some? {
      VmStepEnded(t0, cloud.trace, s0, cloud.store, cloud.faults, m, run);
      return None, Some(Wrap("failed to create VM " + m.name + " ", vmErr.value)), Some(VmStep);
    }
    var e := Ensure(cloud, RoleAssignment, m.name, Opaque);
    RoleAssignmentStepEnded(t0, cloud.trace, s0, cloud.store, cloud.faults, m, run, e.Some?);
    if e.Some? {
      return None, Some(Wrap(CreateRoleAssignmentMsg, e.value)), Some(RoleAssignmentStep);
    }
    return v, None, None;
  }

  // ---------------------------------------------------------------------
  // The teardown chain

  /** The steps of azureMachineService.Delete, in the order they run. */
  datatype DeleteStep = VmDeleteStep | NicDeleteStep | NatRuleDeleteStep | PublicIPsDeleteStep | DiskDeleteStep

  function DeleteStepRank(step: DeleteStep): nat {
    match step
    case VmDeleteStep => 0
    case NicDeleteStep => 1
    case NatRuleDeleteStep => 2
    case PublicIPsDeleteStep => 3
    case DiskDeleteStep => 4
  }

  function VmRemove(m: MachineInputs): Call { Call(Op.Delete, VirtualMachine, m.name) }
  function NicRemove(m: MachineInputs): Call { Call(Op.Delete, NetworkInterface, NICName(m.name)) }
  function NatRuleRemove(m: MachineInputs): Call { Call(Op.Delete, InboundNatRule, m.name) }
  function DiskRemove(m: MachineInputs): Call { Call(Op.Delete, Disk, OSDiskName(m.name)) }

  /** The first three deletes: the VM, its network interface, its NAT rule. */
  function TeardownHead(m: MachineInputs): seq<Call> { [VmRemove(m), NicRemove(m), NatRuleRemove(m)] }

  /** The keys of the resources the first three deletes remove. */
  function HeadKeys(m: MachineInputs): set<Key> {
    {Key(VirtualMachine, m.name), Key(NetworkInterface, NICName(m.name)), Key(InboundNatRule, m.name)}
  }

  /** None of the first three deletes fails. */
  predicate HeadSucceeded(m: MachineInputs, faults: set<Call>) {
    VmRemove(m) !in faults && NicRemove(m) !in faults && NatRuleRemove(m) !in faults
  }

  /** What azureMachineService.Delete does from trace `t0` and store `s0`, by
      the step that failed: the deletes run in order, each only once every
      earlier one succeeded; the failing step's error is wrapped and nothing
      after it is called; a missing resource counts as deleted. */
  ghost predicate DeleteChain(t0: seq<Call>, trace: seq<Call>, s0: map<Key, Record>, store: map<Key, Record>,
                              faults: set<Call>, m: MachineInputs, err: Option<Error>, failed: Option<DeleteStep>)
  {
    var t3 := t0 + TeardownHead(m);
    var s3 := s0 - HeadKeys(m);
    match failed
    case Some(VmDeleteStep) =>
      && trace == t0 + [VmRemove(m)] && VmRemove(m) in faults
      && store == s0
      && err == Some(Wrap(DeleteMachineMsg, Provider(InternalServerError)))
    case Some(NicDeleteStep) =>
      && trace == t0 + [VmRemove(m), NicRemove(m)] && VmRemove(m) !in faults && NicRemove(m) in faults
      && store == s0 - {Key(VirtualMachine, m.name)}
      && err == Some(Wrap(DeleteNicMsg, Provider(InternalServerError)))
    case Some(NatRuleDeleteStep) =>
      && trace == t3 && VmRemove(m) !in faults && NicRemove(m) !in faults && NatRuleRemove(m) in faults
      && store == s0 - {Key(VirtualMachine, m.name), Key(NetworkInterface, NICName(m.name))}
      && err == Some(Wrap(DeleteNatRuleMsg, Provider(InternalServerError)))
    case Some(PublicIPsDeleteStep) =>
      && HeadSucceeded(m, faults)
      && PublicIPs.DeleteStopped(t3, trace, s3, store, faults, m.publicIPs)
      && err == Some(Wrap(DeletePublicIPsMsg,
                          Wrap("failed to delete public IP " + m.publicIPs[|Since(t3, trace)| - 1].name
                               + " in resource group " + m.resourceGroup, Provider(InternalServerError))))
    case Some(DiskDeleteStep) =>
      && HeadSucceeded(m, faults)
      && 0 < |trace| && trace[|trace| - 1] == DiskRemove(m) && DiskRemove(m) in faults
      && PublicIPs.DeleteFinished(t3, trace[..|trace| - 1], s3, store, faults, m.publicIPs)
      && err == Some(Wrap("Failed to delete OS disk of machine " + m.name, Provider(InternalServerError)))
    case None =>
      && HeadSucceeded(m, faults)
      && 0 < |trace| && trace[|trace| - 1] == DiskRemove(m) && DiskRemove(m) !in faults
      && |t3| <= |trace| - 1 <= |t3| + |m.publicIPs|
      && var ipsStore := s3 - PublicIPs.Keys(m.publicIPs[..|trace| - 1 - |t3|]);
      && PublicIPs.DeleteFinished(t3, trace[..|trace| - 1], s3, ipsStore, faults, m.publicIPs)
      && store == ipsStore - {Key(Disk, OSDiskName(m.name))}
      && err.None?
  }

  /** The teardown never goes back to an earlier step, stops at the step
      that failed, and fails exactly when a step failed. */
  lemma DeleteChainOrdered(t0: seq<Call>, trace: seq<Call>, s0: map<Key, Record>, store: map<Key, Record>,
                           faults: set<Call>, m: MachineInputs, err: Option<Error>, failed: Option<DeleteStep>)
    requires DeleteChain(t0, trace, s0, store, faults, m, err, failed)
    ensures Extends(t0, trace) && Ordered(Since(t0, trace), Teardown)
    ensures forall c | c in Since(t0, trace) :: c.op == Op.Delete
    ensures failed.Some? ==> forall c | c in Since(t0, trace) :: DeleteRank(c) <= DeleteStepRank(failed.value)
    ensures err.None? <==> failed.None?
  {
    match failed
    case Some(VmDeleteStep) =>
      SinceAppend(t0, [VmRemove(m)]);
    case Some(NicDeleteStep) =>
      SinceAppend(t0, [VmRemove(m), NicRemove(m)]);
    case Some(NatRuleDeleteStep) =>
      HeadOrdered(m);
      SinceAppend(t0, TeardownHead(m));
    case Some(PublicIPsDeleteStep) =>
      TeardownTailOrdered(t0, trace, m);
    case Some(DiskDeleteStep) =>
      TeardownDiskOrdered(t0, trace, m);
    case None =>
      TeardownDiskOrdered(t0, trace, m);
  }

  lemma HeadOrdered(m: MachineInputs)
    ensures Ordered(TeardownHead(m), Teardown)
    ensures forall c | c in TeardownHead(m) :: c.op == Op.Delete && DeleteRank(c) <= 2
  {
  }

  /** The head of the teardown followed by public IP deletes is ordered. */
  lemma HeadThenPublicIPs(m: MachineInputs, t: seq<Call>)
    requires forall c | c in t :: c.op == Op.Delete && c.kind == PublicIP
    ensures Ordered(TeardownHead(m) + t, Teardown)
    ensures forall c | c in TeardownHead(m) + t :: c.op == Op.Delete && DeleteRank(c) <= 3
  {
    HeadOrdered(m);
    OrderedExtend(TeardownHead(m), t, Teardown, 3);
  }

  /** The head of the teardown, then some of the public IP deletes. */
  lemma TeardownTailOrdered(t0: seq<Call>, trace: seq<Call>, m: MachineInputs)
    requires Extends(t0 + TeardownHead(m), trace)
    requires var t := Since(t0 + TeardownHead(m), trace);
             |t| <= |m.publicIPs| && t == PublicIPs.DeleteCalls(m.publicIPs[..|t|])
    ensures Extends(t0, trace) && Ordered(Since(t0, trace), Teardown)
    ensures forall c | c in Since(t0, trace) :: c.op == Op.Delete && DeleteRank(c) <= 3
  {
    var t := Since(t0 + TeardownHead(m), trace);
    PublicIPs.DeleteCallsDeletePublicIPs(m.publicIPs[..|t|]);
    HeadThenPublicIPs(m, t);
    SinceSplit(t0 + TeardownHead(m), trace);
    assert t0 + TeardownHead(m) + t == t0 + (TeardownHead(m) + t);
    SinceAppend(t0, TeardownHead(m) + t);
  }

  /** The teardown up to the public IPs, then the disk delete. */
  lemma TeardownDiskOrdered(t0: seq<Call>, trace: seq<Call>, m: MachineInputs)
    requires 0 < |trace| && trace[|trace| - 1] == DiskRemove(m)
    requires Extends(t0 + TeardownHead(m), trace[..|trace| - 1])
    requires var t := Since(t0 + TeardownHead(m), trace[..|trace| - 1]);
             |t| <= |m.publicIPs| && t == PublicIPs.DeleteCalls(m.publicIPs[..|t|])
    ensures Extends(t0, trace) && Ordered(Since(t0, trace), Teardown)
    ensures forall c | c in Since(t0, trace) :: c.op == Op.Delete && DeleteRank(c) <= 4
  {
    var before := trace[..|trace| - 1];
    TeardownTailOrdered(t0, before, m);
    OrderedExtend(Since(t0, before), [DiskRemove(m)], Teardown, 4);
    SinceSplit(t0, before);
    assert trace == before + [DiskRemove(m)];
    assert t0 + Since(t0, before) + [DiskRemove(m)] == t0 + (Since(t0, before) + [DiskRemove(m)]);
    SinceAppend(t0, Since(t0, before) + [DiskRemove(m)]);
  }

  /** A teardown where nothing failed removes the VM, its network interface,
      its NAT rule and its OS disk; when every public IP of the machine
      exists and their names are distinct, it removes those too and
      nothing else. */
  lemma TeardownRemovesMachine(t0: seq<Call>, trace: seq<Call>, s0: map<Key, Record>, store: map<Key, Record>,
                               faults: set<Call>, m: MachineInputs, err: Option<Error>)
    requires DeleteChain(t0, trace, s0, store, faults, m, err, None)
    ensures Key(VirtualMachine, m.name) !in store && Key(NetworkInterface, NICName(m.name)) !in store
    ensures Key(InboundNatRule, m.name) !in store && Key(Disk, OSDiskName(m.name)) !in store
    ensures (forall i | 0 <= i < |m.publicIPs| :: Key(PublicIP, m.publicIPs[i].name) in s0)
            && (forall i, j | 0 <= i < j < |m.publicIPs| :: m.publicIPs[i].name != m.publicIPs[j].name)
            ==> store == s0 - (HeadKeys(m) + PublicIPs.Keys(m.publicIPs) + {Key(Disk, OSDiskName(m.name))})
  {
    var t3 := t0 + TeardownHead(m);
    var s3 := s0 - HeadKeys(m);
    var ipsStore := s3 - PublicIPs.Keys(m.publicIPs[..|trace| - 1 - |t3|]);
    if (forall i | 0 <= i < |m.publicIPs| :: Key(PublicIP, m.publicIPs[i].name) in s0)
       && (forall i, j | 0 <= i < j < |m.publicIPs| :: m.publicIPs[i].name != m.publicIPs[j].name) {
      forall i | 0 <= i < |m.publicIPs| ensures Key(PublicIP, m.publicIPs[i].name) in s3 {
        assert Key(PublicIP, m.publicIPs[i].name) !in HeadKeys(m);
      }
      PublicIPs.DeleteFinishedRemovesAll(t3, trace[..|trace| - 1], s3, ipsStore, faults, m.publicIPs);
    }
  }

  /** Delete: the VM, its network interface, its NAT rule, the public IPs,
      then the OS disk, as DeleteChain describes. */
  method Delete(cloud: Cloud, m: MachineInputs) returns (err: Option<Error>, ghost failed: Option<DeleteStep>)
    requires cloud.Valid()
    modifies cloud
    ensures cloud.Valid()
    ensures DeleteChain(old(cloud.trace), cloud.trace, old(cloud.store), cloud.store, cloud.faults, m, err, failed)
  {
    ghost var t0 := cloud.trace;
    ghost var s0 := cloud.store;
    var e := Remove(cloud, VirtualMachine, m.name);
    if e.Some? {
      return Some(Wrap(DeleteMachineMsg, e.value)), Some(VmDeleteStep);
    }
    e := Remove(cloud, NetworkInterface, NICName(m.name));
    if e.Some? {
      return Some(Wrap(DeleteNicMsg, e.value)), Some(NicDeleteStep);
    }
    e := Remove(cloud, InboundNatRule, m.name);
    assert cloud.trace == t0 + TeardownHead(m);
    if e.Some? {
      return Some(Wrap(DeleteNatRuleMsg, e.value)), Some(NatRuleDeleteStep);
    }
    assert cloud.store == s0 - HeadKeys(m);
    err, failed := DeletePublicIPsAndDisk(cloud, m, t0, s0);
  }

  /** The last two steps of Delete: the public IPs, then the OS disk. */
  method DeletePublicIPsAndDisk(cloud: Cloud, m: MachineInputs, ghost t0: seq<Call>, ghost s0: map<Key, Record>)
    returns (err: Option<Error>, ghost failed: Option<DeleteStep>)
    requires cloud.Valid()
    requires cloud.trace == t0 + TeardownHead(m) && cloud.store == s0 - HeadKeys(m)
    requires HeadSucceeded(m, cloud.faults)
    modifies cloud
    ensures cloud.Valid()
    ensures DeleteChain(t0, cloud.trace, s0, cloud.store, cloud.faults, m, err, failed)
  {
    ghost var t3 := cloud.trace;
    ghost var s3 := cloud.store;
    var e := PublicIPs.Delete(cloud, m.resourceGroup, m.publicIPs);
    if e.Some? {
      return Some(Wrap(DeletePublicIPsMsg, e.value)), Some(PublicIPsDeleteStep);
    }
    ghost var tIps := cloud.trace;
    e := Remove(cloud, Disk, OSDiskName(m.name));
    assert cloud.trace[..|cloud.trace| - 1] == tIps;
    if e.Some? {
      return Some(Wrap("Failed to delete OS disk of machine " + m.name, e.value)), Some(DiskDeleteStep);
    }
    return None, None;
  }

  // ---------------------------------------------------------------------
  // Looking up the VM, and the control plane machines

  /** VMIfExists: without an id no call is made and there is no VM; a VM
      the provider does not have is no error; any other failure of the
      read is wrapped. */
  method VMIfExists(cloud: Cloud, name: string, id: Option<string>) returns (vm: Option<Vm>, err: Option<Error>)
    requires cloud.Valid()
    modifies cloud`trace
    ensures id.None? ==> cloud.trace == old(cloud.trace) && vm.None? && err.None?
    ensures id.Some? ==> cloud.trace == old(cloud.trace) + [Call(Op.Get, VirtualMachine, name)]
    ensures id.Some? && Call(Op.Get, VirtualMachine, name) in cloud.faults ==>
              vm.None? && err == Some(Wrap(GetVmMsg, Provider(InternalServerError)))
    ensures id.Some? && Call(Op.Get, VirtualMachine, name) !in cloud.faults ==>
              err.None? && (vm.Some? <==> Key(VirtualMachine, name) in cloud.store)
              && (vm.Some? ==> vm.value == cloud.store[Key(VirtualMachine, name)].vm)
  {
    if id.None? {
      return None, None;
    }
    var got := cloud.Get(VirtualMachine, name);
    if got.Failure? && IsNotFound(got.error) {
      return None, None;
    }
    if got.Failure? {
      return None, Some(Wrap(GetVmMsg, got.error));
    }
    return Some(got.value.vm), None;
  }

  /** A machine of the cluster, reduced to what the control plane test reads. */
  datatype Machine = Machine(name: string, labels: map<string, string>)

  /** The label that marks a control plane machine (cluster-api's
      MachineControlPlaneLabelName). */
  const ControlPlaneLabel := "cluster.x-k8s.io/control-plane"

  /** util.IsControlPlaneMachine: the label is present, whatever its value. */
  predicate IsControlPlaneMachine(machine: Machine) {
    ControlPlaneLabel in machine.labels
  }

  /** The control plane machines of `items`, in their order. */
  function ControlPlane(items: seq<Machine>): (cpm: seq<Machine>)
    ensures |cpm| <= |items|
    ensures forall x | x in cpm :: IsControlPlaneMachine(x) && x in items
  {
    if items == [] then []
    else
      var rest := ControlPlane(items[..|items| - 1]);
      var last := items[|items| - 1];
      if IsControlPlaneMachine(last) then rest + [last] else rest
  }

  /** Every control plane machine of `items` is kept. */
  lemma {:induction false} ControlPlaneKeepsAll(items: seq<Machine>)
    ensures forall x | x in items && IsControlPlaneMachine(x) :: x in ControlPlane(items)
  {
    if items != [] {
      var init := items[..|items| - 1];
      ControlPlaneKeepsAll(init);
      assert items == init + [items[|items| - 1]];
    }
  }

  /** Selecting from a concatenation selects from each part. */
  lemma {:induction false} ControlPlaneAppend(a: seq<Machine>, b: seq<Machine>)
    ensures ControlPlane(a + b) == ControlPlane(a) + ControlPlane(b)
  {
    if b == [] {
      assert a + b == a;
    } else {
      var init := b[..|b| - 1];
      ControlPlaneAppend(a, init);
      assert (a + b)[..|a + b| - 1] == a + init;
    }
  }

  /** Selecting twice selects nothing more. */
  lemma {:induction false} ControlPlaneIdempotent(items: seq<Machine>)
    ensures ControlPlane(ControlPlane(items)) == ControlPlane(items)
  {
    if items != [] {
      var init := items[..|items| - 1];
      var last := items[|items| - 1];
      ControlPlaneIdempotent(init);
      if IsControlPlaneMachine(last) {
        ControlPlaneAppend(ControlPlane(init), [last]);
      }
    }
  }

  /** GetControlPlaneMachines: the labelled machines, in list order. As in
      the source, machines being deleted are not left out. */
  method GetControlPlaneMachines(items: seq<Machine>) returns (cpm: seq<Machine>)
    ensures cpm == ControlPlane(items)
  {
    cpm := [];
    for i := 0 to |items|
      invariant cpm == ControlPlane(items[..i])
    {
      assert items[..i + 1][..i] == items[..i];
      if IsControlPlaneMachine(items[i]) {
        cpm := cpm + [items[i]];
      }
    }
    assert items[..|items|] == items;
  }
}
