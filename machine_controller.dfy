/** The AzureMachine controller: the status state machine of one
    AzureMachine object. A reconcile either tears the machine down (when a
    deletion timestamp is set) or brings it up: it registers the finalizer,
    waits for the cluster infrastructure and the bootstrap data, finds or
    creates the VM and records what the VM reports. */
module MachineController {
  import opened Wrappers
  import opened Errors
  import opened Resources
  import opened Provider
  import MR = MachineReconciler

  /** infrav1.MachineFinalizer. */
  const MachineFinalizer := "azuremachine.infrastructure.cluster.x-k8s.io"

  /** capierrors.UpdateMachineError. */
  const UpdateMachineError := "UpdateError"

  /** The annotation every reconciled AzureMachine carries. */
  const ProviderAnnotation := "cluster-api-provider-azure"

  // ---------------------------------------------------------------------
  // Finalizers (controllerutil, not part of this model)

  /** controllerutil.AddFinalizer: appends the finalizer unless present. */
  function AddFinalizer(fs: seq<string>, f: string): (r: seq<string>)
    ensures f in r
    ensures forall x | x in r :: x in fs || x == f
    ensures forall x | x in fs :: x in r
    ensures f in fs ==> r == fs
    ensures |fs| <= |r| && r[..|fs|] == fs
  {
    if f in fs then fs else fs + [f]
  }

  /** controllerutil.RemoveFinalizer: drops every occurrence, keeping the
      order of the others. */
  function RemoveFinalizer(fs: seq<string>, f: string): (r: seq<string>)
    ensures f !in r
    ensures forall x | x in r :: x in fs
    ensures forall x | x in fs && x != f :: x in r
    ensures |r| <= |fs|
  {
    if fs == [] then []
    else if fs[0] == f then RemoveFinalizer(fs[1..], f)
    else [fs[0]] + RemoveFinalizer(fs[1..], f)
  }

  /** Removing a finalizer that is not there changes nothing. */
  lemma {:induction false} RemoveAbsentFinalizer(fs: seq<string>, f: string)
    requires f !in fs
    ensures RemoveFinalizer(fs, f) == fs
  {
    if fs != [] {
      RemoveAbsentFinalizer(fs[1..], f);
      assert fs == [fs[0]] + fs[1..];
    }
  }

  /** Removing what was just added restores the original list. */
  lemma {:induction false} RemoveUndoesAdd(fs: seq<string>, f: string)
    requires f !in fs
    ensures RemoveFinalizer(AddFinalizer(fs, f), f) == fs
  {
    if fs == [] {
    } else {
      RemoveUndoesAdd(fs[1..], f);
      assert (fs + [f])[1..] == fs[1..] + [f];
      assert fs == [fs[0]] + fs[1..];
    }
  }

  // ---------------------------------------------------------------------
  // The AzureMachine object

  /** The fields of an AzureMachine that the controller reads or writes. */
  datatype MachineState = MachineState(
    finalizers: seq<string>,
    deleting: bool,                        // a deletion timestamp is set
    failureDomain: Option<string>,         // Spec.FailureDomain
    availabilityZoneId: Option<string>,    // the deprecated Spec.AvailabilityZone.ID
    providerID: Option<string>,
    annotations: map<string, string>,
    addresses: seq<Address>,
    vmState: Option<VMState>,
    ready: bool,
    failureReason: Option<string>,
    failureMessage: Option<string>)

  /** What a VM's provisioning state means for the machine. */
  datatype Readiness = Ready | NotReady | FailedState(message: string)

  function StateReadiness(state: VMState): Readiness {
    if state == VMStateSucceeded then Ready
    else if state == VMStateCreating || state == VMStateUpdating || state == VMStateDeleting then NotReady
    else if state == VMStateFailed then FailedState("Azure VM state is " + state)
    else FailedState("Azure VM state \"" + state + "\" is undefined")
  }

  /** The machine once the VM it runs on has been observed. */
  function Observe(st: MachineState, vm: Vm): MachineState {
    var seen := st.(providerID := Some("azure:///" + vm.id),
                    annotations := st.annotations[ProviderAnnotation := "true"],
                    addresses := vm.addresses,
                    vmState := Some(vm.state));
    match StateReadiness(vm.state)
    case Ready => seen.(ready := true)
    case NotReady => seen.(ready := false)
    case FailedState(message) =>
      seen.(ready := false, failureReason := Some(UpdateMachineError), failureMessage := Some(message))
  }

  /** What observing a VM records: the provider ID, the annotation, the
      addresses and the state always; ready exactly when the VM succeeded;
      a failure exactly for Failed and for states the controller does not
      know. The finalizers and the failure domain are left alone. */
  lemma ObserveStatus(st: MachineState, vm: Vm)
    ensures var r := Observe(st, vm);
      && r.providerID == Some("azure:///" + vm.id)
      && r.annotations == st.annotations[ProviderAnnotation := "true"]
      && r.addresses == vm.addresses && r.vmState == Some(vm.state)
      && (r.ready <==> vm.state == VMStateSucceeded)
      && r.finalizers == st.finalizers && r.failureDomain == st.failureDomain && r.deleting == st.deleting
      && (vm.state in {VMStateSucceeded, VMStateCreating, VMStateUpdating, VMStateDeleting} ==>
            r.failureReason == st.failureReason && r.failureMessage == st.failureMessage)
      && (vm.state == VMStateFailed ==>
            r.failureReason == Some(UpdateMachineError) && r.failureMessage == Some("Azure VM state is Failed"))
      && (vm.state !in {VMStateSucceeded, VMStateCreating, VMStateUpdating, VMStateDeleting, VMStateFailed} ==>
            r.failureReason == Some(UpdateMachineError)
            && r.failureMessage == Some("Azure VM state \"" + vm.state + "\" is undefined"))
  {
    if vm.state == VMStateFailed {
      assert "Azure VM state is " + vm.state == "Azure VM state is Failed";
    }
  }

  /** The deprecated zone ID fills the failure domain only when that is unset. */
  function MigrateFailureDomain(failureDomain: Option<string>, availabilityZoneId: Option<string>): (r: Option<string>)
    ensures failureDomain.Some? ==> r == failureDomain
    ensures failureDomain.None? ==> r == availabilityZoneId
  {
    if availabilityZoneId.Some? && failureDomain.None? then availabilityZoneId else failureDomain
  }

  class AzureMachine {
    var finalizers: seq<string>
    var deleting: bool
    var failureDomain: Option<string>
    var availabilityZoneId: Option<string>
    var providerID: Option<string>
    var annotations: map<string, string>
    var addresses: seq<Address>
    var vmState: Option<VMState>
    var ready: bool
    var failureReason: Option<string>
    var failureMessage: Option<string>

    function State(): MachineState
      reads this
    {
      MachineState(finalizers, deleting, failureDomain, availabilityZoneId, providerID, annotations,
                   addresses, vmState, ready, failureReason, failureMessage)
    }

    constructor (st: MachineState)
      ensures State() == st
    {
      finalizers := st.finalizers;
      deleting := st.deleting;
      failureDomain := st.failureDomain;
      availabilityZoneId := st.availabilityZoneId;
      providerID := st.providerID;
      annotations := st.annotations;
      addresses := st.addresses;
      vmState := st.vmState;
      ready := st.ready;
      failureReason := st.failureReason;
      failureMessage := st.failureMessage;
    }

    /** The part of reconcileNormal after the VM is found or created: the
        provider ID, the annotation, the addresses, the state, and the
        switch on the state. */
    method ObserveVm(vm: Vm)
      modifies this
      ensures State() == Observe(old(State()), vm)
    {
      providerID := Some("azure:///" + vm.id);
      annotations := annotations[ProviderAnnotation := "true"];
      addresses := vm.addresses;
      vmState := Some(vm.state);
      if vm.state == VMStateSucceeded {
        ready := true;
      } else if vm.state == VMStateCreating || vm.state == VMStateUpdating || vm.state == VMStateDeleting {
        ready := false;
      } else if vm.state == VMStateFailed {
        ready := false;
        failureReason := Some(UpdateMachineError);
        failureMessage := Some("Azure VM state is " + vm.state);
      } else {
        ready := false;
        failureReason := Some(UpdateMachineError);
        failureMessage := Some("Azure VM state \"" + vm.state + "\" is undefined");
      }
    }
  }

  // ---------------------------------------------------------------------
  // Finding or creating the VM

  /** What getOrCreate produced: the VM and error it returns, and, when it
      ran the create chain, the step that failed and the chain's own error. */
  datatype Lookup = Lookup(vm: Option<Vm>, err: Option<Error>, failed: Option<MR.CreateStep>, inner: Option<Error>)

  /** What getOrCreate does from trace `t0` and store `s0`: a failed lookup
      is returned wrapped and nothing is created; a VM that exists is
      returned and nothing is created; otherwise the create chain runs and
      its error is wrapped. */
  ghost predicate GetOrCreateRun(t0: seq<Call>, trace: seq<Call>, s0: map<Key, Record>, store: map<Key, Record>,
                                 faults: set<Call>, provision: VmSpec -> Vm, m: MR.MachineInputs, id: Option<string>,
                                 o: Lookup)
  {
    var get := Call(Op.Get, VirtualMachine, m.name);
    var key := Key(VirtualMachine, m.name);
    if id.Some? && get in faults then
      && trace == t0 + [get] && store == s0 && o.vm.None?
      && o.err == Some(Wrap("failed to query AzureMachine VM", Wrap("Failed to get VM", Provider(InternalServerError))))
    else if id.Some? && key in s0 then
      trace == t0 + [get] && store == s0 && s0[key].VmRecord? && o.vm == Some(s0[key].vm) && o.err.None?
    else
      var t1 := if id.Some? then t0 + [get] else t0;
      && MR.CreateChain(t1, trace, s0, store, faults, m, MR.VmStepRun(s0, m, faults, provision), o.vm, o.inner, o.failed)
      && o.err == (if o.inner.None? then None else Some(Wrap("failed to reconcile AzureMachine", o.inner.value)))
  }

  /** getOrCreate returns a VM exactly when it returns no error, and creates
      something only when the lookup found no VM; the creation then runs
      in step order and makes no call of a step after the one that failed. */
  lemma GetOrCreateOutcome(t0: seq<Call>, trace: seq<Call>, s0: map<Key, Record>, store: map<Key, Record>,
                           faults: set<Call>, provision: VmSpec -> Vm, m: MR.MachineInputs, id: Option<string>, o: Lookup)
    requires GetOrCreateRun(t0, trace, s0, store, faults, provision, m, id, o)
    ensures o.vm.Some? <==> o.err.None?
    ensures id.Some? && (Call(Op.Get, VirtualMachine, m.name) in faults || Key(VirtualMachine, m.name) in s0) ==>
              trace == t0 + [Call(Op.Get, VirtualMachine, m.name)] && store == s0
    ensures var t1 := if id.Some? then t0 + [Call(Op.Get, VirtualMachine, m.name)] else t0;
            !(id.Some? && (Call(Op.Get, VirtualMachine, m.name) in faults || Key(VirtualMachine, m.name) in s0)) ==>
              && Extends(t1, trace) && MR.Ordered(Since(t1, trace), MR.Creation)
              && (o.failed.Some? ==> forall c | c in Since(t1, trace) :: MR.CreateRank(c) <= MR.StepRank(o.failed.value))
  {
    var get := Call(Op.Get, VirtualMachine, m.name);
    if !(id.Some? && get in faults) && !(id.Some? && Key(VirtualMachine, m.name) in s0) {
      var t1 := if id.Some? then t0 + [get] else t0;
      MR.VmRunCalls(MR.BeforeVm(s0, m), MR.PrepareVm(m, MR.NICName(m.name)), m.name, m.resourceGroup, faults, provision);
      MR.CreateChainOrdered(t1, trace, s0, store, faults, m, MR.VmStepRun(s0, m, faults, provision), o.vm, o.inner, o.failed);
    }
  }

  /** findVM: VMIfExists, its error wrapped. */
  method FindVm(cloud: Cloud, name: string, id: Option<string>) returns (vm: Option<Vm>, err: Option<Error>)
    requires cloud.Valid()
    modifies cloud`trace
    ensures id.None? ==> cloud.trace == old(cloud.trace) && vm.None? && err.None?
    ensures id.Some? ==> cloud.trace == old(cloud.trace) + [Call(Op.Get, VirtualMachine, name)]
    ensures id.Some? && Call(Op.Get, VirtualMachine, name) in cloud.faults ==>
              vm.None? && err == Some(Wrap("failed to query AzureMachine VM", Wrap("Failed to get VM", Provider(InternalServerError))))
    ensures id.Some? && Call(Op.Get, VirtualMachine, name) !in cloud.faults ==>
              err.None? && (vm.Some? <==> Key(VirtualMachine, name) in cloud.store)
              && (vm.Some? ==> vm.value == cloud.store[Key(VirtualMachine, name)].vm)
  {
    vm, err := MR.VMIfExists(cloud, name, id);
    if err.Some? {
      return None, Some(Wrap("failed to query AzureMachine VM", err.value));
    }
  }

  /** getOrCreate: find the VM, and run the create chain only when there is none. */
  method GetOrCreate(cloud: Cloud, m: MR.MachineInputs, id: Option<string>)
    returns (vm: Option<Vm>, err: Option<Error>, ghost failed: Option<MR.CreateStep>, ghost inner: Option<Error>)
    requires cloud.Valid()
    modifies cloud
    ensures cloud.Valid()
    ensures GetOrCreateRun(old(cloud.trace), cloud.trace, old(cloud.store), cloud.store, cloud.faults, cloud.provision,
                           m, id, Lookup(vm, err, failed, inner))
  {
    failed, inner := None, None;
    vm, err := FindVm(cloud, m.name, id);
    if err.Some? {
      return;
    }
    if vm.None? {
      var e;
      vm, e, failed := MR.Reconcile(cloud, m);
      inner := e;
      if e.Some? {
        err := Some(Wrap("failed to reconcile AzureMachine", e.value));
      }
    }
  }

  // ---------------------------------------------------------------------
  // reconcileNormal

  /** What reconcileNormal learns from outside this model: the outcome of
      patching the object, whether the cluster infrastructure is ready, the
      bootstrap data secret's name, and the outcome of reconciling tags. */
  datatype Gates = Gates(patchError: Option<Error>, infrastructureReady: bool,
                         dataSecretName: Option<string>, tagsError: Option<Error>)

  /** Where reconcileNormal returned. */
  datatype NormalExit =
    | InFailureState | PatchFailed | InfrastructureNotReady | BootstrapDataNotReady
    | GetOrCreateFailed | TagsFailed | Reconciled

  /** The machine with the finalizer registered and the deprecated zone
      migrated, as reconcileNormal has it when it looks for the VM. */
  function Prepared(st: MachineState): MachineState {
    st.(finalizers := AddFinalizer(st.finalizers, MachineFinalizer),
        failureDomain := MigrateFailureDomain(st.failureDomain, st.availabilityZoneId))
  }

  /** What reconcileNormal does to the machine `before` and the provider,
      by where it returned: a machine in a failure state is left alone; the
      finalizer is registered before the gates are looked at; an unmet gate
      returns without touching the provider; past the gates the VM is found
      or created (the lookup uses the provider ID) and, once there is one,
      observed. */
  ghost predicate NormalRun(before: MachineState, after: MachineState,
                            t0: seq<Call>, trace: seq<Call>, s0: map<Key, Record>, store: map<Key, Record>,
                            faults: set<Call>, provision: VmSpec -> Vm, m: MR.MachineInputs, g: Gates,
                            err: Option<Error>, exit: NormalExit, o: Lookup)
  {
    var inFailure := before.failureReason.Some? || before.failureMessage.Some?;
    var registered := before.(finalizers := AddFinalizer(before.finalizers, MachineFinalizer));
    var gated := !inFailure && g.patchError.None? && g.infrastructureReady && g.dataSecretName.Some?;
    match exit
    case InFailureState =>
      inFailure && after == before && trace == t0 && store == s0 && err.None?
    case PatchFailed =>
      !inFailure && g.patchError.Some?
      && after == registered && trace == t0 && store == s0 && err == g.patchError
    case InfrastructureNotReady =>
      !inFailure && g.patchError.None? && !g.infrastructureReady
      && after == registered && trace == t0 && store == s0 && err.None?
    case BootstrapDataNotReady =>
      !inFailure && g.patchError.None? && g.infrastructureReady && g.dataSecretName.None?
      && after == registered && trace == t0 && store == s0 && err.None?
    case GetOrCreateFailed =>
      gated && GetOrCreateRun(t0, trace, s0, store, faults, provision, m, before.providerID, o)
      && o.err.Some? && err == o.err && after == Prepared(before)
    case TagsFailed =>
      gated && GetOrCreateRun(t0, trace, s0, store, faults, provision, m, before.providerID, o)
      && o.err.None? && o.vm.Some? && after == Observe(Prepared(before), o.vm.value)
      && g.tagsError.Some? && err == Some(New("failed to ensure tags: " + Text(g.tagsError.value)))
    case Reconciled =>
      gated && GetOrCreateRun(t0, trace, s0, store, faults, provision, m, before.providerID, o)
      && o.err.None? && o.vm.Some? && after == Observe(Prepared(before), o.vm.value)
      && g.tagsError.None? && err.None?
  }

  /** The guarantees of reconcileNormal: a machine in a failure state is
      skipped; otherwise the finalizer is registered whatever happens next;
      nothing reaches the provider unless the patch succeeded and both gates
      are met; an existing failure domain is never overwritten; and a
      machine whose VM was found or created carries its provider ID. */
  lemma NormalRunGuarantees(before: MachineState, after: MachineState,
                            t0: seq<Call>, trace: seq<Call>, s0: map<Key, Record>, store: map<Key, Record>,
                            faults: set<Call>, provision: VmSpec -> Vm, m: MR.MachineInputs, g: Gates,
                            err: Option<Error>, exit: NormalExit, o: Lookup)
    requires NormalRun(before, after, t0, trace, s0, store, faults, provision, m, g, err, exit, o)
    ensures exit == InFailureState <==> before.failureReason.Some? || before.failureMessage.Some?
    ensures exit != InFailureState ==> MachineFinalizer in after.finalizers
    ensures trace != t0 ==> g.patchError.None? && g.infrastructureReady && g.dataSecretName.Some?
    ensures before.failureDomain.Some? ==> after.failureDomain == before.failureDomain
    ensures exit == TagsFailed || exit == Reconciled ==>
              after.providerID == Some("azure:///" + o.vm.value.id) && after.vmState == Some(o.vm.value.state)
  {
    if exit == TagsFailed || exit == Reconciled {
      ObserveStatus(Prepared(before), o.vm.value);
    }
  }

  /** reconcileNormal, as NormalRun describes. */
  method ReconcileNormal(machine: AzureMachine, cloud: Cloud, m: MR.MachineInputs, g: Gates)
    returns (err: Option<Error>, ghost exit: NormalExit, ghost o: Lookup)
    requires cloud.Valid()
    modifies machine, cloud
    ensures cloud.Valid()
    ensures NormalRun(old(machine.State()), machine.State(), old(cloud.trace), cloud.trace, old(cloud.store), cloud.store,
                      cloud.faults, cloud.provision, m, g, err, exit, o)
  {
    o := Lookup(None, None, None, None);
    if machine.failureReason.Some? || machine.failureMessage.Some? {
      return None, InFailureState, o;
    }
    machine.finalizers := AddFinalizer(machine.finalizers, MachineFinalizer);
    if g.patchError.Some? {
      return g.patchError, PatchFailed, o;
    }
    if !g.infrastructureReady {
      return None, InfrastructureNotReady, o;
    }
    if g.dataSecretName.None? {
      return None, BootstrapDataNotReady, o;
    }
    if machine.availabilityZoneId.Some? {
      if machine.failureDomain.None? {
        machine.failureDomain := machine.availabilityZoneId;
      }
    }
    err, exit, o := ReconcileVm(machine, cloud, m, g, old(machine.State()));
  }

  /** The part of reconcileNormal past the gates: get or create the VM,
      observe it, reconcile the tags. */
  method ReconcileVm(machine: AzureMachine, cloud: Cloud, m: MR.MachineInputs, g: Gates, ghost before: MachineState)
    returns (err: Option<Error>, ghost exit: NormalExit, ghost o: Lookup)
    requires cloud.Valid()
    requires before.failureReason.None? && before.failureMessage.None?
    requires g.patchError.None? && g.infrastructureReady && g.dataSecretName.Some?
    requires machine.State() == Prepared(before)
    modifies machine, cloud
    ensures cloud.Valid()
    ensures NormalRun(before, machine.State(), old(cloud.trace), cloud.trace, old(cloud.store), cloud.store,
                      cloud.faults, cloud.provision, m, g, err, exit, o)
  {
    ghost var t0 := cloud.trace;
    ghost var s0 := cloud.store;
    var vm, e, failed, inner := GetOrCreate(cloud, m, machine.providerID);
    o := Lookup(vm, e, failed, inner);
    if e.Some? {
      return e, GetOrCreateFailed, o;
    }
    GetOrCreateOutcome(t0, cloud.trace, s0, cloud.store, cloud.faults, cloud.provision, m, machine.providerID, o);
    machine.ObserveVm(vm.value);
    if g.tagsError.Some? {
      return Some(New("failed to ensure tags: " + Text(g.tagsError.value))), TagsFailed, o;
    }
    return None, Reconciled, o;
  }

  // ---------------------------------------------------------------------
  // reconcileDelete and the dispatch

  /** What reconcileDelete does: the teardown chain runs; its error is
      wrapped with the cluster's namespace and name and the finalizer stays;
      without an error the finalizer is removed. */
  ghost predicate DeleteRun(before: MachineState, after: MachineState,
                            t0: seq<Call>, trace: seq<Call>, s0: map<Key, Record>, store: map<Key, Record>,
                            faults: set<Call>, m: MR.MachineInputs, namespace: string, clusterName: string,
                            err: Option<Error>, failed: Option<MR.DeleteStep>, inner: Option<Error>)
  {
    && MR.DeleteChain(t0, trace, s0, store, faults, m, inner, failed)
    && (inner.Some? ==>
          after == before && err == Some(Wrap("error deleting AzureCluster " + namespace + "/" + clusterName, inner.value)))
    && (inner.None? ==>
          after == before.(finalizers := RemoveFinalizer(before.finalizers, MachineFinalizer)) && err.None?)
  }

  /** The finalizer goes exactly when every teardown step succeeded. */
  lemma DeleteRunFinalizer(before: MachineState, after: MachineState,
                           t0: seq<Call>, trace: seq<Call>, s0: map<Key, Record>, store: map<Key, Record>,
                           faults: set<Call>, m: MR.MachineInputs, namespace: string, clusterName: string,
                           err: Option<Error>, failed: Option<MR.DeleteStep>, inner: Option<Error>)
    requires DeleteRun(before, after, t0, trace, s0, store, faults, m, namespace, clusterName, err, failed, inner)
    ensures err.None? <==> failed.None?
    ensures failed.None? ==> MachineFinalizer !in after.finalizers
    ensures failed.Some? ==> after == before
  {
    MR.DeleteChainOrdered(t0, trace, s0, store, faults, m, inner, failed);
  }

  /** reconcileDelete, as DeleteRun describes. */
  method ReconcileDelete(machine: AzureMachine, cloud: Cloud, m: MR.MachineInputs, namespace: string, clusterName: string)
    returns (err: Option<Error>, ghost failed: Option<MR.DeleteStep>, ghost inner: Option<Error>)
    requires cloud.Valid()
    modifies machine, cloud
    ensures cloud.Valid()
    ensures DeleteRun(old(machine.State()), machine.State(), old(cloud.trace), cloud.trace, old(cloud.store), cloud.store,
                      cloud.faults, m, namespace, clusterName, err, failed, inner)
  {
    var e;
    e, failed := MR.Delete(cloud, m);
    inner := e;
    if e.Some? {
      return Some(Wrap("error deleting AzureCluster " + namespace + "/" + clusterName, e.value)), failed, inner;
    }
    machine.finalizers := RemoveFinalizer(machine.finalizers, MachineFinalizer);
    err := None;
  }

  /** Which branch Reconcile took, and what that branch reported. */
  datatype Route =
    | Deleted(failed: Option<MR.DeleteStep>, inner: Option<Error>)
    | Normal(exit: NormalExit, lookup: Lookup)

  /** The tail of AzureMachineReconciler.Reconcile: a machine with a
      deletion timestamp is torn down, any other is reconciled. */
  method Reconcile(machine: AzureMachine, cloud: Cloud, m: MR.MachineInputs, g: Gates, namespace: string, clusterName: string)
    returns (err: Option<Error>, ghost route: Route)
    requires cloud.Valid()
    modifies machine, cloud
    ensures cloud.Valid()
    ensures old(machine.deleting) ==>
              route.Deleted?
              && DeleteRun(old(machine.State()), machine.State(), old(cloud.trace), cloud.trace, old(cloud.store), cloud.store,
                           cloud.faults, m, namespace, clusterName, err, route.failed, route.inner)
    ensures !old(machine.deleting) ==>
              route.Normal?
              && NormalRun(old(machine.State()), machine.State(), old(cloud.trace), cloud.trace, old(cloud.store), cloud.store,
                           cloud.faults, cloud.provision, m, g, err, route.exit, route.lookup)
  {
    if machine.deleting {
      ghost var failed, inner;
      err, failed, inner := ReconcileDelete(machine, cloud, m, namespace, clusterName);
      route := Deleted(failed, inner);
    } else {
      ghost var exit, o;
      err, exit, o := ReconcileNormal(machine, cloud, m, g);
      route := Normal(exit, o);
    }
  }
}
