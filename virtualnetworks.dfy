/** The virtual network service: adopts an existing virtual network into the
    cluster scope, or creates an owned one, and deletes a managed one. */
module VirtualNetworks {
  import opened Wrappers
  import opened Errors
  import opened Tags
  import opened Resources
  import opened Provider

  /** The spec handed to the service, or a value of any other spec type. */
  datatype Spec =
    | Spec(resourceGroup: string, name: string, cidr: string)
    | OtherSpec

  /** infrav1.VnetSpec: the virtual network as the cluster scope records it. */
  datatype VnetSpec = VnetSpec(resourceGroup: string, id: string, name: string, cidrBlock: string, tags: Tags)

  const InvalidSpec := New("Invalid VNET Specification")

  /** The part of the cluster scope the service reads, and the virtual
      network it fills in. */
  class NetworkScope {
    const clusterName: string
    const location: string
    const additionalTags: Tags
    var vnet: VnetSpec

    constructor (clusterName: string, location: string, additionalTags: Tags, vnet: VnetSpec)
      ensures this.clusterName == clusterName && this.location == location
      ensures this.additionalTags == additionalTags && this.vnet == vnet
    {
      this.clusterName := clusterName;
      this.location := location;
      this.additionalTags := additionalTags;
      this.vnet := vnet;
    }
  }

  /** The address block of a virtual network: its first address prefix, or
      "" when the properties, the address space or the prefixes are absent
      or there are none. */
  function FirstPrefix(v: VirtualNetworkDesc): (cidr: string)
    ensures (v.addressSpace.Some? && v.addressSpace.value.Some? && v.addressSpace.value.value.addressPrefixes.Some?
             && |v.addressSpace.value.value.addressPrefixes.value| > 0)
            ==> cidr == v.addressSpace.value.value.addressPrefixes.value[0]
    ensures !(v.addressSpace.Some? && v.addressSpace.value.Some? && v.addressSpace.value.value.addressPrefixes.Some?
              && |v.addressSpace.value.value.addressPrefixes.value| > 0)
            ==> cidr == ""
  {
    match v.addressSpace
    case Some(Some(AddressSpace(Some(prefixes)))) => if |prefixes| > 0 then prefixes[0] else ""
    case _ => ""
  }

  function StringOrEmpty(s: Option<string>): string {
    match s
    case Some(v) => v
    case None => ""
  }

  /** The scope's record of a virtual network read from the provider. */
  function Observed(resourceGroup: string, v: VirtualNetworkDesc): VnetSpec {
    VnetSpec(resourceGroup, StringOrEmpty(v.id), StringOrEmpty(v.name), FirstPrefix(v), v.tags)
  }

  /** The virtual network Reconcile creates: owned by the cluster, with the
      common role and the spec's name as tags, and the spec's block as its
      only address prefix. */
  function NewVnet(clusterName: string, location: string, additionalTags: Tags, name: string, cidr: string): VirtualNetworkDesc {
    VirtualNetworkDesc(
      None, None, Some(location),
      Build(BuildParams(clusterName, OwnedLifecycle, Some(name), Some(CommonRole), additionalTags)),
      Some(Some(AddressSpace(Some([cidr])))))
  }

  /** Reading back a virtual network Reconcile created gives the spec's
      address block, and tags that make it owned by the cluster, named after
      the spec and in the common role. */
  lemma NewVnetReadBack(clusterName: string, location: string, additionalTags: Tags, rg: string, name: string, cidr: string)
    ensures var seen := Observed(rg, NewVnet(clusterName, location, additionalTags, name, cidr));
            && seen.cidrBlock == cidr && seen.resourceGroup == rg
            && HasOwned(seen.tags, clusterName)
            && seen.tags[NameTagKey] == name && seen.tags[RoleTagKey] == CommonRole
  {
    BuildOwned(BuildParams(clusterName, OwnedLifecycle, Some(name), Some(CommonRole), additionalTags), clusterName);
  }

  /** getExisting: a missing network is reported as the provider's NotFound,
      unwrapped, so that the caller can tell it apart; any other failure is
      wrapped with the network's name. */
  method GetExisting(cloud: Cloud, resourceGroup: string, name: string) returns (r: Result<VnetSpec, Error>)
    requires cloud.Valid()
    modifies cloud`trace
    ensures cloud.trace == old(cloud.trace) + [Call(Op.Get, VirtualNetwork, name)]
    ensures var refusal := cloud.Refusal(Call(Op.Get, VirtualNetwork, name));
            && (refusal == Some(NotFound) ==> r == Failure(Provider(NotFound)))
            && (refusal == Some(InternalServerError) ==>
                  r == Failure(Wrap("failed to get VNet " + name, Provider(InternalServerError))) && !IsNotFound(r.error))
            && (refusal.None? ==> r == Success(Observed(resourceGroup, cloud.store[Key(VirtualNetwork, name)].vnet)))
  {
    var got := cloud.Get(VirtualNetwork, name);
    if got.Failure? {
      if IsNotFound(got.error) {
        return Failure(got.error);
      }
      return Failure(Wrap("failed to get VNet " + name, got.error));
    }
    return Success(Observed(resourceGroup, got.value.vnet));
  }

  /** Reconcile: an existing network, managed or not, is copied into the
      scope and left as it is; a missing one is created. */
  method Reconcile(cloud: Cloud, scope: NetworkScope, spec: Spec) returns (err: Option<Error>)
    requires cloud.Valid()
    modifies cloud, scope
    ensures cloud.Valid()
    ensures !spec.Spec? ==>
              err == Some(InvalidSpec) && cloud.trace == old(cloud.trace) && cloud.store == old(cloud.store)
              && scope.vnet == old(scope.vnet)
    ensures spec.Spec? ==>
              var get := Call(Op.Get, VirtualNetwork, spec.name);
              var create := Call(CreateOrUpdate, VirtualNetwork, spec.name);
              match old(cloud.Refusal(get))
              case None =>
                cloud.trace == old(cloud.trace) + [get] && cloud.store == old(cloud.store) && err.None?
                && scope.vnet == Observed(spec.resourceGroup, old(cloud.store)[Key(VirtualNetwork, spec.name)].vnet)
              case Some(InternalServerError) =>
                cloud.trace == old(cloud.trace) + [get] && cloud.store == old(cloud.store) && scope.vnet == old(scope.vnet)
                && err == Some(Wrap("failed to get VNet", Wrap("failed to get VNet " + spec.name, Provider(InternalServerError))))
              case Some(NotFound) =>
                cloud.trace == old(cloud.trace) + [get, create] && scope.vnet == old(scope.vnet)
                && (create in cloud.faults ==> err == Some(Provider(InternalServerError)) && cloud.store == old(cloud.store))
                && (create !in cloud.faults ==>
                      err.None?
                      && cloud.store == old(cloud.store)[Key(VirtualNetwork, spec.name) :=
                           VnetRecord(NewVnet(scope.clusterName, scope.location, scope.additionalTags, spec.name, spec.cidr))])
  {
    if !spec.Spec? {
      return Some(InvalidSpec);
    }
    var existing := GetExisting(cloud, spec.resourceGroup, spec.name);
    if !(existing.Failure? && IsNotFound(existing.error)) {
      if existing.Failure? {
        return Some(Wrap("failed to get VNet", existing.error));
      }
      scope.vnet := existing.value;
      return None;
    }
    var v := NewVnet(scope.clusterName, scope.location, scope.additionalTags, spec.name, spec.cidr);
    err := cloud.CreateOrUpdate(VirtualNetwork, spec.name, VnetRecord(v));
  }

  /** Delete: nothing happens unless the scope's network is managed by the
      cluster, a check made before the spec is even looked at; a missing
      network counts as deleted. `isManaged` stands for VnetSpec.IsManaged,
      whose code is not part of this model. */
  method Delete(cloud: Cloud, scope: NetworkScope, spec: Spec, isManaged: (VnetSpec, string) -> bool) returns (err: Option<Error>)
    requires cloud.Valid()
    modifies cloud
    ensures cloud.Valid()
    ensures !isManaged(scope.vnet, scope.clusterName) ==>
              err.None? && cloud.trace == old(cloud.trace) && cloud.store == old(cloud.store)
    ensures isManaged(scope.vnet, scope.clusterName) && !spec.Spec? ==>
              err == Some(InvalidSpec) && cloud.trace == old(cloud.trace) && cloud.store == old(cloud.store)
    ensures isManaged(scope.vnet, scope.clusterName) && spec.Spec? ==>
              var del := Call(Op.Delete, VirtualNetwork, spec.name);
              && cloud.trace == old(cloud.trace) + [del]
              && (del in cloud.faults ==>
                    cloud.store == old(cloud.store)
                    && err == Some(Wrap("failed to delete VNet " + spec.name + " in resource group " + spec.resourceGroup,
                                        Provider(InternalServerError))))
              && (del !in cloud.faults ==> err.None? && cloud.store == old(cloud.store) - {Key(VirtualNetwork, spec.name)})
  {
    if !isManaged(scope.vnet, scope.clusterName) {
      return None;
    }
    if !spec.Spec? {
      return Some(InvalidSpec);
    }
    var e := cloud.Delete(VirtualNetwork, spec.name);
    if e.Some? && IsNotFound(e.value) {
      return None;
    }
    if e.Some? {
      return Some(Wrap("failed to delete VNet " + spec.name + " in resource group " + spec.resourceGroup, e.value));
    }
    return None;
  }
}
