/** The resource group service: creates the cluster's resource group when it
    cannot be read, and deletes it only when the cluster owns it. */
module Groups {
  import opened Wrappers
  import opened Errors
  import opened Tags
  import opened Resources
  import opened Provider

  /** What the service reads from its cluster scope. */
  datatype GroupScope = GroupScope(resourceGroup: string, location: string, clusterName: string, additionalTags: Tags)

  /** The group Reconcile creates: in the scope's location, owned by the
      cluster, named after the group and in the common role. */
  function NewGroup(scope: GroupScope): (g: Group)
    ensures g.location == scope.location && HasOwned(g.tags, scope.clusterName)
    ensures NameTagKey in g.tags && g.tags[NameTagKey] == scope.resourceGroup
    ensures RoleTagKey in g.tags && g.tags[RoleTagKey] == CommonRole
  {
    var p := BuildParams(scope.clusterName, OwnedLifecycle, Some(scope.resourceGroup), Some(CommonRole), scope.additionalTags);
    BuildOwned(p, scope.clusterName);
    Group(scope.location, Build(p))
  }

  /** Reconcile: a group that can be read is left alone; any failure to read
      it, not only a missing group, leads to a create, whose error is
      returned as it is. */
  method Reconcile(cloud: Cloud, scope: GroupScope) returns (err: Option<Error>)
    requires cloud.Valid()
    modifies cloud
    ensures cloud.Valid()
    ensures var get := Call(Op.Get, ResourceGroup, scope.resourceGroup);
            old(cloud.Refusal(get)).None? ==>
              cloud.trace == old(cloud.trace) + [get] && cloud.store == old(cloud.store) && err.None?
    ensures var get := Call(Op.Get, ResourceGroup, scope.resourceGroup);
            var create := Call(CreateOrUpdate, ResourceGroup, scope.resourceGroup);
            old(cloud.Refusal(get)).Some? ==>
              && cloud.trace == old(cloud.trace) + [get, create]
              && (create in cloud.faults ==> err == Some(Provider(InternalServerError)) && cloud.store == old(cloud.store))
              && (create !in cloud.faults ==>
                    err.None? && cloud.store == old(cloud.store)[Key(ResourceGroup, scope.resourceGroup) := GroupRecord(NewGroup(scope))])
  {
    var got := cloud.Get(ResourceGroup, scope.resourceGroup);
    if got.Success? {
      return None;
    }
    err := cloud.CreateOrUpdate(ResourceGroup, scope.resourceGroup, GroupRecord(NewGroup(scope)));
  }

  /** isGroupManaged: the group's tags say the cluster owns it; a failed read
      is returned as it is. */
  method IsGroupManaged(cloud: Cloud, scope: GroupScope) returns (r: Result<bool, Error>)
    requires cloud.Valid()
    modifies cloud`trace
    ensures var get := Call(Op.Get, ResourceGroup, scope.resourceGroup);
            && cloud.trace == old(cloud.trace) + [get]
            && (cloud.Refusal(get).Some? ==> r == Failure(Provider(cloud.Refusal(get).value)))
            && (cloud.Refusal(get).None? ==>
                  r == Success(HasOwned(cloud.store[Key(ResourceGroup, scope.resourceGroup)].group.tags, scope.clusterName)))
  {
    var got := cloud.Get(ResourceGroup, scope.resourceGroup);
    if got.Failure? {
      return Failure(got.error);
    }
    return Success(HasOwned(got.value.group.tags, scope.clusterName));
  }

  /** Delete as the code is written: the ownership lookup's error is wrapped
      and returned before the missing-group case is ever looked at, so a
      group that is already gone makes Delete fail. */
  method DeleteAsWritten(cloud: Cloud, scope: GroupScope) returns (err: Option<Error>)
    requires cloud.Valid()
    modifies cloud
    ensures cloud.Valid()
    ensures var get := Call(Op.Get, ResourceGroup, scope.resourceGroup);
            old(cloud.Refusal(get)).Some? ==>
              cloud.trace == old(cloud.trace) + [get] && cloud.store == old(cloud.store)
              && err == Some(Wrap("could not get resource group management state", Provider(old(cloud.Refusal(get)).value)))
    ensures var get := Call(Op.Get, ResourceGroup, scope.resourceGroup);
            var del := Call(Op.Delete, ResourceGroup, scope.resourceGroup);
            old(cloud.Refusal(get)).None? ==>
              var owned := HasOwned(old(cloud.store)[Key(ResourceGroup, scope.resourceGroup)].group.tags, scope.clusterName);
              && (!owned ==> cloud.trace == old(cloud.trace) + [get] && cloud.store == old(cloud.store) && err.None?)
              && (owned ==> cloud.trace == old(cloud.trace) + [get, del])
              && (owned && del in cloud.faults ==>
                    cloud.store == old(cloud.store)
                    && err == Some(Wrap("failed to delete resource group " + scope.resourceGroup, Provider(InternalServerError))))
              && (owned && del !in cloud.faults ==>
                    err.None? && cloud.store == old(cloud.store) - {Key(ResourceGroup, scope.resourceGroup)})
  {
    var managed := IsGroupManaged(cloud, scope);
    if managed.Failure? {
      return Some(Wrap("could not get resource group management state", managed.error));
    }
    if !managed.value {
      return None;
    }
    err := DeleteOwned(cloud, scope);
  }

  /** The delete call itself: a missing group counts as deleted. */
  method DeleteOwned(cloud: Cloud, scope: GroupScope) returns (err: Option<Error>)
    requires cloud.Valid()
    modifies cloud
    ensures cloud.Valid()
    ensures var del := Call(Op.Delete, ResourceGroup, scope.resourceGroup);
            && cloud.trace == old(cloud.trace) + [del]
            && (del in cloud.faults ==>
                  cloud.store == old(cloud.store)
                  && err == Some(Wrap("failed to delete resource group " + scope.resourceGroup, Provider(InternalServerError))))
            && (del !in cloud.faults ==> err.None? && cloud.store == old(cloud.store) - {Key(ResourceGroup, scope.resourceGroup)})
  {
    var e := cloud.Delete(ResourceGroup, scope.resourceGroup);
    if e.Some? && !IsNotFound(e.value) {
      return Some(Wrap("failed to delete resource group " + scope.resourceGroup, e.value));
    }
    return None;
  }

  /** The input that shows the discrepancy: a provider without the group and
      without faults. Deleting the group fails with the ownership lookup's
      NotFound. */
  method AbsentGroupDeleteFails() returns (err: Option<Error>)
    ensures err == Some(Wrap("could not get resource group management state", Provider(NotFound)))
  {
    var cloud := new Cloud(map[], {}, (spec: VmSpec) => Vm("", spec.name, VMStateSucceeded, []));
    err := DeleteAsWritten(cloud, GroupScope("my-rg", "westus", "my-cluster", map[]));
  }

  /** Delete as evidently intended: a group that is already gone counts as
      deleted, as the NotFound case of the delete call itself shows, so
      Delete can be called again after it succeeded. */
  method Delete(cloud: Cloud, scope: GroupScope) returns (err: Option<Error>)
    requires cloud.Valid()
    modifies cloud
    ensures cloud.Valid()
    ensures var get := Call(Op.Get, ResourceGroup, scope.resourceGroup);
            old(cloud.Refusal(get)) == Some(NotFound) ==>
              cloud.trace == old(cloud.trace) + [get] && cloud.store == old(cloud.store) && err.None?
    ensures var get := Call(Op.Get, ResourceGroup, scope.resourceGroup);
            old(cloud.Refusal(get)) == Some(InternalServerError) ==>
              cloud.trace == old(cloud.trace) + [get] && cloud.store == old(cloud.store)
              && err == Some(Wrap("could not get resource group management state", Provider(InternalServerError)))
    ensures var get := Call(Op.Get, ResourceGroup, scope.resourceGroup);
            var del := Call(Op.Delete, ResourceGroup, scope.resourceGroup);
            old(cloud.Refusal(get)).None? ==>
              var owned := HasOwned(old(cloud.store)[Key(ResourceGroup, scope.resourceGroup)].group.tags, scope.clusterName);
              && (!owned ==> cloud.trace == old(cloud.trace) + [get] && cloud.store == old(cloud.store) && err.None?)
              && (owned ==> cloud.trace == old(cloud.trace) + [get, del])
              && (owned && del in cloud.faults ==>
                    cloud.store == old(cloud.store)
                    && err == Some(Wrap("failed to delete resource group " + scope.resourceGroup, Provider(InternalServerError))))
              && (owned && del !in cloud.faults ==>
                    err.None? && cloud.store == old(cloud.store) - {Key(ResourceGroup, scope.resourceGroup)})
  {
    var managed := IsGroupManaged(cloud, scope);
    if managed.Failure? && IsNotFound(managed.error) {
      return None;
    }
    if managed.Failure? {
      return Some(Wrap("could not get resource group management state", managed.error));
    }
    if !managed.value {
      return None;
    }
    err := DeleteOwned(cloud, scope);
  }

  /** With the correction, deleting the group twice in a row without server
      faults succeeds both times, and the group is gone. */
  method DeleteTwice(cloud: Cloud, scope: GroupScope) returns (first: Option<Error>, second: Option<Error>)
    requires cloud.Valid()
    requires cloud.faults == {}
    modifies cloud
    ensures first.None? && second.None?
    ensures var k := Key(ResourceGroup, scope.resourceGroup);
            k in old(cloud.store) && HasOwned(old(cloud.store)[k].group.tags, scope.clusterName) ==> k !in cloud.store
  {
    first := Delete(cloud, scope);
    second := Delete(cloud, scope);
  }
}
