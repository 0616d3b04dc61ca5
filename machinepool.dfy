/** The machine pool scope: the state a machine pool reconcile works on, the
    checks made when it is created, and the updates it makes to the
    AzureMachinePool object. */
module MachinePool {
  import opened Wrappers
  import opened Errors
  import opened Tags
  import Base64

  /** The AzureMachinePool object: metadata, the spec fields the scope reads
      and the status fields it writes. Annotations may be nil (None). */
  class AzureMachinePool {
    const name: string
    const namespace: string
    const additionalTags: Tags
    var annotations: Option<map<string, string>>
    var ready: bool
    var failureMessage: Option<string>
    var failureReason: Option<string>

    constructor (name: string, namespace: string, additionalTags: Tags, annotations: Option<map<string, string>>)
      ensures this.name == name && this.namespace == namespace && this.additionalTags == additionalTags
      ensures this.annotations == annotations
      ensures !ready && failureMessage.None? && failureReason.None?
    {
      this.name := name;
      this.namespace := namespace;
      this.additionalTags := additionalTags;
      this.annotations := annotations;
      ready := false;
      failureMessage := None;
      failureReason := None;
    }
  }

  /** The machine pool's bootstrap reference: the name of the secret holding
      the bootstrap data, which may be nil. */
  datatype CapiMachinePool = CapiMachinePool(dataSecretName: Option<string>)

  /** What the scope reads from the cluster scope. */
  datatype ClusterInfo = ClusterInfo(clusterName: string, resourceGroup: string, location: string, additionalTags: Tags)

  datatype NamespacedName = NamespacedName(namespace: string, name: string)

  /** The Kubernetes client, reduced to reading a secret's data. */
  datatype KubeClient = KubeClient(getSecret: NamespacedName -> Result<map<string, seq<Base64.byte>>, Error>)

  /** The constructor's inputs; an absent client, machine pool or
      AzureMachinePool is nil. Building the patch helper is not modelled: its
      outcome is an input. */
  datatype MachinePoolScopeParams = MachinePoolScopeParams(
    client: Option<KubeClient>,
    machinePool: Option<CapiMachinePool>,
    azureMachinePool: AzureMachinePool?,
    cluster: ClusterInfo,
    patchHelperError: Option<Error>)

  const ClientRequired := New("client is required when creating a MachinePoolScope")
  const MachinePoolRequired := New("machine pool is required when creating a MachinePoolScope")
  const AzureMachinePoolRequired := New("azure machine pool is required when creating a MachinePoolScope")
  const NoDataSecretName := New("error retrieving bootstrap data: linked Machine Spec's bootstrap.dataSecretName is nil")
  const NoSecretValue := New("error retrieving bootstrap data: secret value key is missing")

  class MachinePoolScope {
    const client: KubeClient
    const machinePool: CapiMachinePool
    const azureMachinePool: AzureMachinePool
    const cluster: ClusterInfo

    constructor (client: KubeClient, machinePool: CapiMachinePool, azureMachinePool: AzureMachinePool, cluster: ClusterInfo)
      ensures this.client == client && this.machinePool == machinePool
      ensures this.azureMachinePool == azureMachinePool && this.cluster == cluster
    {
      this.client := client;
      this.machinePool := machinePool;
      this.azureMachinePool := azureMachinePool;
      this.cluster := cluster;
    }

    method SetReady()
      modifies azureMachinePool
      ensures azureMachinePool.ready
      ensures azureMachinePool.failureMessage == old(azureMachinePool.failureMessage)
      ensures azureMachinePool.failureReason == old(azureMachinePool.failureReason)
      ensures azureMachinePool.annotations == old(azureMachinePool.annotations)
    {
      azureMachinePool.ready := true;
    }

    /** The failure message is the error's text. */
    method SetFailureMessage(v: Error)
      modifies azureMachinePool
      ensures azureMachinePool.failureMessage == Some(Text(v))
      ensures azureMachinePool.ready == old(azureMachinePool.ready)
      ensures azureMachinePool.failureReason == old(azureMachinePool.failureReason)
      ensures azureMachinePool.annotations == old(azureMachinePool.annotations)
    {
      azureMachinePool.failureMessage := Some(Text(v));
    }

    method SetFailureReason(v: string)
      modifies azureMachinePool
      ensures azureMachinePool.failureReason == Some(v)
      ensures azureMachinePool.ready == old(azureMachinePool.ready)
      ensures azureMachinePool.failureMessage == old(azureMachinePool.failureMessage)
      ensures azureMachinePool.annotations == old(azureMachinePool.annotations)
    {
      azureMachinePool.failureReason := Some(v);
    }

    /** SetAnnotation: a nil annotation map is allocated first; the key then
      maps to the value and every other annotation is kept. */
    method SetAnnotation(key: string, value: string)
      modifies azureMachinePool
      ensures azureMachinePool.annotations.Some?
      ensures key in azureMachinePool.annotations.value && azureMachinePool.annotations.value[key] == value
      ensures var before := if old(azureMachinePool.annotations).Some? then old(azureMachinePool.annotations).value else map[];
              azureMachinePool.annotations.value.Keys == before.Keys + {key}
              && forall k | k in before && k != key :: azureMachinePool.annotations.value[k] == before[k]
      ensures azureMachinePool.ready == old(azureMachinePool.ready)
      ensures azureMachinePool.failureMessage == old(azureMachinePool.failureMessage)
      ensures azureMachinePool.failureReason == old(azureMachinePool.failureReason)
    {
      if azureMachinePool.annotations.None? {
        azureMachinePool.annotations := Some(map[]);
      }
      azureMachinePool.annotations := Some(azureMachinePool.annotations.value[key := value]);
    }

    /** AdditionalTags: the cluster's tags and the machine pool's, the
      machine pool's value winning on a shared key. */
    function AdditionalTags(): (tags: Tags)
      reads this, azureMachinePool
      ensures tags.Keys == cluster.additionalTags.Keys + azureMachinePool.additionalTags.Keys
      ensures forall k | k in azureMachinePool.additionalTags :: tags[k] == azureMachinePool.additionalTags[k]
      ensures forall k | k in cluster.additionalTags && k !in azureMachinePool.additionalTags :: tags[k] == cluster.additionalTags[k]
    {
      Merge(Merge(map[], cluster.additionalTags), azureMachinePool.additionalTags)
    }

    /** GetBootstrapData: the bootstrap secret's "value" bytes, encoded as
      padded standard base64 (section 4 of RFC 4648). A nil secret name fails
      before any secret is read; `requested` is the secret asked for. */
    method GetBootstrapData() returns (data: string, err: Option<Error>, ghost requested: Option<NamespacedName>)
      ensures machinePool.dataSecretName.None? ==> requested.None?
      ensures machinePool.dataSecretName.Some? ==>
                requested == Some(NamespacedName(azureMachinePool.namespace, machinePool.dataSecretName.value))
      ensures machinePool.dataSecretName.None? ==> err == Some(NoDataSecretName) && data == ""
      ensures machinePool.dataSecretName.Some? ==>
                var key := NamespacedName(azureMachinePool.namespace, machinePool.dataSecretName.value);
                match client.getSecret(key)
                   case Failure(e) =>
                     data == "" && err == Some(Wrap("failed to retrieve bootstrap data secret for AzureMachinePool "
                                                    + azureMachinePool.namespace + "/" + azureMachinePool.name, e))
                   case Success(secret) =>
                     && ("value" !in secret ==> data == "" && err == Some(NoSecretValue))
                     && ("value" in secret ==> err.None? && Base64.Decode(data) == Some(secret["value"])
                                               && data == Base64.Encode(secret["value"]))
    {
      if machinePool.dataSecretName.None? {
        return "", Some(NoDataSecretName), None;
      }
      var key := NamespacedName(azureMachinePool.namespace, machinePool.dataSecretName.value);
      requested := Some(key);
      var got := client.getSecret(key);
      if got.Failure? {
        return "", Some(Wrap("failed to retrieve bootstrap data secret for AzureMachinePool "
                             + azureMachinePool.namespace + "/" + azureMachinePool.name, got.error)), requested;
      }
      if "value" !in got.value {
        return "", Some(NoSecretValue), requested;
      }
      data := Base64.Encode(got.value["value"]);
      Base64.DecodeEncode(got.value["value"]);
      err := None;
    }
  }

  /** NewMachinePoolScope: the client, the machine pool and the
      AzureMachinePool are required, checked in that order; a patch helper
      that cannot be built fails the constructor too. */
  method NewMachinePoolScope(params: MachinePoolScopeParams) returns (scope: MachinePoolScope?, err: Option<Error>)
    ensures params.client.None? ==> scope == null && err == Some(ClientRequired)
    ensures params.client.Some? && params.machinePool.None? ==> scope == null && err == Some(MachinePoolRequired)
    ensures params.client.Some? && params.machinePool.Some? && params.azureMachinePool == null ==>
              scope == null && err == Some(AzureMachinePoolRequired)
    ensures params.client.Some? && params.machinePool.Some? && params.azureMachinePool != null ==>
              if params.patchHelperError.Some? then
                scope == null && err == Some(Wrap("failed to init patch helper", params.patchHelperError.value))
              else
                err.None? && scope != null && scope.client == params.client.value
                && scope.machinePool == params.machinePool.value && scope.azureMachinePool == params.azureMachinePool
                && scope.cluster == params.cluster
  {
    if params.client.None? {
      return null, Some(ClientRequired);
    }
    if params.machinePool.None? {
      return null, Some(MachinePoolRequired);
    }
    if params.azureMachinePool == null {
      return null, Some(AzureMachinePoolRequired);
    }
    if params.patchHelperError.Some? {
      return null, Some(Wrap("failed to init patch helper", params.patchHelperError.value));
    }
    scope := new MachinePoolScope(params.client.value, params.machinePool.value, params.azureMachinePool, params.cluster);
    err := None;
  }
}
