# cluster-api-provider-azure: machine reconciliation and resource services

This project models the per-machine convergence logic of the Azure
infrastructure provider for Cluster API, together with the resource services
that logic drives. It also proves properties of that model.

- **The AzureMachine service** (`MachineReconciler`) runs two fixed chains of
  provider calls.
  - The create chain makes public IPs, then the inbound NAT rule, the network
    interface, the VM and the role assignment.
  - The teardown chain deletes the VM, then its network interface, its NAT rule,
    the public IPs and the OS disk.
  - On the way it picks the availability zone, the image and the network
    interfaces.
  - After reading the VM back it recovers from a failed provisioning: the VM and
    its disk are deleted and an error asks for a retry.
- **The AzureMachine controller** (`MachineController`) runs the status state
  machine of one AzureMachine.
  - It exits early on a failure state, registers the finalizer and waits on the
    infrastructure and bootstrap gates.
  - It migrates the deprecated availability zone field and finds or creates the
    VM.
  - It maps the VM's provisioning state to ready, not ready or failed.
  - On deletion it removes the finalizer once the teardown succeeded.
- **The resource services**, each a sequence of provider calls with errors
  classified as not found or other:
  - resource groups (`Groups`) and virtual networks (`VirtualNetworks`), both
    deleted only when the cluster owns or manages them;
  - public IPs (`PublicIPs`), one call per spec in order;
  - public load balancers (`PublicLoadBalancers`), built from the spec and its
    role;
  - the SKU capability search (`ResourceSkus`).
- **Field validation** of an AzureMachine (`Validation`) and the **machine pool
  scope** (`MachinePool`).

The cloud is the class `Provider.Cloud`.
- A store maps a (kind, name) key to a resource record.
- A trace lists every call in order.
- A fixed set of faulted calls is answered with a server error.
- A Get or Delete of a missing key is answered with not found.
- A fixed `provision` function says what state the provider gives a VM it
  creates.

Ordering facts ("no later step after a failure", "never goes back to an earlier
step") are stated on the trace. Each chain is described by a ghost predicate
(`CreateChain`, `DeleteChain`, `NormalRun`, `DeleteRun`) that names the step
that failed, if any. Lemmas derive the ordering and outcome properties from
those predicates.

Shared pieces:
- standard base64 as in section 4 of RFC 4648, with a proved round trip
  (`Base64`);
- ASCII case mapping (`Text`);
- the tag builder and ownership rule (`Tags`);
- wrapped errors (`Errors`);
- the resource records (`Resources`).

## Model

| member | source | states |
|---|---|---|
| `Validation.ValidateSSHKey` | api/v1alpha3/azuremachine_validation.go:28-43 | At most one error. There is no error exactly when the key is valid standard base64 and the SSH parser accepts its bytes. Input that is not base64 gets the "not properly base64 encoded" error without the parser being consulted. Base64 the parser rejects gets "not valid". |
| `Validation.EncodedKeyValidates` | api/v1alpha3/azuremachine_validation.go:31-40 | The base64 encoding of any byte string passes the base64 check. It is accepted exactly when the parser accepts the bytes. |
| `Validation.ValidateUserAssignedIdentity` | api/v1alpha3/azuremachine_validation.go:46-54 | There is an error, at most one and a Required error on the path, exactly when the type is UserAssigned and the identity list is empty. |
| `Validation.ValidateStorageAccountType` | api/v1alpha3/azuremachine_validation.go:73-90 | At most one error, always on ManagedDisk.StorageAccountType. There is none exactly for the four allowed types. An empty type gets a Required error and any other type gets an Invalid error. |
| `Validation.ValidateOSDisk` | api/v1alpha3/azuremachine_validation.go:57-71 | At most three errors. DiskSizeGB is reported exactly when the size is outside 1..2048. OSType is reported exactly when it is empty. The storage path is reported exactly when the type is not allowed. The list is empty exactly when all three checks pass. |
| `Base64.Encode` | cloud/scope/machinepool.go:211 | The padded encoding has 4·⌈n/3⌉ characters. |
| `Base64.DecodeEncode` | api/v1alpha3/azuremachine_validation.go:31 | Decoding the standard encoding of any bytes gives those bytes back, so every encoding is valid standard base64. |
| `Text.ToLower` | cloud/services/publicips/publicips.go:47 | Lower-casing keeps the length and maps every character through the ASCII case map, leaving no ASCII upper-case letter. |
| `Tags.Build` | cloud/services/virtualnetworks/virtualnetworks.go:93-99 | The built tags hold the cluster's lifecycle key, the role and the name when given, and every additional tag that is not overridden. The keys are exactly the additional keys plus the lifecycle key. |
| `Tags.BuildOwned` | cloud/services/groups/groups.go:41-47 | Tags built with the owned lifecycle make the resource owned by that cluster. They make it owned by no other cluster unless the additional tags say so. |
| `Tags.Merge` | cloud/scope/machinepool.go:156-161 | The merged map has both key sets. The second map wins on a shared key. |
| `Groups.NewGroup` | cloud/services/groups/groups.go:39-48 | The group to create is in the scope's location, owned by the cluster, named after the group and in the common role. |
| `Groups.Reconcile` | cloud/services/groups/groups.go:32-52 | A group that can be read is left alone and no create is made. Any failure to read it, not only not found, leads to one create. A failed create leaves the store unchanged and its error is returned unwrapped. |
| `Groups.IsGroupManaged` | cloud/services/groups/groups.go:79-86 | One Get. Its error is returned as it is. Otherwise the answer is the HasOwned test on the group's tags. |
| `Groups.DeleteOwned` | cloud/services/groups/groups.go:65-76 | One Delete. Not found counts as success. Any other error is wrapped with the group's name and leaves the store unchanged. |
| `Groups.DeleteAsWritten` | cloud/services/groups/groups.go:55-77 | Delete as the code is written. A failed ownership lookup, including not found, is wrapped and no delete is made. A group the cluster does not own is never deleted. An owned group is deleted. |
| `Groups.AbsentGroupDeleteFails` | cloud/services/groups/groups.go:56-59 | On a provider without the group and without faults, Delete as written fails with the lookup's not found. |
| `Groups.Delete` | cloud/services/groups/groups.go:55-77 | Delete with the missing-group case handled. A missing group is success with no delete. A server error in the lookup is wrapped. Only an owned group is deleted. |
| `Groups.DeleteTwice` | cloud/services/groups/groups.go:66-70 | Without faults, deleting twice succeeds both times and an owned group is gone. |
| `VirtualNetworks.FirstPrefix` | cloud/services/virtualnetworks/virtualnetworks.go:47-53 | The CIDR is the first address prefix. It is "" when the properties, the address space or the prefixes are missing or there are none. |
| `VirtualNetworks.NewVnetReadBack` | cloud/services/virtualnetworks/virtualnetworks.go:92-106 | Reading back a created network gives the spec's CIDR as its only block. Its tags make it owned by the cluster, named after the spec and in the common role. |
| `VirtualNetworks.GetExisting` | cloud/services/virtualnetworks/virtualnetworks.go:39-61 | One Get. Not found is returned unwrapped. Any other error is wrapped with the name and is no longer a not found. Success records the network as read. |
| `VirtualNetworks.Reconcile` | cloud/services/virtualnetworks/virtualnetworks.go:64-114 | A wrong spec type fails with no call. An existing network, managed or not, is copied into the scope and nothing is created. A server error is wrapped twice. A missing network gets one create of the owned network, and the create error is returned as it is. |
| `VirtualNetworks.Delete` | cloud/services/virtualnetworks/virtualnetworks.go:117-138 | An unmanaged network makes no call and succeeds, even for a wrong spec type. A managed one is deleted. Not found counts as success. Any other error is wrapped with the name and resource group and leaves the store unchanged. |
| `PublicLoadBalancers.BackendPoolName` | cloud/services/publicloadbalancers/publicloadbalancers.go:47-51 | The pool is name + "-outboundBackendPool" for the node outbound role and name + "-backendPool" otherwise. |
| `PublicLoadBalancers.LoadBalancerShape` | cloud/services/publicloadbalancers/publicloadbalancers.go:65-145 | The balancer is a Basic balancer in the scope's location. It is owned by the cluster and tagged with the role. It has one frontend on the public IP, one backend pool and the outbound rule. It has a probe and an HTTPS rule on the API server port exactly when the role is API server. Every sub-resource reference resolves inside the balancer. The frontend reference is the literal ID text, which starts with "//" as the code builds it. |
| `PublicLoadBalancers.FrontendRefText` | cloud/services/publicloadbalancers/publicloadbalancers.go:52-95 | The frontend reference is the ID text "//subscriptions/<subscription>/resourceGroups/<group>/providers/Microsoft.Network/loadBalancers/<name>/frontendIPConfigurations/<name>-frontEnd". The leading "//" comes from a "/" put before a prefix that already starts with "/". |
| `PublicLoadBalancers.Reconcile` | cloud/services/publicloadbalancers/publicloadbalancers.go:41-157 | A wrong spec type fails with no call. The public IP is read first. Not found gives "public ip X not found in RG Y" and any other error gives "failed to look for existing public IP", both with no create. Otherwise one create of the balancer built on that IP is made, and its failure is wrapped. |
| `PublicLoadBalancers.Delete` | cloud/services/publicloadbalancers/publicloadbalancers.go:160-177 | A wrong spec type fails with no call. Otherwise one Delete. Not found counts as success. Any other error is wrapped with the name and resource group. |
| `PublicIPs.PublicIPAddressFor` | cloud/services/publicips/publicips.go:39-51 | The address is static, IPv4 and of the Standard SKU. Its DNS label is the name in lower case, equal to it up to case, and its FQDN is the spec's DNS name. |
| `PublicIPs.Reconcile` | cloud/services/publicips/publicips.go:31-60 | One create per spec, in spec order. Success means every create went through and the store holds every address. The first failure stops the loop with "cannot create public IP". The store then holds exactly the addresses created before it. |
| `PublicIPs.Delete` | cloud/services/publicips/publicips.go:63-78 | One delete per spec, in spec order. The first not found ends the loop with success and the later specs untouched. Any other failure ends it with an error naming the address and resource group. The deleted addresses are gone. |
| `PublicIPs.DeleteFinishedRemovesAll` | cloud/services/publicips/publicips.go:64-70 | When every address exists and the names are distinct, a Delete without error has issued every delete and removed every address. |
| `ResourceSkus.List` | cloud/services/resourceskus/client.go:59-74 | Failing to open the listing gives no SKUs and "could not list resource skus". A failure while advancing gives the SKUs read so far, in order, and "could not iterate resource skus". Otherwise all SKUs are returned in order. |
| `ResourceSkus.FirstNamed` | cloud/services/resourceskus/client.go:85-97 | The index found holds the first SKU of that name. None means no SKU has the name. |
| `ResourceSkus.LaterSkusIgnored` | cloud/services/resourceskus/client.go:86-96 | Once a SKU of the name is present, SKUs after it do not change the answer. |
| `ResourceSkus.HasAcceleratedNetworking` | cloud/services/resourceskus/client.go:77-100 | An empty name is false with no listing; that the listing is not consulted is reported by the method's own ghost flag `listed`, since listings are not traced. A listing error is returned with false. Otherwise the answer is true exactly when the first SKU of that name has the AcceleratedNetworkingEnabled capability with value "True" up to case. |
| `MachinePool.NewMachinePoolScope` | cloud/scope/machinepool.go:66-93 | A missing client, machine pool or AzureMachinePool is rejected, checked in that order, each with its own message. A patch helper error is wrapped. Otherwise the scope holds the given objects. |
| `MachinePool.MachinePoolScope.SetReady` | cloud/scope/machinepool.go:140-142 | Ready becomes true and the other status fields are unchanged. |
| `MachinePool.MachinePoolScope.SetFailureMessage` | cloud/scope/machinepool.go:145-147 | The failure message becomes the error's text and nothing else changes. |
| `MachinePool.MachinePoolScope.SetFailureReason` | cloud/scope/machinepool.go:150-152 | The failure reason is set and nothing else changes. |
| `MachinePool.MachinePoolScope.SetAnnotation` | cloud/scope/machinepool.go:164-169 | A nil map is allocated. The key then maps to the value and every other annotation is kept. |
| `MachinePool.MachinePoolScope.AdditionalTags` | cloud/scope/machinepool.go:154-161 | The cluster's and the machine pool's tags together, with the machine pool's value winning on a shared key. |
| `MachinePool.MachinePoolScope.GetBootstrapData` | cloud/scope/machinepool.go:196-212 | A nil secret name fails before any secret is read; which secret is asked for, if any, is reported by the method's own ghost result `requested`, since secret reads are not traced. A failed read is wrapped with the pool's namespace and name. A missing "value" key fails. Otherwise the result is the standard base64 of the secret's bytes and decodes back to them. |
| `MachineReconciler.IsAvailabilityZoneSupported` | controllers/azuremachine_reconciler.go:298-311 | True exactly when the location is in the supported list. |
| `MachineReconciler.ZoneFor` | controllers/azuremachine_reconciler.go:172-198 | The zone is "" or one of the offered zones. No offered zones gives "". A requested zone is kept if offered and gives "" otherwise. The deprecated zone ID is used only when no zone is requested. Without either, the first offered zone is used. |
| `MachineReconciler.GetVirtualMachineZone` | controllers/azuremachine_reconciler.go:162-199 | A failed zone lookup is wrapped with the VM size. Otherwise the zone is the one ZoneFor picks. |
| `MachineReconciler.VMImage` | controllers/azuremachine_reconciler.go:314-321 | The machine's own image if set, otherwise the default image lookup's result. |
| `MachineReconciler.PreparedVm` | controllers/azuremachine_reconciler.go:202-254 | A key that is not standard base64 fails first. A prepared spec carries the decoded key. It has a zone only when the location supports zones and zones are not disabled; then the zone is the one `ZoneFor` picks, and a non-empty zone is one of the offered zones. It has the primary interface, plus the public one exactly when a public IP is allocated. It has the machine's own image when one is set, otherwise the default image, and the bootstrap data. |
| `MachineReconciler.SSHKeyReachesSpec` | controllers/azuremachine_reconciler.go:202-205 | A key that is the base64 of some bytes never fails decoding, and those bytes reach the VM spec. |
| `MachineReconciler.RunVm` | controllers/azuremachine_reconciler.go:240-281 | A spec that failed to prepare makes no call. Otherwise the VM is created and read back. A returned VM is the provisioned VM in the Succeeded state. |
| `MachineReconciler.CheckState` | controllers/azuremachine_reconciler.go:264-281 | A VM is returned exactly when it is Succeeded. A Failed VM is deleted first, then its disk with not found ignored. Any other state makes no call. |
| `MachineReconciler.FailedVmRemoved` | controllers/azuremachine_reconciler.go:265-276 | When the provider provisions the VM as Failed and the create and read succeed, the run fails and does not leave the VM in the store. |
| `MachineReconciler.VmRunCalls` | controllers/azuremachine_reconciler.go:255-275 | The VM step touches only the machine's VM and its OS disk. |
| `MachineReconciler.ReconcileVirtualMachine` | controllers/azuremachine_reconciler.go:201-282 | The calls, the store change, the VM and the error are those of RunVm on the prepared spec. |
| `MachineReconciler.CreateChainOrdered` | controllers/azuremachine_reconciler.go:72-99 | The create chain never goes back to an earlier step. After a failure no call of a later step is made. An error is returned exactly when a step failed, and a VM exactly when none did. |
| `MachineReconciler.FullCreateChainOrdered` | controllers/azuremachine_reconciler.go:72-98 | The calls of a create chain with no failure are in step order. |
| `MachineReconciler.Reconcile` | controllers/azuremachine_reconciler.go:72-99 | The calls and store follow the create chain: public IPs, NAT rule, network interface, VM, role assignment. The first failing step ends it with that step's wrapped error and leaves the resources created so far. |
| `MachineReconciler.DeleteChainOrdered` | controllers/azuremachine_reconciler.go:102-133 | The teardown only deletes. It never goes back to an earlier step and makes no call after a failed step. It fails exactly when a step failed. |
| `MachineReconciler.TeardownRemovesMachine` | controllers/azuremachine_reconciler.go:102-133 | A teardown without error removes the VM, network interface, NAT rule and OS disk. When all public IPs exist and have distinct names, the store loses exactly the machine's resources. |
| `MachineReconciler.Delete` | controllers/azuremachine_reconciler.go:102-133 | The calls and store follow the teardown chain: VM, network interface, NAT rule, public IPs, OS disk. Each step's error is wrapped with its own message. |
| `MachineReconciler.VMIfExists` | controllers/azuremachine_reconciler.go:135-158 | Without an ID there is no call and no VM. A server error is wrapped with "Failed to get VM". Otherwise a VM is returned exactly when it is in the store, as stored. |
| `MachineReconciler.ControlPlane` | controllers/azuremachine_reconciler.go:285-294 | The selection is no longer than the list, and every machine in it is a labelled machine of the list. |
| `MachineReconciler.ControlPlaneKeepsAll` | controllers/azuremachine_reconciler.go:285-294 | Every labelled machine of the list is selected. |
| `MachineReconciler.ControlPlaneAppend` | controllers/azuremachine_reconciler.go:287-292 | Selecting from a concatenation is the concatenation of the selections, so list order is kept. |
| `MachineReconciler.ControlPlaneIdempotent` | controllers/azuremachine_reconciler.go:289-291 | Selecting twice selects nothing more. |
| `MachineReconciler.GetControlPlaneMachines` | controllers/azuremachine_reconciler.go:285-294 | The loop returns exactly the selection ControlPlane describes. |
| `MachineController.AddFinalizer` | controllers/azuremachine_controller.go:225 | The finalizer is present afterwards and nothing else is added or lost. An existing finalizer leaves the list unchanged, and the old list is a prefix of the new one. |
| `MachineController.RemoveFinalizer` | controllers/azuremachine_controller.go:336 | The finalizer is absent afterwards. Every other entry is kept and nothing is added. |
| `MachineController.RemoveAbsentFinalizer` | controllers/azuremachine_controller.go:333-338 | Removing a finalizer that is not there changes nothing. |
| `MachineController.RemoveUndoesAdd` | controllers/azuremachine_controller.go:225-336 | Removing a finalizer just added to a list without it restores the list. |
| `MachineController.MigrateFailureDomain` | controllers/azuremachine_controller.go:242-252 | An existing failure domain is kept. An unset one takes the deprecated zone ID. |
| `MachineController.ObserveStatus` | controllers/azuremachine_controller.go:263-298 | The provider ID becomes "azure:///" + the VM's ID and the annotation is set. Addresses and VM state are copied. Succeeded is ready. Creating, Updating and Deleting are not ready, with failure fields unchanged. Failed and unknown states are not ready, with reason UpdateError and the state in the message. |
| `MachineController.AzureMachine.ObserveVm` | controllers/azuremachine_controller.go:263-298 | The machine's new state is the observed state. |
| `MachineController.FindVm` | controllers/azuremachine_controller.go:204-214 | VMIfExists's answer, with its error wrapped in "failed to query AzureMachine VM". |
| `MachineController.GetOrCreateOutcome` | controllers/azuremachine_controller.go:309-324 | A VM is returned exactly when there is no error. A lookup that found the VM or failed makes only the Get and changes nothing. Otherwise the calls after the lookup are the create chain's, in step order, none of them from a step after the one that failed. |
| `MachineController.GetOrCreate` | controllers/azuremachine_controller.go:309-324 | The create chain runs only when no VM was found, and its error is wrapped in "failed to reconcile AzureMachine". |
| `MachineController.NormalRunGuarantees` | controllers/azuremachine_controller.go:216-307 | The early exit happens exactly when a failure field is set. Past it the finalizer is registered. No provider call is made unless the patch succeeded and both gates are open. An existing failure domain is never overwritten. A reconciled VM's ID and state are recorded. |
| `MachineController.ReconcileNormal` | controllers/azuremachine_controller.go:216-307 | The machine and provider follow NormalRun: the early exit, finalizer and patch, gates, zone migration, get-or-create, observation, then the tags outcome. |
| `MachineController.DeleteRunFinalizer` | controllers/azuremachine_controller.go:326-341 | The finalizer goes exactly when the teardown succeeded. On error the machine is unchanged. |
| `MachineController.ReconcileDelete` | controllers/azuremachine_controller.go:326-341 | The teardown chain runs. Its error is wrapped with the namespace and cluster name. Only success removes the finalizer. |
| `MachineController.Reconcile` | controllers/azuremachine_controller.go:195-200 | A machine marked for deletion takes the delete path and any other takes the normal path. |

## Left out

- Kubernetes I/O and controller wiring are not modelled.
  - Object fetching, the patch helper's Patch and Close, and watch setup are left out.
  - The patch outcome, the infrastructure-ready flag, the bootstrap secret name and the tags reconcile outcome are inputs (`Gates`).
  - reconcile.Result is not modelled.
  - Logging and events are not modelled.
- Calls into code that is not part of this model are inputs or parameters:
  - `ssh.ParseAuthorizedKey`;
  - the default Ubuntu image;
  - the SKU cache's zones;
  - the machine scope's AvailabilityZone() and bootstrap data;
  - `VnetSpec.IsManaged`;
  - the Kubernetes client's secret read;
  - `azure.SupportedAvailabilityZoneLocations`.
- The NIC, NAT rule, role assignment, disk and VM services are not part of this model. Each is one CreateOrUpdate or Delete of one resource, with a missing resource on delete counted as deleted.
  - NAT rules and role assignments are keyed by the machine name.
  - Only the primary network interface is modelled. The create chain creates it and the teardown deletes it. The public interface that the VM spec names when a public IP is allocated is neither created nor deleted by the model. So "exactly the machine's resources" in the TeardownRemovesMachine row means the modelled ones.
- Resource keys ignore the resource group: each service works in one group.
- MachineReconciler.Base64Error: the byte offset in Go's "illegal base64 data at input byte N" is not modelled.
- Error texts use ": " joining. `%q` quoting is not modelled: the unknown-state message puts plain quotes around the state. `%+v` stack traces are not modelled: the tags failure message is the error's text.
- MachineController.GetOrCreate: the VM ID comes from the machine's provider ID being set. Parsing it is not modelled, so any set provider ID counts as an ID.
- MachineReconciler.ZoneFor follows the code: a requested zone that is not offered gives "". The log text at controllers/azuremachine_reconciler.go:192 suggests a fallback that the code does not make.
- PublicLoadBalancers.LoadBalancerShape follows the code's Basic SKU. The test at cloud/services/publicloadbalancers/publicloadbalancers_test.go:178 expects Standard.
- MachineReconciler.ControlPlane follows the code, which does not filter deleted machines despite its comment.
- controller-runtime's controllerutil is outside the modelled code. MachineController.AddFinalizer and MachineController.RemoveFinalizer model its behaviour. AddFinalizer appends the finalizer if it is absent. RemoveFinalizer removes every occurrence.
- Client construction, GetID, the scope getters, AzureMachineTemplate, context cancellation and concurrency are not modelled.
- Text.ToLower: only the ASCII letters A-Z are lowered. Go's strings.ToLower also lowers other Unicode letters ("É" to "é"), and that is not modelled. Kubernetes and Azure resource names are ASCII.
- Text.EqualFold: only ASCII case folding is modelled. For the comparison with "True" this loses nothing, since no non-ASCII character folds to t, r, u or e.
- ResourceSkus.HasAcceleratedNetworking: the SKU listing is an input value, not a traced provider call. Whether it is consulted is the method's own ghost flag `listed`; no external state backs it.
- MachinePool.MachinePoolScope.GetBootstrapData: the secret read is a function of the client, not a traced call. The secret asked for is the method's own ghost result `requested`; no external state backs it.
- PublicIPs.Delete follows the code: the first missing address ends the loop with success, and the later addresses stay.

## Findings

| source | as written | input that shows it | evidently intended | confidence | as-written member | corrected member |
|---|---|---|---|---|---|---|
| cloud/services/groups/groups.go:56-59 | Delete wraps every ownership-lookup error, including not found, so deleting a group that is already gone fails | a provider without the group and without faults: Delete returns "could not get resource group management state: …NotFound…" | a missing group counts as deleted, as the not found case of the delete call at lines 67-70 shows | not executed | `Groups.AbsentGroupDeleteFails` | `Groups.DeleteTwice` |
