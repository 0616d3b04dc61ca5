/** The provider-side resources the services read and write, reduced to the
    fields the services set or inspect. */
module Resources {
  import opened Wrappers
  import opened Tags
  import Base64

  /** The resource types a provider call can address. */
  datatype Kind =
    | PublicIP | InboundNatRule | NetworkInterface | VirtualMachine | RoleAssignment | Disk
    | LoadBalancer | VirtualNetwork | ResourceGroup

  /** Provisioning states a VM reports (infrav1.VMState); any other string
      can be reported too. */
  type VMState = string
  const VMStateCreating: VMState := "Creating"
  const VMStateDeleting: VMState := "Deleting"
  const VMStateFailed: VMState := "Failed"
  const VMStateSucceeded: VMState := "Succeeded"
  const VMStateUpdating: VMState := "Updating"

  datatype Address = Address(addressType: string, address: string)

  /** infrav1.VM: what a VM Get returns. */
  datatype Vm = Vm(id: string, name: string, state: VMState, addresses: seq<Address>)

  /** The image a VM boots from (a marketplace, gallery or ID reference). */
  datatype Image = Image(reference: string)

  /** virtualmachines.Spec: what the VM service is asked to create. */
  datatype VmSpec = VmSpec(
    name: string,
    nicNames: seq<string>,
    sshKeyData: seq<Base64.byte>,
    size: string,
    image: Image,
    customData: string,
    zone: string)

  /** network.PublicIPAddress, as the public IP service creates it. */
  datatype PublicIPAddress = PublicIPAddress(
    name: string,
    location: string,
    sku: string,
    version: string,
    allocation: string,
    domainNameLabel: string,
    fqdn: string)

  datatype SubResource = SubResource(id: string)

  datatype FrontendIPConfiguration = FrontendIPConfiguration(
    name: string, privateIPAllocation: string, publicIP: PublicIPAddress)

  datatype OutboundNatRule = OutboundNatRule(
    name: string, frontendIPConfigurations: seq<SubResource>, backendAddressPool: SubResource)

  datatype Probe = Probe(
    name: string, protocol: string, port: int, intervalInSeconds: int, numberOfProbes: int)

  datatype LoadBalancingRule = LoadBalancingRule(
    name: string,
    disableOutboundSnat: bool,
    protocol: string,
    frontendPort: int,
    backendPort: int,
    idleTimeoutInMinutes: int,
    enableFloatingIP: bool,
    loadDistribution: string,
    frontendIPConfiguration: SubResource,
    backendAddressPool: SubResource,
    probe: SubResource)

  /** network.LoadBalancer; probes and rules are nil (None) unless set. */
  datatype LoadBalancerDesc = LoadBalancerDesc(
    sku: string,
    location: string,
    tags: Tags,
    frontendIPConfigurations: seq<FrontendIPConfiguration>,
    backendAddressPools: seq<string>,
    outboundNatRules: seq<OutboundNatRule>,
    probes: Option<seq<Probe>>,
    loadBalancingRules: Option<seq<LoadBalancingRule>>)

  /** network.VirtualNetwork: the properties and the address space are
      optional pointers in the SDK, and so are the prefixes. */
  datatype AddressSpace = AddressSpace(addressPrefixes: Option<seq<string>>)
  datatype VirtualNetworkDesc = VirtualNetworkDesc(
    id: Option<string>,
    name: Option<string>,
    location: Option<string>,
    tags: Tags,
    addressSpace: Option<Option<AddressSpace>>)  // VirtualNetworkPropertiesFormat, then AddressSpace

  /** resources.Group. */
  datatype Group = Group(location: string, tags: Tags)

  /** What the provider stores under a resource name. Resources whose
      services are not part of this model are stored as Opaque. */
  datatype Record =
    | VmRecord(spec: VmSpec, vm: Vm)    // what was asked for, and what the provider made of it
    | PublicIPRecord(ip: PublicIPAddress)
    | LoadBalancerRecord(lb: LoadBalancerDesc)
    | VnetRecord(vnet: VirtualNetworkDesc)
    | GroupRecord(group: Group)
    | Opaque

  /** Which record shape each kind of resource has. */
  predicate Fits(k: Kind, r: Record) {
    match k
    case VirtualMachine => r.VmRecord?
    case PublicIP => r.PublicIPRecord?
    case LoadBalancer => r.LoadBalancerRecord?
    case VirtualNetwork => r.VnetRecord?
    case ResourceGroup => r.GroupRecord?
    case _ => r.Opaque?
  }
}
