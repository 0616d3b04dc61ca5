/** The public load balancer service: builds the load balancer of a spec
    around an existing public IP, creates it, and deletes it. */
module PublicLoadBalancers {
  import opened Wrappers
  import opened Errors
  import opened Tags
  import opened Resources
  import opened Provider

  /** The spec handed to the service: a public load balancer spec, or a
      value of any other spec type. */
  datatype LbSpec =
    | PublicLbSpec(name: string, publicIPName: string, role: string)
    | OtherSpec

  /** What the service reads from its cluster scope. */
  datatype LbScope = LbScope(
    subscriptionID: string,
    resourceGroup: string,
    location: string,
    clusterName: string,
    additionalTags: Tags,
    apiServerPort: int)

  const InvalidSpec := New("invalid public loadbalancer specification")
  const OutboundRuleName := "OutboundNATAllProtocols"
  const ProbeName := "tcpHTTPSProbe"
  const RuleName := "LBRuleHTTPS"

  function FrontendName(lbName: string): string { lbName + "-frontEnd" }

  /** The backend pool: a node outbound balancer gets its own pool name. */
  function BackendPoolName(lbName: string, role: string): (n: string)
    ensures role == NodeOutboundRole ==> n == lbName + "-outboundBackendPool"
    ensures role != NodeOutboundRole ==> n == lbName + "-backendPool"
  {
    if role == NodeOutboundRole then lbName + "-outboundBackendPool" else lbName + "-backendPool"
  }

  /** The ID every sub-resource reference of the balancer starts with. The
      resource-type prefix itself starts with "/", and a further "/" is put
      in front of it, so IDs begin with "//". */
  function LbID(scope: LbScope, lbName: string): string {
    "/" + "/subscriptions/" + scope.subscriptionID + "/resourceGroups/" + scope.resourceGroup
    + "/providers/Microsoft.Network/loadBalancers" + "/" + lbName
  }

  function Ref(lbID: string, collection: string, name: string): SubResource {
    SubResource(lbID + "/" + collection + "/" + name)
  }

  /** The balancer Reconcile asks the provider for. */
  function LoadBalancerFor(scope: LbScope, name: string, role: string, publicIP: PublicIPAddress): (lb: LoadBalancerDesc)
  {
    var id := LbID(scope, name);
    var frontend := FrontendName(name);
    var pool := BackendPoolName(name, role);
    LoadBalancerDesc(
      "Basic",
      scope.location,
      Build(BuildParams(scope.clusterName, OwnedLifecycle, None, Some(role), scope.additionalTags)),
      [FrontendIPConfiguration(frontend, "Dynamic", publicIP)],
      [pool],
      [OutboundNatRule(OutboundRuleName, [Ref(id, "frontendIPConfigurations", frontend)], Ref(id, "backendAddressPools", pool))],
      if role == APIServerRole then Some([Probe(ProbeName, "Tcp", scope.apiServerPort, 15, 4)]) else None,
      if role == APIServerRole then
        Some([LoadBalancingRule(RuleName, true, "Tcp", scope.apiServerPort, scope.apiServerPort, 4, false, "Default",
                                Ref(id, "frontendIPConfigurations", frontend), Ref(id, "backendAddressPools", pool),
                                Ref(id, "probes", ProbeName))])
      else None)
  }

  /** Every reference inside `lb` names a frontend, pool or probe that `lb`
      itself defines, under the balancer's own ID. */
  predicate SelfContained(lb: LoadBalancerDesc, lbID: string) {
    var frontends := set f | f in lb.frontendIPConfigurations :: Ref(lbID, "frontendIPConfigurations", f.name);
    var pools := set p | p in lb.backendAddressPools :: Ref(lbID, "backendAddressPools", p);
    var probes := if lb.probes.Some? then set p | p in lb.probes.value :: Ref(lbID, "probes", p.name) else {};
    && (forall r | r in lb.outboundNatRules ::
          (forall f | f in r.frontendIPConfigurations :: f in frontends) && r.backendAddressPool in pools)
    && (lb.loadBalancingRules.Some? ==>
          forall r | r in lb.loadBalancingRules.value ::
            r.frontendIPConfiguration in frontends && r.backendAddressPool in pools && r.probe in probes)
  }

  /** The frontend reference written out: the ID text starts with "//". */
  lemma FrontendRefText(scope: LbScope, name: string)
    ensures Ref(LbID(scope, name), "frontendIPConfigurations", FrontendName(name)).id
            == "//subscriptions/" + scope.subscriptionID + "/resourceGroups/" + scope.resourceGroup
               + "/providers/Microsoft.Network/loadBalancers/" + name
               + "/frontendIPConfigurations/" + name + "-frontEnd"
  {
    var sub, rg := scope.subscriptionID, scope.resourceGroup;
    Joined("/", "/subscriptions/", "//subscriptions/");
    Joined("/providers/Microsoft.Network/loadBalancers", "/", "/providers/Microsoft.Network/loadBalancers/");
    Joined("/", "frontendIPConfigurations", "/frontendIPConfigurations");
    Joined("/frontendIPConfigurations", "/", "/frontendIPConfigurations/");
    Joined(name, "-frontEnd", FrontendName(name));
  }

  /** Two pieces of text that make up a third when joined. */
  lemma Joined(a: string, b: string, c: string)
    requires |c| == |a| + |b| && c[..|a|] == a && c[|a|..] == b
    ensures a + b == c
  {
    assert c == c[..|a|] + c[|a|..];
  }

  /** What the built balancer is: a Basic balancer in the scope's location,
      owned by the cluster and tagged with the role; one frontend on the
      public IP, one backend pool, the outbound rule for all protocols; a
      probe and an HTTPS rule on the API server port exactly when it fronts
      the API server; every reference resolves inside the balancer, and the
      frontend reference is the literal ID text, "//" at its head. */
  lemma LoadBalancerShape(scope: LbScope, name: string, role: string, publicIP: PublicIPAddress)
    ensures var lb := LoadBalancerFor(scope, name, role, publicIP);
            && lb.sku == "Basic" && lb.location == scope.location
            && HasOwned(lb.tags, scope.clusterName) && RoleTagKey in lb.tags && lb.tags[RoleTagKey] == role
            && |lb.frontendIPConfigurations| == 1 && lb.frontendIPConfigurations[0].publicIP == publicIP
            && lb.frontendIPConfigurations[0].name == name + "-frontEnd"
            && lb.backendAddressPools == [BackendPoolName(name, role)]
            && |lb.outboundNatRules| == 1 && lb.outboundNatRules[0].name == OutboundRuleName
            && lb.outboundNatRules[0].frontendIPConfigurations ==
                 [SubResource("//subscriptions/" + scope.subscriptionID + "/resourceGroups/" + scope.resourceGroup
                              + "/providers/Microsoft.Network/loadBalancers/" + name
                              + "/frontendIPConfigurations/" + name + "-frontEnd")]
            && (lb.probes.Some? <==> role == APIServerRole)
            && (lb.loadBalancingRules.Some? <==> role == APIServerRole)
            && (role == APIServerRole ==>
                  && |lb.probes.value| == 1 && lb.probes.value[0].port == scope.apiServerPort
                  && |lb.loadBalancingRules.value| == 1
                  && lb.loadBalancingRules.value[0].frontendPort == scope.apiServerPort
                  && lb.loadBalancingRules.value[0].backendPort == scope.apiServerPort
                  && lb.loadBalancingRules.value[0].disableOutboundSnat)
            && SelfContained(lb, LbID(scope, name))
  {
    BuildOwned(BuildParams(scope.clusterName, OwnedLifecycle, None, Some(role), scope.additionalTags), scope.clusterName);
    var lb := LoadBalancerFor(scope, name, role, publicIP);
    assert lb.frontendIPConfigurations[0] in lb.frontendIPConfigurations;
    FrontendRefText(scope, name);
    assert lb.backendAddressPools[0] in lb.backendAddressPools;
    if role == APIServerRole {
      assert lb.probes.value[0] in lb.probes.value;
    }
  }

  /** Reconcile: reads the public IP first; only when it exists is the
      balancer created. */
  method Reconcile(cloud: Cloud, scope: LbScope, spec: LbSpec) returns (err: Option<Error>)
    requires cloud.Valid()
    modifies cloud
    ensures cloud.Valid()
    ensures !spec.PublicLbSpec? ==>
              err == Some(InvalidSpec) && cloud.trace == old(cloud.trace) && cloud.store == old(cloud.store)
    ensures spec.PublicLbSpec? ==>
              var get := Call(Op.Get, PublicIP, spec.publicIPName);
              var create := Call(CreateOrUpdate, LoadBalancer, spec.name);
              match old(cloud.Refusal(get))
              case Some(NotFound) =>
                cloud.trace == old(cloud.trace) + [get] && cloud.store == old(cloud.store)
                && err == Some(Wrap("public ip " + spec.publicIPName + " not found in RG " + scope.resourceGroup, Provider(NotFound)))
              case Some(InternalServerError) =>
                cloud.trace == old(cloud.trace) + [get] && cloud.store == old(cloud.store)
                && err == Some(Wrap("failed to look for existing public IP", Provider(InternalServerError)))
              case None =>
                cloud.trace == old(cloud.trace) + [get, create]
                && (create in cloud.faults ==>
                      cloud.store == old(cloud.store)
                      && err == Some(Wrap("cannot create public load balancer", Provider(InternalServerError))))
                && (create !in cloud.faults ==>
                      var ip := old(cloud.store)[Key(PublicIP, spec.publicIPName)].ip;
                      err.None?
                      && cloud.store == old(cloud.store)[Key(LoadBalancer, spec.name) :=
                                                         LoadBalancerRecord(LoadBalancerFor(scope, spec.name, spec.role, ip))])
  {
    if !spec.PublicLbSpec? {
      return Some(InvalidSpec);
    }
    var got := cloud.Get(PublicIP, spec.publicIPName);
    if got.Failure? && IsNotFound(got.error) {
      return Some(Wrap("public ip " + spec.publicIPName + " not found in RG " + scope.resourceGroup, got.error));
    } else if got.Failure? {
      return Some(Wrap("failed to look for existing public IP", got.error));
    }
    var lb := LoadBalancerFor(scope, spec.name, spec.role, got.value.ip);
    var e := cloud.CreateOrUpdate(LoadBalancer, spec.name, LoadBalancerRecord(lb));
    if e.Some? {
      return Some(Wrap("cannot create public load balancer", e.value));
    }
    return None;
  }

  /** Delete: a missing balancer counts as deleted. */
  method Delete(cloud: Cloud, scope: LbScope, spec: LbSpec) returns (err: Option<Error>)
    requires cloud.Valid()
    modifies cloud
    ensures cloud.Valid()
    ensures !spec.PublicLbSpec? ==>
              err == Some(InvalidSpec) && cloud.trace == old(cloud.trace) && cloud.store == old(cloud.store)
    ensures spec.PublicLbSpec? ==>
              var del := Call(Op.Delete, LoadBalancer, spec.name);
              && cloud.trace == old(cloud.trace) + [del]
              && (del in cloud.faults ==>
                    cloud.store == old(cloud.store)
                    && err == Some(Wrap("failed to delete public load balancer " + spec.name + " in resource group "
                                        + scope.resourceGroup, Provider(InternalServerError))))
              && (del !in cloud.faults ==> err.None? && cloud.store == old(cloud.store) - {Key(LoadBalancer, spec.name)})
  {
    if !spec.PublicLbSpec? {
      return Some(InvalidSpec);
    }
    var e := cloud.Delete(LoadBalancer, spec.name);
    if e.Some? && IsNotFound(e.value) {
      return None;
    }
    if e.Some? {
      return Some(Wrap("failed to delete public load balancer " + spec.name + " in resource group " + scope.resourceGroup, e.value));
    }
    return None;
  }
}
