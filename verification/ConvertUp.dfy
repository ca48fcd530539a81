/** The v1beta2 -> v1beta3 cluster spec converters, step by step. `out` starts as the zero value,
    as the converters' callers allocate it. */
module ConvertUp {
  import opened Common
  import opened ApiShared
  import opened ConversionSpec
  import V2 = V1beta2
  import V3 = V1beta3

  method ConvertWorkspace(s: V2.ClusterSpec) returns (out: V3.WorkspaceSource)
    ensures out == WorkspaceUp(s)
  {
    out := V3.NO_WORKSPACE;
    if s.serviceInstance.None? && s.serviceInstanceID == "" {
      out := out.(kind := Provision);
      return;
    }
    out := out.(kind := Reference);
    if s.serviceInstance.Some? {
      if s.serviceInstance.value.id.Some? {
        out := out.(reference := out.reference.(id := s.serviceInstance.value.id.value));
      }
      if s.serviceInstance.value.name.Some? {
        out := out.(reference := out.reference.(name := s.serviceInstance.value.name.value));
      }
    }
    if s.serviceInstanceID != "" {
      out := out.(reference := out.reference.(id := s.serviceInstanceID));
    }
  }

  method ConvertDHCPServer(d: V2.DHCPServer) returns (out: V3.DHCPServer)
    ensures out == DHCPUp(d)
  {
    out := V3.NO_DHCP;
    if d.cidr.Some? { out := out.(cidr := d.cidr.value); }
    if d.dnsServer.Some? { out := out.(dnsServer := d.dnsServer.value); }
    if d.name.Some? { out := out.(name := d.name.value); }
    if d.snat.Some? { out := out.(snat := if d.snat.value then Enabled else Disabled); }
  }

  method ConvertNetwork(n: V2.ResourceRef, d: Option<V2.DHCPServer>) returns (out: V3.NetworkSource)
    ensures out == NetworkUp(n, d)
  {
    out := V3.NO_NETWORK;
    if Has(n.id) || Has(n.name) {
      out := out.(kind := Reference);
      if Has(n.id) {
        out := out.(reference := out.reference.(id := n.id.value));
      }
      if Has(n.name) {
        out := out.(reference := out.reference.(name := n.name.value));
      }
      return;
    }
    if d.None? {
      return;
    }
    var dhcp := ConvertDHCPServer(d.value);
    out := out.(kind := Provision, dhcpServer := dhcp);
  }

  method ConvertTransitGateway(t: V2.TransitGateway) returns (out: V3.TransitGatewaySource)
    ensures out == GatewayUp(t)
  {
    out := V3.NO_GATEWAY;
    if Has(t.id) {
      out := out.(kind := Reference, reference := out.reference.(id := t.id.value));
      if Has(t.name) {
        out := out.(reference := out.reference.(name := t.name.value));
      }
      return;
    }
    if t.globalRouting.Some? {
      out := out.(kind := Provision);
      if Has(t.name) {
        out := out.(provisionName := t.name.value);
      }
      out := out.(globalRouting := if t.globalRouting.value then Global else Local);
      return;
    }
    if Has(t.name) {
      out := out.(kind := Reference, reference := out.reference.(name := t.name.value));
    }
  }

  method ConvertVPC(v: V2.VPCRef) returns (out: V3.VPCSource)
    ensures out == VPCUp(Some(v))
  {
    out := V3.NO_VPC;
    if Has(v.id) {
      out := out.(kind := Reference, reference := out.reference.(id := v.id.value));
      if Has(v.name) {
        out := out.(reference := out.reference.(name := v.name.value));
      }
    } else {
      out := out.(kind := Provision);
      if Has(v.name) {
        out := out.(provisionName := v.name.value);
      }
    }
    if Has(v.region) {
      out := out.(region := v.region.value);
    }
  }

  method ConvertSubnet(s: V2.Subnet) returns (out: V3.SubnetSource)
    ensures out == SubnetUp(s)
  {
    out := V3.NO_SUBNET;
    if Has(s.id) {
      out := out.(kind := Reference, reference := out.reference.(id := s.id.value));
      if Has(s.name) {
        out := out.(reference := out.reference.(name := s.name.value));
      }
    } else if Has(s.name) {
      out := out.(kind := Provision, provisionName := s.name.value);
    } else {
      out := out.(kind := Provision);
    }
    if Has(s.zone) {
      out := out.(zone := s.zone.value);
    }
  }

  method ConvertPrototype(p: V2.Prototype) returns (out: V3.Prototype)
    ensures out == PrototypeUp(p)
  {
    out := V3.NO_PROTOTYPE.(icmpCode := p.icmpCode, icmpType := p.icmpType, protocol := p.protocol);
    if p.portRange.Some? {
      out := out.(portRange := PortRange(p.portRange.value.maximumPort, p.portRange.value.minimumPort));
    }
    var remotes := ConvertEach(RemoteUp, Elems(p.remotes));
    out := out.(remotes := Appended(remotes));
  }

  method ConvertRule(r: V2.Rule) returns (out: V3.Rule)
    ensures out == RuleUp(r)
  {
    out := V3.Rule(V3.NO_PROTOTYPE, r.direction, "", V3.NO_PROTOTYPE);
    if r.securityGroupID.Some? {
      out := out.(securityGroupID := r.securityGroupID.value);
    }
    if r.destination.Some? {
      var d := ConvertPrototype(r.destination.value);
      out := out.(destination := d);
    }
    if r.source.Some? {
      var s := ConvertPrototype(r.source.value);
      out := out.(source := s);
    }
  }

  method ConvertSecurityGroup(g: V2.SecurityGroup) returns (out: V3.SecurityGroupSource)
    ensures out == SecurityGroupUp(g)
  {
    out := V3.NO_SECURITY_GROUP;
    if Has(g.id) {
      out := out.(kind := Reference, reference := out.reference.(id := g.id.value));
      if g.name.Some? {
        out := out.(reference := out.reference.(name := g.name.value));
      }
      return;
    }
    out := out.(kind := Provision);
    if g.name.Some? {
      out := out.(provision := out.provision.(name := g.name.value));
    }
    var tags := AppendNonNil(Elems(g.tags));
    out := out.(provision := out.provision.(tags := Appended(tags)));
    var kept := AppendNonNil(Elems(g.rules));
    var rules := [];
    var i := 0;
    while i < |kept|
      invariant 0 <= i <= |kept|
      invariant |rules| == i && forall k :: 0 <= k < i ==> rules[k] == RuleUp(kept[k])
    {
      var rule := ConvertRule(kept[i]);
      rules := rules + [rule];
      i := i + 1;
    }
    assert rules == Map(RuleUp, kept);
    out := out.(provision := out.provision.(rules := Appended(rules)));
  }

  method ConvertLoadBalancer(b: V2.LoadBalancer) returns (out: V3.LoadBalancerSource)
    ensures out == LoadBalancerUp(b)
  {
    out := V3.NO_LOAD_BALANCER;
    if HasProvisionData(b) || (b.name != "" && (b.id.None? || b.id.value == "")) {
      var p := V3.NO_LB_PROVISION.(name := b.name);
      if b.isPublic.Some? {
        p := p.(kind := if b.isPublic.value then Public else Private);
      }
      if Elems(b.listeners) != [] {
        var listeners := ConvertEach(ListenerUp, Elems(b.listeners));
        p := p.(listeners := Some(listeners));
      }
      if Elems(b.pools) != [] {
        var pools := ConvertEach(PoolUp, Elems(b.pools));
        p := p.(pools := Some(pools));
      }
      if Elems(b.securityGroups) != [] {
        var groups := ConvertEach(ResourceUp, Elems(b.securityGroups));
        p := p.(securityGroups := Some(groups));
      }
      if Elems(b.subnets) != [] {
        var subnets := ConvertEach(ResourceUp, Elems(b.subnets));
        p := p.(subnets := Some(subnets));
      }
      out := out.(kind := Provision, provision := p);
      return;
    }
    if Has(b.id) {
      out := out.(kind := Reference, reference := out.reference.(id := b.id.value));
      if b.name != "" {
        out := out.(reference := out.reference.(name := b.name));
      }
      return;
    }
  }

  method ConvertSecurityGroups(input: seq<V2.SecurityGroup>) returns (out: seq<V3.SecurityGroupSource>)
    ensures out == Map(SecurityGroupUp, input)
  {
    out := [];
    for i := 0 to |input|
      invariant |out| == i && forall k :: 0 <= k < i ==> out[k] == SecurityGroupUp(input[k])
    {
      var g := ConvertSecurityGroup(input[i]);
      out := out + [g];
    }
  }

  method ConvertSubnets(input: seq<V2.Subnet>) returns (out: seq<V3.SubnetSource>)
    ensures out == Map(SubnetUp, input)
  {
    out := [];
    for i := 0 to |input|
      invariant |out| == i && forall k :: 0 <= k < i ==> out[k] == SubnetUp(input[k])
    {
      var s := ConvertSubnet(input[i]);
      out := out + [s];
    }
  }

  method ConvertLoadBalancers(input: seq<V2.LoadBalancer>) returns (out: seq<V3.LoadBalancerSource>)
    ensures out == Map(LoadBalancerUp, input)
  {
    out := [];
    for i := 0 to |input|
      invariant |out| == i && forall k :: 0 <= k < i ==> out[k] == LoadBalancerUp(input[k])
    {
      var b := ConvertLoadBalancer(input[i]);
      out := out + [b];
    }
  }

  method ConvertCos(c: V2.CosInstance) returns (out: V3.COSSource)
    ensures out == CosUp(Some(c))
  {
    out := V3.NO_COS.(bucketName := c.bucketName, bucketRegion := c.bucketRegion, provisionName := c.name);
    if c.name != "" || c.bucketName != "" || c.bucketRegion != "" {
      out := out.(kind := Provision);
    }
  }

  /** The generated part of the spec converter: endpoint, zone and the three lists. */
  method AutoConvertClusterSpec(s: V2.ClusterSpec) returns (out: V3.ClusterSpec)
    ensures out == V3.ClusterSpec(s.endpoint, NoTopology, V3.NO_WORKSPACE, V3.NO_NETWORK, Deref(s.zone), V3.NO_GROUP,
                                  V3.NO_GATEWAY, V3.NO_VPC, MapSlice(SubnetUp, s.vpcSubnets),
                                  MapSlice(LoadBalancerUp, s.loadBalancers),
                                  MapSlice(SecurityGroupUp, s.vpcSecurityGroups), V3.NO_COS, "")
  {
    var subnets, groups, balancers := None, None, None;
    if s.vpcSubnets.Some? {
      var l := ConvertSubnets(s.vpcSubnets.value);
      subnets := Some(l);
    }
    if s.vpcSecurityGroups.Some? {
      var l := ConvertSecurityGroups(s.vpcSecurityGroups.value);
      groups := Some(l);
    }
    if s.loadBalancers.Some? {
      var l := ConvertLoadBalancers(s.loadBalancers.value);
      balancers := Some(l);
    }
    out := V3.ClusterSpec(s.endpoint, NoTopology, V3.NO_WORKSPACE, V3.NO_NETWORK, Deref(s.zone), V3.NO_GROUP,
                          V3.NO_GATEWAY, V3.NO_VPC, subnets, balancers, groups, V3.NO_COS, "");
  }

  /** The generated part, then workspace, resource group, network, transit gateway, VPC, COS and
      ignition in the source's order. */
  method ConvertClusterSpec(s: V2.ClusterSpec) returns (out: V3.ClusterSpec)
    ensures out == Up(s)
  {
    out := AutoConvertClusterSpec(s);
    var workspace := ConvertWorkspace(s);
    var network := ConvertNetwork(s.network, s.dhcpServer);
    out := out.(workspace := workspace, resourceGroup := GroupUp(s.resourceGroup), network := network);
    var gateway := V3.NO_GATEWAY;
    if s.transitGateway.Some? {
      gateway := ConvertTransitGateway(s.transitGateway.value);
    }
    var vpc := V3.NO_VPC.(kind := Provision);
    if s.vpc.Some? {
      vpc := ConvertVPC(s.vpc.value);
    }
    var cos := V3.NO_COS;
    if s.cosInstance.Some? {
      cos := ConvertCos(s.cosInstance.value);
    }
    out := out.(transitGateway := gateway, vpc := vpc, cosInstance := cos,
                ignitionVersion := Deref(s.ignitionVersion));
  }
}
