/** The v1beta3 -> v1beta2 cluster spec converters, step by step, from a zero `out`. */
module ConvertDown {
  import opened Common
  import opened ApiShared
  import opened ConversionSpec
  import V2 = V1beta2
  import V3 = V1beta3

  method ConvertTransitGateway(t: V3.TransitGatewaySource) returns (out: V2.TransitGateway)
    ensures out == GatewayDown(t)
  {
    out := V2.TransitGateway(None, None, None);
    if t.kind == NoType {
      if t.reference.id != "" || t.reference.name != "" {
        if t.reference.id != "" { out := out.(id := Some(t.reference.id)); }
        if t.reference.name != "" { out := out.(name := Some(t.reference.name)); }
        return;
      }
      if t.provisionName != "" || t.globalRouting != NoRouting {
        if t.provisionName != "" { out := out.(name := Some(t.provisionName)); }
        if t.globalRouting != NoRouting { out := out.(globalRouting := Some(t.globalRouting == Global)); }
        return;
      }
      return;
    }
    match t.kind
    case Reference =>
      if t.reference.id != "" { out := out.(id := Some(t.reference.id)); }
      if t.reference.name != "" { out := out.(name := Some(t.reference.name)); }
    case Provision =>
      if t.provisionName != "" { out := out.(name := Some(t.provisionName)); }
      if t.globalRouting != NoRouting { out := out.(globalRouting := Some(t.globalRouting == Global)); }
    case _ =>
  }

  /** The VPC converter together with the fallback block of the spec converter. */
  method ConvertVPC(v: V3.VPCSource) returns (out: Option<V2.VPCRef>)
    ensures out == VPCDown(v)
  {
    out := None;
    if v.kind != NoType || v.reference.id != "" || v.reference.name != "" || v.provisionName != "" || v.region != "" {
      var r := V2.VPCRef(None, None, None);
      if v.kind == Reference {
        if v.reference.id != "" { r := r.(id := Some(v.reference.id)); }
        if v.reference.name != "" { r := r.(name := Some(v.reference.name)); }
      } else {
        if v.reference.id != "" { r := r.(id := Some(v.reference.id)); }
        if v.provisionName != "" { r := r.(name := Some(v.provisionName)); }
        if r.name.None? && v.reference.name != "" { r := r.(name := Some(v.reference.name)); }
      }
      if v.region != "" { r := r.(region := Some(v.region)); }
      if r.id.None? && r.name.None? && r.region.None? {
        if v.reference.id != "" { r := r.(id := Some(v.reference.id)); }
        if v.reference.name != "" { r := r.(name := Some(v.reference.name)); }
        if v.provisionName != "" && r.name.None? { r := r.(name := Some(v.provisionName)); }
        if v.region != "" { r := r.(region := Some(v.region)); }
      }
      out := Some(r);
      if r.id.None? && r.name.None? && r.region.None? { out := None; }
    }
  }

  method ConvertSubnet(s: V3.SubnetSource) returns (out: V2.Subnet)
    ensures out == SubnetDown(s)
  {
    out := V2.Subnet(None, None, None, None);
    if s.zone != "" { out := out.(zone := Some(s.zone)); }
    match s.kind
    case Reference =>
      if s.reference.id != "" { out := out.(id := Some(s.reference.id)); }
      if s.reference.name != "" { out := out.(name := Some(s.reference.name)); }
    case Provision =>
      if s.provisionName != "" { out := out.(name := Some(s.provisionName)); }
    case _ =>
      if s.reference.id != "" {
        out := out.(id := Some(s.reference.id));
        if s.reference.name != "" { out := out.(name := Some(s.reference.name)); }
      } else if s.reference.name != "" {
        out := out.(name := Some(s.reference.name));
      } else if s.provisionName != "" {
        out := out.(name := Some(s.provisionName));
      }
  }

  method ConvertSubnets(input: seq<V3.SubnetSource>) returns (out: seq<V2.Subnet>)
    ensures out == Map(SubnetDown, input)
  {
    out := [];
    for i := 0 to |input|
      invariant |out| == i && forall k :: 0 <= k < i ==> out[k] == SubnetDown(input[k])
    {
      var s := ConvertSubnet(input[i]);
      out := out + [s];
    }
  }

  method ConvertPrototype(p: V3.Prototype) returns (out: V2.Prototype)
    ensures out == PrototypeDown(p)
  {
    out := V2.Prototype(p.icmpCode, p.icmpType, None, p.protocol, None);
    if p.portRange.maximumPort != 0 || p.portRange.minimumPort != 0 {
      out := out.(portRange := Some(PortRange(p.portRange.maximumPort, p.portRange.minimumPort)));
    }
    var remotes := ConvertEach(RemoteDown, Elems(p.remotes));
    out := out.(remotes := Appended(remotes));
  }

  method ConvertRule(r: V3.Rule) returns (out: V2.Rule)
    ensures out == RuleDown(r)
  {
    out := V2.Rule(None, r.direction, None, None);
    if r.securityGroupID != "" { out := out.(securityGroupID := Some(r.securityGroupID)); }
    if r.direction == Outbound {
      var d := ConvertPrototype(r.destination);
      out := out.(destination := Some(d));
    }
    if r.direction == Inbound {
      var s := ConvertPrototype(r.source);
      out := out.(source := Some(s));
    }
  }

  method ConvertSecurityGroup(g: V3.SecurityGroupSource) returns (out: V2.SecurityGroup)
    ensures out == SecurityGroupDown(g)
  {
    out := V2.SecurityGroup(None, None, None, None);
    match g.kind
    case Reference =>
      if g.reference.id != "" { out := out.(id := Some(g.reference.id)); }
      if g.reference.name != "" { out := out.(name := Some(g.reference.name)); }
    case Provision =>
      if g.provision.name != "" { out := out.(name := Some(g.provision.name)); }
      var tags := ConvertEach(TagPtr, Elems(g.provision.tags));
      out := out.(tags := Appended(tags));
      var input := Elems(g.provision.rules);
      var rules := [];
      for i := 0 to |input|
        invariant |rules| == i && forall k :: 0 <= k < i ==> rules[k] == RulePtrDown(input[k])
      {
        var rule := ConvertRule(input[i]);
        rules := rules + [Some(rule)];
      }
      assert rules == Map(RulePtrDown, input);
      out := out.(rules := Appended(rules));
    case _ =>
  }

  method ConvertLoadBalancer(b: V3.LoadBalancerSource) returns (out: V2.LoadBalancer)
    ensures out == LoadBalancerDown(b)
  {
    out := V2.LoadBalancer("", None, None, None, None, None, None);
    match b.kind
    case Reference =>
      if b.reference.id != "" { out := out.(id := Some(b.reference.id)); }
      if b.reference.name != "" { out := out.(name := b.reference.name); }
    case Provision =>
      var p := b.provision;
      if p.name != "" { out := out.(name := p.name); }
      if p.kind != NoBalancerType { out := out.(isPublic := Some(p.kind == Public)); }
      if Elems(p.listeners) != [] {
        var listeners := ConvertEach(ListenerDown, Elems(p.listeners));
        out := out.(listeners := Some(listeners));
      }
      if Elems(p.pools) != [] {
        var pools := ConvertEach(PoolDown, Elems(p.pools));
        out := out.(pools := Some(pools));
      }
      if Elems(p.securityGroups) != [] {
        var groups := ConvertEach(ResourceDown, Elems(p.securityGroups));
        out := out.(securityGroups := Some(groups));
      }
      if Elems(p.subnets) != [] {
        var subnets := ConvertEach(ResourceDown, Elems(p.subnets));
        out := out.(subnets := Some(subnets));
      }
    case _ =>
  }

  method ConvertSecurityGroups(input: seq<V3.SecurityGroupSource>) returns (out: seq<V2.SecurityGroup>)
    ensures out == Map(SecurityGroupDown, input)
  {
    out := [];
    for i := 0 to |input|
      invariant |out| == i && forall k :: 0 <= k < i ==> out[k] == SecurityGroupDown(input[k])
    {
      var g := ConvertSecurityGroup(input[i]);
      out := out + [g];
    }
  }

  method ConvertLoadBalancers(input: seq<V3.LoadBalancerSource>) returns (out: seq<V2.LoadBalancer>)
    ensures out == Map(LoadBalancerDown, input)
  {
    out := [];
    for i := 0 to |input|
      invariant |out| == i && forall k :: 0 <= k < i ==> out[k] == LoadBalancerDown(input[k])
    {
      var b := ConvertLoadBalancer(input[i]);
      out := out + [b];
    }
  }

  /** An existing resource, when the source says so or carries an identifier. */
  method ConvertReference(kind: SourceType, r: V3.Identifier) returns (out: Option<V2.ResourceRef>)
    ensures out == if kind == Reference || r != V3.NO_ID then Some(RefDown(r)) else None
  {
    out := None;
    if kind == Reference || r.id != "" || r.name != "" {
      var ref := V2.NO_REF;
      if r.id != "" { ref := ref.(id := Some(r.id)); }
      if r.name != "" { ref := ref.(name := Some(r.name)); }
      out := Some(ref);
    }
  }

  method ConvertDHCPServer(d: V3.DHCPServer) returns (out: V2.DHCPServer)
    ensures out == DHCPDown(d)
  {
    out := V2.DHCPServer(None, None, None, None, None);
    if d.cidr != "" { out := out.(cidr := Some(d.cidr)); }
    if d.dnsServer != "" { out := out.(dnsServer := Some(d.dnsServer)); }
    if d.name != "" { out := out.(name := Some(d.name)); }
    if d.snat != NoSnat { out := out.(snat := Some(d.snat == Enabled)); }
  }

  method ConvertNetwork(n: V3.NetworkSource) returns (ref: V2.ResourceRef, dhcp: Option<V2.DHCPServer>)
    ensures ref == NetworkDown(n) && dhcp == NetworkDHCPDown(n)
  {
    ref, dhcp := V2.NO_REF, None;
    match n.kind
    case Reference =>
      if n.reference.id != "" { ref := ref.(id := Some(n.reference.id)); }
      if n.reference.name != "" { ref := ref.(name := Some(n.reference.name)); }
    case Provision =>
      var server := ConvertDHCPServer(n.dhcpServer);
      dhcp := Some(server);
    case _ =>
  }

  method ConvertCos(c: V3.COSSource) returns (out: Option<V2.CosInstance>)
    ensures out == CosDown(c)
  {
    out := None;
    if c.bucketName != "" || c.bucketRegion != "" || c.kind != NoType {
      var cos := V2.CosInstance("", c.bucketName, c.bucketRegion);
      match c.kind {
        case Provision => cos := cos.(name := c.provisionName);
        case Reference =>
        case _ => cos := cos.(name := c.provisionName);
      }
      out := Some(cos);
    }
  }

  /** The generated part of the spec converter: endpoint, zone and the three lists. */
  method AutoConvertClusterSpec(s: V3.ClusterSpec) returns (out: V2.ClusterSpec)
    ensures out == V2.ClusterSpec("", V2.NO_REF, None, s.endpoint, None, Some(s.zone), None, None,
                                  MapSlice(SubnetDown, s.vpcSubnets),
                                  MapSlice(SecurityGroupDown, s.vpcSecurityGroups), None,
                                  MapSlice(LoadBalancerDown, s.loadBalancers), None, None)
  {
    var subnets, groups, balancers := None, None, None;
    if s.vpcSubnets.Some? {
      var l := ConvertSubnets(s.vpcSubnets.value);
      subnets := Some(l);
    }
    if s.loadBalancers.Some? {
      var l := ConvertLoadBalancers(s.loadBalancers.value);
      balancers := Some(l);
    }
    if s.vpcSecurityGroups.Some? {
      var l := ConvertSecurityGroups(s.vpcSecurityGroups.value);
      groups := Some(l);
    }
    out := V2.ClusterSpec("", V2.NO_REF, None, s.endpoint, None, Some(s.zone), None, None, subnets, groups, None,
                          balancers, None, None);
  }

  /** Set only when one of its fields is. */
  method ConvertTransitGatewayField(g: V3.TransitGatewaySource) returns (out: Option<V2.TransitGateway>)
    ensures out == GatewayPtrDown(g)
  {
    out := None;
    var gateway := ConvertTransitGateway(g);
    if gateway.id.Some? || gateway.name.Some? || gateway.globalRouting.Some? {
      out := Some(gateway);
    }
  }

  method ConvertClusterSpec(s: V3.ClusterSpec) returns (out: V2.ClusterSpec)
    ensures out == Down(s)
  {
    out := AutoConvertClusterSpec(s);
    if s.zone == "" { out := out.(zone := None); }
    var workspace := ConvertReference(s.workspace.kind, s.workspace.reference);
    var group := ConvertReference(s.resourceGroup.kind, s.resourceGroup.reference);
    var network, dhcp := ConvertNetwork(s.network);
    out := out.(serviceInstance := workspace, serviceInstanceID := s.workspace.reference.id,
                resourceGroup := group, network := network, dhcpServer := dhcp);
    var gateway := ConvertTransitGatewayField(s.transitGateway);
    var vpc := ConvertVPC(s.vpc);
    var cos := ConvertCos(s.cosInstance);
    out := out.(transitGateway := gateway, vpc := vpc, cosInstance := cos,
                ignitionVersion := if s.ignitionVersion == "" then None else Some(s.ignitionVersion));
  }
}
