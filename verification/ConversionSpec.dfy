/** What the v1beta2 <-> v1beta3 cluster spec converters compute, stated as expressions on values.
    `...Up` goes to the hub version v1beta3, `...Down` comes back. The converters themselves are
    the methods of `ConvertUp` and `ConvertDown`. */
module ConversionSpec {
  import opened Common
  import opened ApiShared
  import V2 = V1beta2
  import V3 = V1beta3

  // ---- Identifiers ----

  function IdentifierUp(id: Option<string>, name: Option<string>): V3.Identifier {
    V3.Identifier(Deref(id), Deref(name))
  }

  function RefDown(r: V3.Identifier): V2.ResourceRef {
    V2.ResourceRef(Ptr(r.id), Ptr(r.name), None)
  }

  // ---- Workspace and resource group ----

  function WorkspaceUp(s: V2.ClusterSpec): V3.WorkspaceSource {
    if s.serviceInstance.None? && s.serviceInstanceID == "" then V3.NO_WORKSPACE.(kind := Provision)
    else
      var ref := if s.serviceInstance.Some? then IdentifierUp(s.serviceInstance.value.id, s.serviceInstance.value.name)
                 else V3.NO_ID;
      V3.WorkspaceSource(Reference, if s.serviceInstanceID != "" then ref.(id := s.serviceInstanceID) else ref, "")
  }

  function WorkspaceDown(w: V3.WorkspaceSource): Option<V2.ResourceRef> {
    if w.kind == Reference || w.reference != V3.NO_ID then Some(RefDown(w.reference)) else None
  }

  function GroupUp(g: Option<V2.ResourceRef>): V3.ResourceGroupSource {
    if g.None? then V3.NO_GROUP else V3.ResourceGroupSource(Reference, IdentifierUp(g.value.id, g.value.name))
  }

  function GroupDown(g: V3.ResourceGroupSource): Option<V2.ResourceRef> {
    if g.kind == Reference || g.reference != V3.NO_ID then Some(RefDown(g.reference)) else None
  }

  // ---- Network ----

  function SnatUp(b: Option<bool>): SnatPolicy {
    if b.None? then NoSnat else if b.value then Enabled else Disabled
  }

  function SnatDown(p: SnatPolicy): Option<bool> {
    if p == NoSnat then None else Some(p == Enabled)
  }

  function DHCPUp(d: V2.DHCPServer): V3.DHCPServer {
    V3.DHCPServer(Deref(d.name), Deref(d.cidr), Deref(d.dnsServer), SnatUp(d.snat))
  }

  function DHCPDown(d: V3.DHCPServer): V2.DHCPServer {
    V2.DHCPServer(Ptr(d.cidr), Ptr(d.dnsServer), Ptr(d.name), None, SnatDown(d.snat))
  }

  function NetworkUp(n: V2.ResourceRef, d: Option<V2.DHCPServer>): V3.NetworkSource {
    if Has(n.id) || Has(n.name) then V3.NetworkSource(Reference, IdentifierUp(n.id, n.name), V3.NO_DHCP)
    else if d.None? then V3.NO_NETWORK
    else V3.NetworkSource(Provision, V3.NO_ID, DHCPUp(d.value))
  }

  function NetworkDown(n: V3.NetworkSource): V2.ResourceRef {
    if n.kind == Reference then RefDown(n.reference) else V2.NO_REF
  }

  function NetworkDHCPDown(n: V3.NetworkSource): Option<V2.DHCPServer> {
    if n.kind == Provision then Some(DHCPDown(n.dhcpServer)) else None
  }

  // ---- Transit gateway ----

  function RoutingUp(b: Option<bool>): Routing {
    if b.None? then NoRouting else if b.value then Global else Local
  }

  function RoutingDown(r: Routing): Option<bool> {
    if r == NoRouting then None else Some(r == Global)
  }

  function GatewayUp(t: V2.TransitGateway): V3.TransitGatewaySource {
    if Has(t.id) || (t.globalRouting.None? && Has(t.name)) then
      V3.NO_GATEWAY.(kind := Reference, reference := IdentifierUp(t.id, t.name))
    else if t.globalRouting.Some? then
      V3.NO_GATEWAY.(kind := Provision, provisionName := Deref(t.name), globalRouting := RoutingUp(t.globalRouting))
    else
      V3.NO_GATEWAY
  }

  function GatewayDown(t: V3.TransitGatewaySource): V2.TransitGateway {
    if t.kind == Reference || (t.kind == NoType && t.reference != V3.NO_ID) then
      V2.TransitGateway(Ptr(t.reference.name), Ptr(t.reference.id), None)
    else if t.kind == Provision || t.kind == NoType then
      V2.TransitGateway(Ptr(t.provisionName), None, RoutingDown(t.globalRouting))
    else
      V2.TransitGateway(None, None, None)
  }

  function GatewayPtrUp(t: Option<V2.TransitGateway>): V3.TransitGatewaySource {
    if t.None? then V3.NO_GATEWAY else GatewayUp(t.value)
  }

  function GatewayPtrDown(t: V3.TransitGatewaySource): Option<V2.TransitGateway> {
    var d := GatewayDown(t);
    if d == V2.TransitGateway(None, None, None) then None else Some(d)
  }

  // ---- VPC and subnets ----

  function VPCUp(v: Option<V2.VPCRef>): V3.VPCSource {
    if v.None? then V3.NO_VPC.(kind := Provision)
    else if Has(v.value.id) then
      V3.VPCSource(Reference, Deref(v.value.region), IdentifierUp(v.value.id, v.value.name), "")
    else
      V3.VPCSource(Provision, Deref(v.value.region), V3.NO_ID, Deref(v.value.name))
  }

  function VPCSourceDown(v: V3.VPCSource): V2.VPCRef {
    V2.VPCRef(Ptr(v.reference.id),
              if v.kind == Reference || v.provisionName == "" then Ptr(v.reference.name) else Ptr(v.provisionName),
              Ptr(v.region))
  }

  function VPCDown(v: V3.VPCSource): Option<V2.VPCRef> {
    var d := VPCSourceDown(v);
    var r := if d == V2.VPCRef(None, None, None) then d.(name := Ptr(v.provisionName)) else d;
    if r == V2.VPCRef(None, None, None) then None else Some(r)
  }

  function SubnetUp(s: V2.Subnet): V3.SubnetSource {
    if Has(s.id) then V3.SubnetSource(Reference, Deref(s.zone), IdentifierUp(s.id, s.name), "")
    else V3.SubnetSource(Provision, Deref(s.zone), V3.NO_ID, Deref(s.name))
  }

  function SubnetDown(s: V3.SubnetSource): V2.Subnet {
    match s.kind
    case Reference => V2.Subnet(None, Ptr(s.reference.name), Ptr(s.reference.id), Ptr(s.zone))
    case Provision => V2.Subnet(None, Ptr(s.provisionName), None, Ptr(s.zone))
    case _ =>
      V2.Subnet(None, if s.reference == V3.NO_ID then Ptr(s.provisionName) else Ptr(s.reference.name),
                Ptr(s.reference.id), Ptr(s.zone))
  }

  // ---- Security groups ----

  function RemoteUp(r: V2.Remote): V3.Remote {
    V3.Remote(Deref(r.cidrSubnetName), Deref(r.address), r.remoteType, Deref(r.securityGroupName))
  }

  function RemoteDown(r: V3.Remote): V2.Remote {
    V2.Remote(Ptr(r.cidrSubnetName), Ptr(r.address), r.remoteType, Ptr(r.securityGroupName))
  }

  function PrototypeUp(p: V2.Prototype): V3.Prototype {
    V3.Prototype(p.icmpCode, p.icmpType, if p.portRange.Some? then p.portRange.value else PortRange(0, 0),
                 p.protocol, Appended(Map(RemoteUp, Elems(p.remotes))))
  }

  function PrototypeDown(p: V3.Prototype): V2.Prototype {
    V2.Prototype(p.icmpCode, p.icmpType, if p.portRange == PortRange(0, 0) then None else Some(p.portRange),
                 p.protocol, Appended(Map(RemoteDown, Elems(p.remotes))))
  }

  function PrototypePtrUp(p: Option<V2.Prototype>): V3.Prototype {
    if p.None? then V3.NO_PROTOTYPE else PrototypeUp(p.value)
  }

  function RuleUp(r: V2.Rule): V3.Rule {
    V3.Rule(PrototypePtrUp(r.destination), r.direction, Deref(r.securityGroupID), PrototypePtrUp(r.source))
  }

  function RuleDown(r: V3.Rule): V2.Rule {
    V2.Rule(if r.direction == Outbound then Some(PrototypeDown(r.destination)) else None,
            r.direction, Ptr(r.securityGroupID),
            if r.direction == Inbound then Some(PrototypeDown(r.source)) else None)
  }

  function RulePtrDown(r: V3.Rule): Option<V2.Rule> { Some(RuleDown(r)) }

  function SecurityGroupUp(g: V2.SecurityGroup): V3.SecurityGroupSource {
    if Has(g.id) then
      V3.SecurityGroupSource(Reference, IdentifierUp(g.id, g.name), V3.NO_SG_PROVISION)
    else
      V3.SecurityGroupSource(Provision, V3.NO_ID,
                             V3.SecurityGroupProvision(Deref(g.name),
                                                       Appended(Map(RuleUp, NonNil(Elems(g.rules)))),
                                                       Appended(NonNil(Elems(g.tags)))))
  }

  function TagPtr(t: string): Option<string> { Some(t) }

  function SecurityGroupDown(g: V3.SecurityGroupSource): V2.SecurityGroup {
    match g.kind
    case Reference => V2.SecurityGroup(Ptr(g.reference.id), Ptr(g.reference.name), None, None)
    case Provision => V2.SecurityGroup(None, Ptr(g.provision.name),
                                       Appended(Map(RulePtrDown, Elems(g.provision.rules))),
                                       Appended(Map(TagPtr, Elems(g.provision.tags))))
    case _ => V2.SecurityGroup(None, None, None, None)
  }

  // ---- Load balancers ----

  function ListenerUp(l: V2.Listener): V3.Listener {
    V3.Listener(Deref(l.defaultPoolName), l.port, Deref(l.protocol), l.selector)
  }

  function ListenerDown(l: V3.Listener): V2.Listener {
    V2.Listener(Ptr(l.defaultPoolName), l.port, Ptr(l.protocol), l.selector)
  }

  function PoolUp(p: V2.BackendPool): V3.BackendPool {
    var h := p.healthMonitor;
    V3.BackendPool(Deref(p.name), p.algorithm,
                   V3.HealthMonitor(h.delay, h.retries, if h.port.Some? then h.port.value else 0, h.timeout, h.kind,
                                    Deref(h.urlPath)),
                   p.protocol)
  }

  function PoolDown(p: V3.BackendPool): V2.BackendPool {
    var h := p.healthMonitor;
    V2.BackendPool(Ptr(p.name), p.algorithm,
                   V2.HealthMonitor(h.delay, h.retries, if h.port == 0 then None else Some(h.port), h.timeout, h.kind,
                                    Ptr(h.urlPath)),
                   p.protocol)
  }

  function ResourceUp(r: V2.VPCResource): V3.Identifier { IdentifierUp(r.id, r.name) }

  function ResourceDown(r: V3.Identifier): V2.VPCResource { V2.VPCResource(Ptr(r.id), Ptr(r.name)) }

  function BalancerTypeUp(b: Option<bool>): BalancerType {
    if b.None? then NoBalancerType else if b.value then Public else Private
  }

  function BalancerTypeDown(t: BalancerType): Option<bool> {
    if t == NoBalancerType then None else Some(t == Public)
  }

  predicate HasProvisionData(b: V2.LoadBalancer) {
    b.isPublic.Some? || Elems(b.listeners) != [] || Elems(b.pools) != []
    || Elems(b.securityGroups) != [] || Elems(b.subnets) != []
  }

  function LoadBalancerUp(b: V2.LoadBalancer): V3.LoadBalancerSource {
    if HasProvisionData(b) || (b.name != "" && !Has(b.id)) then
      V3.LoadBalancerSource(Provision, V3.NO_ID,
                            V3.LoadBalancerProvision(b.name, BalancerTypeUp(b.isPublic),
                                                     Appended(Map(ListenerUp, Elems(b.listeners))),
                                                     Appended(Map(PoolUp, Elems(b.pools))),
                                                     Appended(Map(ResourceUp, Elems(b.securityGroups))),
                                                     Appended(Map(ResourceUp, Elems(b.subnets)))))
    else if Has(b.id) then
      V3.LoadBalancerSource(Reference, V3.Identifier(b.id.value, b.name), V3.NO_LB_PROVISION)
    else
      V3.NO_LOAD_BALANCER
  }

  function LoadBalancerDown(b: V3.LoadBalancerSource): V2.LoadBalancer {
    match b.kind
    case Reference => V2.LoadBalancer(b.reference.name, Ptr(b.reference.id), None, None, None, None, None)
    case Provision =>
      V2.LoadBalancer(b.provision.name, None, BalancerTypeDown(b.provision.kind),
                      Appended(Map(ListenerDown, Elems(b.provision.listeners))),
                      Appended(Map(PoolDown, Elems(b.provision.pools))),
                      Appended(Map(ResourceDown, Elems(b.provision.securityGroups))),
                      Appended(Map(ResourceDown, Elems(b.provision.subnets))))
    case _ => V2.LoadBalancer("", None, None, None, None, None, None)
  }

  // ---- COS ----

  function CosUp(c: Option<V2.CosInstance>): V3.COSSource {
    if c.None? then V3.NO_COS
    else
      V3.COSSource(if c.value == V2.CosInstance("", "", "") then NoType else Provision,
                   c.value.bucketName, c.value.bucketRegion, V3.NO_ID, c.value.name)
  }

  function CosDown(c: V3.COSSource): Option<V2.CosInstance> {
    if c.bucketName == "" && c.bucketRegion == "" && c.kind == NoType then None
    else Some(V2.CosInstance(if c.kind == Reference then "" else c.provisionName, c.bucketName, c.bucketRegion))
  }

  // ---- The cluster spec ----

  /** v1beta2 to v1beta3. The topology is not part of the spec converter. */
  function Up(s: V2.ClusterSpec): V3.ClusterSpec {
    V3.ClusterSpec(
      s.endpoint, NoTopology, WorkspaceUp(s), NetworkUp(s.network, s.dhcpServer), Deref(s.zone),
      GroupUp(s.resourceGroup), GatewayPtrUp(s.transitGateway), VPCUp(s.vpc),
      MapSlice(SubnetUp, s.vpcSubnets), MapSlice(LoadBalancerUp, s.loadBalancers),
      MapSlice(SecurityGroupUp, s.vpcSecurityGroups), CosUp(s.cosInstance), Deref(s.ignitionVersion))
  }

  /** v1beta3 to v1beta2. */
  function Down(s: V3.ClusterSpec): V2.ClusterSpec {
    V2.ClusterSpec(
      s.workspace.reference.id, NetworkDown(s.network), NetworkDHCPDown(s.network), s.endpoint,
      WorkspaceDown(s.workspace), Ptr(s.zone), GroupDown(s.resourceGroup), VPCDown(s.vpc),
      MapSlice(SubnetDown, s.vpcSubnets), MapSlice(SecurityGroupDown, s.vpcSecurityGroups),
      GatewayPtrDown(s.transitGateway), MapSlice(LoadBalancerDown, s.loadBalancers),
      CosDown(s.cosInstance), Ptr(s.ignitionVersion))
  }
}
