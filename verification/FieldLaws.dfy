/** Where each field of a cluster spec lands and what decides the type of each union, on every input of
    both converters. The relations below know nothing of the converters. */
module FieldLaws {
  import opened Common
  import opened ApiShared
  import opened ConversionSpec
  import V2 = V1beta2
  import V3 = V1beta3

  // ---- Values ----

  /** A pointer goes to its value, nil to the zero value. */
  predicate Carries(p: Option<string>, s: string) {
    if p.Some? then s == p.value else s == ""
  }

  /** A value goes to a pointer, the zero value to nil. */
  predicate Becomes(s: string, p: Option<string>) {
    if s == "" then p.None? else p == Some(s)
  }

  predicate RefCarries(r: V2.ResourceRef, i: V3.Identifier) { Carries(r.id, i.id) && Carries(r.name, i.name) }

  predicate IdBecomes(i: V3.Identifier, r: V2.ResourceRef) {
    Becomes(i.id, r.id) && Becomes(i.name, r.name) && r.regEx.None?
  }

  predicate NoId(i: V3.Identifier) { i.id == "" && i.name == "" }

  /** Two lists match element by element. */
  ghost predicate EachMatches<A, B>(a: seq<A>, b: seq<B>, m: (A, B) -> bool) {
    |a| == |b| && forall k :: 0 <= k < |a| ==> m(a[k], b[k])
  }

  /** A list built by appending: nil when there is nothing to append. */
  ghost predicate AppendsMatch<A, B>(a: seq<A>, b: Slice<B>, m: (A, B) -> bool) {
    (b.None? <==> a == []) && EachMatches(a, Elems(b), m)
  }

  /** A list that keeps nil apart from empty. */
  ghost predicate ListMatches<A, B>(a: Slice<A>, b: Slice<B>, m: (A, B) -> bool) {
    (a.None? <==> b.None?) && EachMatches(Elems(a), Elems(b), m)
  }

  lemma MapMatches<A, B>(f: A -> B, s: seq<A>, m: (A, B) -> bool)
    requires forall x :: x in s ==> m(x, f(x))
    ensures EachMatches(s, Map(f, s), m)
    ensures AppendsMatch(s, Appended(Map(f, s)), m)
  {
    assert Elems(Appended(Map(f, s))) == Map(f, s);
  }

  lemma MapSliceMatches<A, B>(f: A -> B, s: Slice<A>, m: (A, B) -> bool)
    requires forall x :: x in Elems(s) ==> m(x, f(x))
    ensures ListMatches(s, MapSlice(f, s), m)
  {
    MapMatches(f, Elems(s), m);
  }

  // ---- Up: from v1beta2 ----

  predicate WorkspaceTaken(s: V2.ClusterSpec, w: V3.WorkspaceSource) {
    && w.provisionName == ""
    && (w.kind == Reference <==> s.serviceInstance.Some? || s.serviceInstanceID != "")
    && (w.kind != Reference ==> w.kind == Provision && NoId(w.reference))
    && (s.serviceInstanceID != "" ==> w.reference.id == s.serviceInstanceID)
    && (s.serviceInstanceID == "" && s.serviceInstance.Some? ==> Carries(s.serviceInstance.value.id, w.reference.id))
    && (if s.serviceInstance.Some? then Carries(s.serviceInstance.value.name, w.reference.name) else w.reference.name == "")
  }

  predicate GroupTaken(g: Option<V2.ResourceRef>, h: V3.ResourceGroupSource) {
    if g.Some? then h.kind == Reference && RefCarries(g.value, h.reference) else h.kind == NoType && NoId(h.reference)
  }

  predicate DHCPTaken(d: V2.DHCPServer, h: V3.DHCPServer) {
    && Carries(d.name, h.name) && Carries(d.cidr, h.cidr) && Carries(d.dnsServer, h.dnsServer)
    && (h.snat == NoSnat <==> d.snat.None?) && (h.snat == Enabled <==> d.snat == Some(true))
    && (h.snat == Disabled <==> d.snat == Some(false))
  }

  /** An identifier or name makes it a reference; without one, a DHCP server makes it a provision. */
  predicate NetworkTaken(n: V2.ResourceRef, d: Option<V2.DHCPServer>, h: V3.NetworkSource) {
    && (h.kind == Reference <==> Has(n.id) || Has(n.name))
    && (h.kind == Provision <==> !Has(n.id) && !Has(n.name) && d.Some?)
    && (h.kind in {NoType, Reference, Provision})
    && (h.kind == Reference ==> RefCarries(n, h.reference))
    && (h.kind != Reference ==> NoId(h.reference))
    && (if h.kind == Provision then DHCPTaken(d.value, h.dhcpServer) else h.dhcpServer == V3.DHCPServer("", "", "", NoSnat))
  }

  /** An identifier makes it a reference; else routing makes it a provision; else a name makes it a
      reference. */
  predicate GatewayTaken(t: Option<V2.TransitGateway>, h: V3.TransitGatewaySource) {
    && h.vpcConnection == h.powerVSConnection == V3.ConnectionSource(NoType, V3.Identifier("", ""), "")
    && (t.None? ==> h.kind == NoType)
    && (t.Some? ==>
        && (h.kind == Provision <==> !Has(t.value.id) && t.value.globalRouting.Some?)
        && (h.kind == Reference <==> Has(t.value.id) || (t.value.globalRouting.None? && Has(t.value.name)))
        && (h.kind == NoType <==> !Has(t.value.id) && t.value.globalRouting.None? && !Has(t.value.name)))
    && (h.kind == Reference ==> Carries(t.value.id, h.reference.id) && Carries(t.value.name, h.reference.name))
    && (h.kind != Reference ==> NoId(h.reference))
    && (h.kind == Provision ==>
        && Carries(t.value.name, h.provisionName)
        && h.globalRouting == (if t.value.globalRouting.value then Global else Local))
    && (h.kind != Provision ==> h.provisionName == "" && h.globalRouting == NoRouting)
  }

  predicate VPCTaken(v: Option<V2.VPCRef>, h: V3.VPCSource) {
    && (h.kind == Reference <==> v.Some? && Has(v.value.id))
    && (h.kind == Provision <==> !(v.Some? && Has(v.value.id)))
    && (if v.Some? then Carries(v.value.region, h.region) else h.region == "")
    && (h.kind == Reference ==>
        Carries(v.value.id, h.reference.id) && Carries(v.value.name, h.reference.name) && h.provisionName == "")
    && (h.kind == Provision ==>
        NoId(h.reference) && (if v.Some? then Carries(v.value.name, h.provisionName) else h.provisionName == ""))
  }

  predicate SubnetTaken(s: V2.Subnet, h: V3.SubnetSource) {
    && (h.kind == Reference <==> Has(s.id)) && (h.kind == Provision <==> !Has(s.id))
    && Carries(s.zone, h.zone)
    && (h.kind == Reference ==> Carries(s.id, h.reference.id) && Carries(s.name, h.reference.name) && h.provisionName == "")
    && (h.kind == Provision ==> NoId(h.reference) && Carries(s.name, h.provisionName))
  }

  predicate RemoteTaken(r: V2.Remote, h: V3.Remote) {
    && Carries(r.cidrSubnetName, h.cidrSubnetName) && Carries(r.address, h.address)
    && Carries(r.securityGroupName, h.securityGroupName) && h.remoteType == r.remoteType
  }

  ghost predicate PrototypeTaken(p: V2.Prototype, h: V3.Prototype) {
    && h.icmpCode == p.icmpCode && h.icmpType == p.icmpType && h.protocol == p.protocol
    && (if p.portRange.Some? then h.portRange == p.portRange.value else h.portRange == PortRange(0, 0))
    && AppendsMatch(Elems(p.remotes), h.remotes, RemoteTaken)
  }

  /** A side that is not set becomes the zero prototype. */
  ghost predicate SideTaken(p: Option<V2.Prototype>, h: V3.Prototype) {
    if p.Some? then PrototypeTaken(p.value, h) else h == V3.Prototype(None, None, PortRange(0, 0), "", None)
  }

  ghost predicate RuleTaken(r: V2.Rule, h: V3.Rule) {
    && h.direction == r.direction && Carries(r.securityGroupID, h.securityGroupID)
    && SideTaken(r.destination, h.destination) && SideTaken(r.source, h.source)
  }

  /** The set entries of a list of pointers, in order. */
  ghost predicate SetEntries<A>(s: seq<Option<A>>, r: seq<A>) {
    if s == [] then r == []
    else if s[0].None? then SetEntries(s[1..], r)
    else r != [] && r[0] == s[0].value && SetEntries(s[1..], r[1..])
  }

  ghost predicate SecurityGroupTaken(g: V2.SecurityGroup, h: V3.SecurityGroupSource) {
    && (h.kind == Reference <==> Has(g.id)) && (h.kind == Provision <==> !Has(g.id))
    && (h.kind == Reference ==>
        && Carries(g.id, h.reference.id) && Carries(g.name, h.reference.name)
        && h.provision == V3.SecurityGroupProvision("", None, None))
    && (h.kind == Provision ==>
        && NoId(h.reference) && Carries(g.name, h.provision.name)
        && h.provision.rules != Some([]) && h.provision.tags != Some([])
        && SetEntries(Elems(g.tags), Elems(h.provision.tags))
        && exists rules :: SetEntries(Elems(g.rules), rules) && RulesTaken(rules, Elems(h.provision.rules)))
  }

  ghost predicate RulesTaken(rules: seq<V2.Rule>, h: seq<V3.Rule>) {
    |rules| == |h| && forall k :: 0 <= k < |rules| ==> RuleTaken(rules[k], h[k])
  }

  predicate ListenerTaken(l: V2.Listener, h: V3.Listener) {
    && h.port == l.port && h.selector == l.selector
    && Carries(l.defaultPoolName, h.defaultPoolName) && Carries(l.protocol, h.protocol)
  }

  predicate PoolTaken(p: V2.BackendPool, h: V3.BackendPool) {
    var a, b := p.healthMonitor, h.healthMonitor;
    && Carries(p.name, h.name) && h.algorithm == p.algorithm && h.protocol == p.protocol
    && b.delay == a.delay && b.retries == a.retries && b.timeout == a.timeout && b.kind == a.kind
    && Carries(a.urlPath, b.urlPath) && (if a.port.Some? then b.port == a.port.value else b.port == 0)
  }

  predicate ResourceTaken(r: V2.VPCResource, h: V3.Identifier) { Carries(r.id, h.id) && Carries(r.name, h.name) }

  predicate AsksForSomething(b: V2.LoadBalancer) {
    b.isPublic.Some? || |Elems(b.listeners)| > 0 || |Elems(b.pools)| > 0 || |Elems(b.securityGroups)| > 0 || |Elems(b.subnets)| > 0
  }

  /** Anything to provision makes it a provision, even with an identifier, and so does a name without one;
      otherwise an identifier makes it a reference. */
  ghost predicate BalancerTaken(b: V2.LoadBalancer, h: V3.LoadBalancerSource) {
    && (h.kind == Provision <==> AsksForSomething(b) || (b.name != "" && !Has(b.id)))
    && (h.kind == Reference <==> !AsksForSomething(b) && Has(b.id))
    && (h.kind in {NoType, Reference, Provision})
    && (h.kind == Reference ==> Carries(b.id, h.reference.id) && h.reference.name == b.name)
    && (h.kind != Reference ==> NoId(h.reference))
    && (h.kind != Provision ==> h.provision == V3.LoadBalancerProvision("", NoBalancerType, None, None, None, None))
    && (h.kind == Provision ==>
        && h.provision.name == b.name
        && (h.provision.kind == NoBalancerType <==> b.isPublic.None?)
        && (h.provision.kind == Public <==> b.isPublic == Some(true))
        && (h.provision.kind == Private <==> b.isPublic == Some(false))
        && AppendsMatch(Elems(b.listeners), h.provision.listeners, ListenerTaken)
        && AppendsMatch(Elems(b.pools), h.provision.pools, PoolTaken)
        && AppendsMatch(Elems(b.securityGroups), h.provision.securityGroups, ResourceTaken)
        && AppendsMatch(Elems(b.subnets), h.provision.subnets, ResourceTaken))
  }

  /** A COS section with any content is a provision. */
  predicate CosTaken(c: Option<V2.CosInstance>, h: V3.COSSource) {
    && NoId(h.reference)
    && (h.kind == Provision <==> c.Some? && (c.value.name != "" || c.value.bucketName != "" || c.value.bucketRegion != ""))
    && (h.kind in {NoType, Provision})
    && (c.None? ==> h.bucketName == "" && h.bucketRegion == "" && h.provisionName == "")
    && (c.Some? ==> h.bucketName == c.value.bucketName && h.bucketRegion == c.value.bucketRegion && h.provisionName == c.value.name)
  }

  lemma {:induction false} NonNilAreSet<A>(s: seq<Option<A>>)
    ensures SetEntries(s, NonNil(s))
  {
    if s != [] {
      NonNilAreSet(s[1..]);
      if s[0].Some? {
        assert NonNil(s)[1..] == NonNil(s[1..]);
      } else {
        assert NonNil(s) == NonNil(s[1..]);
      }
    }
  }

  lemma WorkspaceFields(s: V2.ClusterSpec)
    ensures WorkspaceTaken(s, Up(s).workspace)
  {}

  lemma NetworkFields(s: V2.ClusterSpec)
    ensures NetworkTaken(s.network, s.dhcpServer, Up(s).network)
  {}

  lemma GatewayFields(s: V2.ClusterSpec)
    ensures GatewayTaken(s.transitGateway, Up(s).transitGateway)
  {}

  lemma VPCFields(s: V2.ClusterSpec)
    ensures VPCTaken(s.vpc, Up(s).vpc)
  {}

  lemma ScalarFields(s: V2.ClusterSpec)
    ensures Up(s).endpoint == s.endpoint && Carries(s.zone, Up(s).zone) && Carries(s.ignitionVersion, Up(s).ignitionVersion)
    ensures Up(s).topology == NoTopology
    ensures GroupTaken(s.resourceGroup, Up(s).resourceGroup) && CosTaken(s.cosInstance, Up(s).cosInstance)
  {}

  lemma SubnetFields(s: V2.ClusterSpec)
    ensures ListMatches(s.vpcSubnets, Up(s).vpcSubnets, SubnetTaken)
  {
    MapSliceMatches(SubnetUp, s.vpcSubnets, SubnetTaken);
  }

  lemma PrototypeFields(p: V2.Prototype)
    ensures PrototypeTaken(p, PrototypeUp(p))
  {
    MapMatches(RemoteUp, Elems(p.remotes), RemoteTaken);
  }

  lemma RuleFields(r: V2.Rule)
    ensures RuleTaken(r, RuleUp(r))
  {
    if r.destination.Some? { PrototypeFields(r.destination.value); }
    if r.source.Some? { PrototypeFields(r.source.value); }
  }

  lemma SecurityGroupFields(g: V2.SecurityGroup)
    ensures SecurityGroupTaken(g, SecurityGroupUp(g))
  {
    var rules := NonNil(Elems(g.rules));
    NonNilAreSet(Elems(g.rules));
    NonNilAreSet(Elems(g.tags));
    forall k | 0 <= k < |rules| ensures RuleTaken(rules[k], RuleUp(rules[k])) {
      RuleFields(rules[k]);
    }
    var h := SecurityGroupUp(g);
    if !Has(g.id) {
      assert Elems(h.provision.rules) == Map(RuleUp, rules);
      assert Elems(h.provision.tags) == NonNil(Elems(g.tags));
      assert RulesTaken(rules, Elems(h.provision.rules));
    }
  }

  lemma BalancerFields(b: V2.LoadBalancer)
    ensures BalancerTaken(b, LoadBalancerUp(b))
  {
    MapMatches(ListenerUp, Elems(b.listeners), ListenerTaken);
    MapMatches(PoolUp, Elems(b.pools), PoolTaken);
    MapMatches(ResourceUp, Elems(b.securityGroups), ResourceTaken);
    MapMatches(ResourceUp, Elems(b.subnets), ResourceTaken);
  }

  /** Every list of a v1beta2 spec goes up entry by entry, nil staying nil. */
  lemma ListFields(s: V2.ClusterSpec)
    ensures Up(s).vpcSecurityGroups.None? <==> s.vpcSecurityGroups.None?
    ensures Up(s).loadBalancers.None? <==> s.loadBalancers.None?
    ensures |Elems(Up(s).vpcSecurityGroups)| == |Elems(s.vpcSecurityGroups)|
    ensures forall k :: 0 <= k < |Elems(s.vpcSecurityGroups)| ==>
              SecurityGroupTaken(Elems(s.vpcSecurityGroups)[k], Elems(Up(s).vpcSecurityGroups)[k])
    ensures |Elems(Up(s).loadBalancers)| == |Elems(s.loadBalancers)|
    ensures forall k :: 0 <= k < |Elems(s.loadBalancers)| ==>
              BalancerTaken(Elems(s.loadBalancers)[k], Elems(Up(s).loadBalancers)[k])
  {
    forall k | 0 <= k < |Elems(s.vpcSecurityGroups)|
      ensures SecurityGroupTaken(Elems(s.vpcSecurityGroups)[k], Elems(Up(s).vpcSecurityGroups)[k])
    {
      SecurityGroupFields(Elems(s.vpcSecurityGroups)[k]);
    }
    forall k | 0 <= k < |Elems(s.loadBalancers)|
      ensures BalancerTaken(Elems(s.loadBalancers)[k], Elems(Up(s).loadBalancers)[k])
    {
      BalancerFields(Elems(s.loadBalancers)[k]);
    }
  }

  // ---- Down: from the hub, valid or not ----

  predicate WorkspaceGiven(w: V3.WorkspaceSource, ref: Option<V2.ResourceRef>, id: string) {
    && id == w.reference.id
    && (ref.Some? <==> w.kind == Reference || !NoId(w.reference))
    && (ref.Some? ==> IdBecomes(w.reference, ref.value))
  }

  predicate GroupGiven(g: V3.ResourceGroupSource, ref: Option<V2.ResourceRef>) {
    && (ref.Some? <==> g.kind == Reference || !NoId(g.reference))
    && (ref.Some? ==> IdBecomes(g.reference, ref.value))
  }

  predicate DHCPGiven(h: V3.DHCPServer, d: V2.DHCPServer) {
    && Becomes(h.name, d.name) && Becomes(h.cidr, d.cidr) && Becomes(h.dnsServer, d.dnsServer) && d.id.None?
    && (d.snat.None? <==> h.snat == NoSnat) && (d.snat == Some(true) <==> h.snat == Enabled)
  }

  predicate NetworkGiven(n: V3.NetworkSource, ref: V2.ResourceRef, dhcp: Option<V2.DHCPServer>) {
    && (if n.kind == Reference then IdBecomes(n.reference, ref) else ref == V2.ResourceRef(None, None, None))
    && (dhcp.Some? <==> n.kind == Provision)
    && (dhcp.Some? ==> DHCPGiven(n.dhcpServer, dhcp.value))
  }

  /** The tag decides; without one, a set reference does. Connections are lost. */
  predicate GatewayGiven(h: V3.TransitGatewaySource, t: Option<V2.TransitGateway>) {
    var asReference := h.kind == Reference || (h.kind == NoType && !NoId(h.reference));
    var asProvision := h.kind == Provision || (h.kind == NoType && NoId(h.reference));
    && (t.None? <==>
        && (asReference ==> NoId(h.reference))
        && (asProvision ==> h.provisionName == "" && h.globalRouting == NoRouting))
    && (t.Some? && asReference ==>
        Becomes(h.reference.name, t.value.name) && Becomes(h.reference.id, t.value.id) && t.value.globalRouting.None?)
    && (t.Some? && asProvision ==>
        && Becomes(h.provisionName, t.value.name) && t.value.id.None?
        && (t.value.globalRouting.None? <==> h.globalRouting == NoRouting)
        && (t.value.globalRouting == Some(true) <==> h.globalRouting == Global))
  }

  /** The name comes from the provision unless it is a reference; the other one fills in. */
  predicate VPCGiven(h: V3.VPCSource, v: Option<V2.VPCRef>) {
    var name := if h.kind != Reference && h.provisionName != "" then h.provisionName
                else if h.reference.name != "" then h.reference.name
                else if h.reference.id == "" && h.region == "" then h.provisionName
                else "";
    && (v.None? <==> h.reference.id == "" && h.region == "" && name == "")
    && (v.Some? ==> Becomes(h.reference.id, v.value.id) && Becomes(h.region, v.value.region) && Becomes(name, v.value.name))
  }

  predicate SubnetGiven(h: V3.SubnetSource, s: V2.Subnet) {
    && s.ipv4CidrBlock.None? && Becomes(h.zone, s.zone)
    && (h.kind == Provision ==> s.id.None? && Becomes(h.provisionName, s.name))
    && (h.kind != Provision ==> Becomes(h.reference.id, s.id))
    && (h.kind == Reference || (h.kind != Provision && !NoId(h.reference)) ==> Becomes(h.reference.name, s.name))
    && (h.kind != Reference && h.kind != Provision && NoId(h.reference) ==> Becomes(h.provisionName, s.name))
  }

  predicate RemoteGiven(h: V3.Remote, r: V2.Remote) {
    && Becomes(h.cidrSubnetName, r.cidrSubnetName) && Becomes(h.address, r.address)
    && Becomes(h.securityGroupName, r.securityGroupName) && r.remoteType == h.remoteType
  }

  ghost predicate PrototypeGiven(h: V3.Prototype, p: V2.Prototype) {
    && p.icmpCode == h.icmpCode && p.icmpType == h.icmpType && p.protocol == h.protocol
    && (if h.portRange == PortRange(0, 0) then p.portRange.None? else p.portRange == Some(h.portRange))
    && AppendsMatch(Elems(h.remotes), p.remotes, RemoteGiven)
  }

  /** Only the side that the direction names is given. */
  ghost predicate RuleGiven(h: V3.Rule, r: V2.Rule) {
    && r.direction == h.direction && Becomes(h.securityGroupID, r.securityGroupID)
    && (r.destination.Some? <==> h.direction == Outbound) && (r.destination.Some? ==> PrototypeGiven(h.destination, r.destination.value))
    && (r.source.Some? <==> h.direction == Inbound) && (r.source.Some? ==> PrototypeGiven(h.source, r.source.value))
  }

  ghost predicate RulesGiven(h: seq<V3.Rule>, r: seq<Option<V2.Rule>>) {
    |h| == |r| && forall k :: 0 <= k < |h| ==> r[k].Some? && RuleGiven(h[k], r[k].value)
  }

  predicate TagGiven(h: string, t: Option<string>) { t == Some(h) }

  ghost predicate SecurityGroupGiven(h: V3.SecurityGroupSource, g: V2.SecurityGroup) {
    && (h.kind == Reference ==> Becomes(h.reference.id, g.id) && Becomes(h.reference.name, g.name))
    && (h.kind == Provision ==>
        && g.id.None? && Becomes(h.provision.name, g.name)
        && g.rules != Some([]) && RulesGiven(Elems(h.provision.rules), Elems(g.rules))
        && AppendsMatch(Elems(h.provision.tags), g.tags, TagGiven))
    && (h.kind != Provision ==> g.rules.None? && g.tags.None?)
    && (h.kind != Provision && h.kind != Reference ==> g.id.None? && g.name.None?)
  }

  predicate ListenerGiven(h: V3.Listener, l: V2.Listener) {
    && l.port == h.port && l.selector == h.selector
    && Becomes(h.defaultPoolName, l.defaultPoolName) && Becomes(h.protocol, l.protocol)
  }

  predicate PoolGiven(h: V3.BackendPool, p: V2.BackendPool) {
    var a, b := h.healthMonitor, p.healthMonitor;
    && Becomes(h.name, p.name) && p.algorithm == h.algorithm && p.protocol == h.protocol
    && b.delay == a.delay && b.retries == a.retries && b.timeout == a.timeout && b.kind == a.kind
    && Becomes(a.urlPath, b.urlPath) && (if a.port == 0 then b.port.None? else b.port == Some(a.port))
  }

  predicate ResourceGiven(h: V3.Identifier, r: V2.VPCResource) { Becomes(h.id, r.id) && Becomes(h.name, r.name) }

  ghost predicate BalancerGiven(h: V3.LoadBalancerSource, b: V2.LoadBalancer) {
    && (h.kind == Reference ==> b.name == h.reference.name && Becomes(h.reference.id, b.id))
    && (h.kind != Reference ==> b.id.None?)
    && (h.kind != Provision ==>
        b.isPublic.None? && b.listeners.None? && b.pools.None? && b.securityGroups.None? && b.subnets.None?)
    && (h.kind != Reference && h.kind != Provision ==> b.name == "")
    && (h.kind == Provision ==>
        && b.name == h.provision.name
        && (b.isPublic.None? <==> h.provision.kind == NoBalancerType) && (b.isPublic == Some(true) <==> h.provision.kind == Public)
        && AppendsMatch(Elems(h.provision.listeners), b.listeners, ListenerGiven)
        && AppendsMatch(Elems(h.provision.pools), b.pools, PoolGiven)
        && AppendsMatch(Elems(h.provision.securityGroups), b.securityGroups, ResourceGiven)
        && AppendsMatch(Elems(h.provision.subnets), b.subnets, ResourceGiven))
  }

  predicate CosGiven(h: V3.COSSource, c: Option<V2.CosInstance>) {
    && (c.None? <==> h.kind == NoType && h.bucketName == "" && h.bucketRegion == "")
    && (c.Some? ==>
        && c.value.bucketName == h.bucketName && c.value.bucketRegion == h.bucketRegion
        && c.value.name == (if h.kind == Reference then "" else h.provisionName))
  }

  lemma WorkspaceDownFields(s: V3.ClusterSpec)
    ensures WorkspaceGiven(s.workspace, Down(s).serviceInstance, Down(s).serviceInstanceID)
    ensures GroupGiven(s.resourceGroup, Down(s).resourceGroup)
  {}

  lemma NetworkDownFields(s: V3.ClusterSpec)
    ensures NetworkGiven(s.network, Down(s).network, Down(s).dhcpServer)
  {}

  lemma GatewayDownFields(s: V3.ClusterSpec)
    ensures GatewayGiven(s.transitGateway, Down(s).transitGateway)
  {}

  lemma VPCDownFields(s: V3.ClusterSpec)
    ensures VPCGiven(s.vpc, Down(s).vpc)
  {}

  lemma ScalarDownFields(s: V3.ClusterSpec)
    ensures Down(s).endpoint == s.endpoint && Becomes(s.zone, Down(s).zone) && Becomes(s.ignitionVersion, Down(s).ignitionVersion)
    ensures CosGiven(s.cosInstance, Down(s).cosInstance)
  {}

  lemma SubnetDownFields(s: V3.ClusterSpec)
    ensures ListMatches(s.vpcSubnets, Down(s).vpcSubnets, SubnetGiven)
  {
    MapSliceMatches(SubnetDown, s.vpcSubnets, SubnetGiven);
  }

  lemma PrototypeDownFields(h: V3.Prototype)
    ensures PrototypeGiven(h, PrototypeDown(h))
  {
    MapMatches(RemoteDown, Elems(h.remotes), RemoteGiven);
  }

  lemma RuleDownFields(h: V3.Rule)
    ensures RuleGiven(h, RuleDown(h))
  {
    PrototypeDownFields(h.destination);
    PrototypeDownFields(h.source);
  }

  lemma SecurityGroupDownFields(h: V3.SecurityGroupSource)
    ensures SecurityGroupGiven(h, SecurityGroupDown(h))
  {
    var rules := Elems(h.provision.rules);
    forall k | 0 <= k < |rules| ensures RuleGiven(rules[k], RuleDown(rules[k])) {
      RuleDownFields(rules[k]);
    }
    MapMatches(TagPtr, Elems(h.provision.tags), TagGiven);
    if h.kind == Provision {
      assert Elems(SecurityGroupDown(h).rules) == Map(RulePtrDown, rules);
    }
  }

  lemma BalancerDownFields(h: V3.LoadBalancerSource)
    ensures BalancerGiven(h, LoadBalancerDown(h))
  {
    MapMatches(ListenerDown, Elems(h.provision.listeners), ListenerGiven);
    MapMatches(PoolDown, Elems(h.provision.pools), PoolGiven);
    MapMatches(ResourceDown, Elems(h.provision.securityGroups), ResourceGiven);
    MapMatches(ResourceDown, Elems(h.provision.subnets), ResourceGiven);
  }

  /** Every list of a hub spec comes down entry by entry, nil staying nil. */
  lemma ListDownFields(s: V3.ClusterSpec)
    ensures Down(s).vpcSecurityGroups.None? <==> s.vpcSecurityGroups.None?
    ensures Down(s).loadBalancers.None? <==> s.loadBalancers.None?
    ensures |Elems(Down(s).vpcSecurityGroups)| == |Elems(s.vpcSecurityGroups)|
    ensures forall k :: 0 <= k < |Elems(s.vpcSecurityGroups)| ==>
              SecurityGroupGiven(Elems(s.vpcSecurityGroups)[k], Elems(Down(s).vpcSecurityGroups)[k])
    ensures |Elems(Down(s).loadBalancers)| == |Elems(s.loadBalancers)|
    ensures forall k :: 0 <= k < |Elems(s.loadBalancers)| ==>
              BalancerGiven(Elems(s.loadBalancers)[k], Elems(Down(s).loadBalancers)[k])
  {
    forall k | 0 <= k < |Elems(s.vpcSecurityGroups)|
      ensures SecurityGroupGiven(Elems(s.vpcSecurityGroups)[k], Elems(Down(s).vpcSecurityGroups)[k])
    {
      SecurityGroupDownFields(Elems(s.vpcSecurityGroups)[k]);
    }
    forall k | 0 <= k < |Elems(s.loadBalancers)|
      ensures BalancerGiven(Elems(s.loadBalancers)[k], Elems(Down(s).loadBalancers)[k])
    {
      BalancerDownFields(Elems(s.loadBalancers)[k]);
    }
  }
}
