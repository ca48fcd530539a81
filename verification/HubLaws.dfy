/** What a v1beta3 (hub) object keeps on the trip down to v1beta2 and back. Plain identity is false
    for several unions; each lemma gives the exact set on which it holds. */
module HubLaws {
  import opened Common
  import opened ApiShared
  import opened ConversionSpec
  import SpokeLaws
  import V3 = V1beta3

  // ---- Validity of hub values, as the CRD's enum and CEL markers state it ----

  predicate IdentifierValid(r: V3.Identifier) {
    (r.id == "") != (r.name == "")
  }

  /** Reference needs an identifier and no provision data; Provision has no reference. */
  predicate UnionValid(kind: SourceType, r: V3.Identifier, noProvision: bool) {
    (kind == Reference && IdentifierValid(r) && noProvision) || (kind == Provision && r == V3.NO_ID)
  }

  predicate ByNameAlone(kind: SourceType, r: V3.Identifier) {
    kind == Reference && r.id == ""
  }

  predicate GatewayValid(t: V3.TransitGatewaySource) {
    UnionValid(t.kind, t.reference, t.provisionName == "" && t.globalRouting == NoRouting)
    && t.globalRouting in {NoRouting, Local, Global}
  }

  predicate VPCValid(v: V3.VPCSource) {
    UnionValid(v.kind, v.reference, v.provisionName == "")
  }

  predicate SubnetValid(s: V3.SubnetSource) {
    UnionValid(s.kind, s.reference, s.provisionName == "")
  }

  predicate RuleValid(r: V3.Rule) {
    (r.direction == Inbound && r.source != V3.NO_PROTOTYPE && r.destination == V3.NO_PROTOTYPE) ||
    (r.direction == Outbound && r.destination != V3.NO_PROTOTYPE && r.source == V3.NO_PROTOTYPE)
  }

  predicate SecurityGroupValid(g: V3.SecurityGroupSource) {
    UnionValid(g.kind, g.reference, g.provision == V3.NO_SG_PROVISION)
    && forall i :: 0 <= i < |Elems(g.provision.rules)| ==> RuleValid(Elems(g.provision.rules)[i])
  }

  predicate LoadBalancerValid(b: V3.LoadBalancerSource) {
    UnionValid(b.kind, b.reference, b.provision == V3.NO_LB_PROVISION)
    && b.provision.kind in {NoBalancerType, Public, Private}
  }

  // ---- Empty, non-nil lists: the trip turns them into nil ----

  predicate NotEmptyList<T>(s: Slice<T>) {
    s.None? || s.value != []
  }

  predicate RuleListsNotEmpty(r: V3.Rule) {
    NotEmptyList(r.destination.remotes) && NotEmptyList(r.source.remotes)
  }

  predicate GroupListsNotEmpty(p: V3.SecurityGroupProvision) {
    NotEmptyList(p.rules) && NotEmptyList(p.tags)
    && forall i :: 0 <= i < |Elems(p.rules)| ==> RuleListsNotEmpty(Elems(p.rules)[i])
  }

  predicate BalancerListsNotEmpty(p: V3.LoadBalancerProvision) {
    NotEmptyList(p.listeners) && NotEmptyList(p.pools) && NotEmptyList(p.securityGroups) && NotEmptyList(p.subnets)
  }

  // ---- One union at a time ----

  /** A gateway survives exactly when it has no connection settings and, if provisioned, an explicit
      routing: v1beta2 has nowhere to keep the former and reads a lone name as a reference. */
  lemma GatewayRoundTrip(t: V3.TransitGatewaySource)
    requires GatewayValid(t)
    ensures GatewayPtrUp(GatewayPtrDown(t)) == t
            <==> t.vpcConnection == V3.NO_CONNECTION && t.powerVSConnection == V3.NO_CONNECTION
                 && (t.kind == Provision ==> t.globalRouting != NoRouting)
  {}

  lemma VPCRoundTrip(v: V3.VPCSource)
    requires VPCValid(v)
    ensures VPCUp(VPCDown(v)) == v <==> !ByNameAlone(v.kind, v.reference)
  {}

  lemma SubnetRoundTrip(s: V3.SubnetSource)
    requires SubnetValid(s)
    ensures SubnetUp(SubnetDown(s)) == s <==> !ByNameAlone(s.kind, s.reference)
  {}

  lemma PrototypeRoundTrip(p: V3.Prototype)
    ensures PrototypeUp(PrototypeDown(p)) == p <==> NotEmptyList(p.remotes)
  {
    var r := Elems(p.remotes);
    assert Map(RemoteUp, Map(RemoteDown, r)) == r;
  }

  lemma RuleRoundTrip(r: V3.Rule)
    requires RuleValid(r)
    ensures RuleUp(RuleDown(r)) == r <==> RuleListsNotEmpty(r)
  {
    PrototypeRoundTrip(r.destination);
    PrototypeRoundTrip(r.source);
  }

  lemma RuleListRoundTrip(rules: seq<V3.Rule>)
    requires forall i :: 0 <= i < |rules| ==> RuleValid(rules[i])
    ensures Map(RuleUp, Map(RuleDown, rules)) == rules
            <==> forall i :: 0 <= i < |rules| ==> RuleListsNotEmpty(rules[i])
  {
    forall i | 0 <= i < |rules| { RuleRoundTrip(rules[i]); }
    MapTrip(RuleUp, RuleDown, RuleListsNotEmpty, rules);
  }

  lemma SecurityGroupRoundTrip(g: V3.SecurityGroupSource)
    requires SecurityGroupValid(g)
    ensures SecurityGroupUp(SecurityGroupDown(g)) == g
            <==> !ByNameAlone(g.kind, g.reference) && (g.kind == Provision ==> GroupListsNotEmpty(g.provision))
  {
    if g.kind == Provision {
      var rules, tags := Elems(g.provision.rules), Elems(g.provision.tags);
      SpokeLaws.RulesDownUp(rules);
      SpokeLaws.TagsDownUp(tags);
      RuleListRoundTrip(rules);
      var back := SecurityGroupUp(SecurityGroupDown(g));
      assert back.provision.rules == Appended(Map(RuleUp, Map(RuleDown, rules)));
      assert back.provision.tags == Appended(tags);
    }
  }

  /** A load balancer survives unless it is referenced by name alone or asks for nothing at all. */
  lemma LoadBalancerRoundTrip(b: V3.LoadBalancerSource)
    requires LoadBalancerValid(b)
    ensures LoadBalancerUp(LoadBalancerDown(b)) == b
            <==> !ByNameAlone(b.kind, b.reference)
                 && (b.kind == Provision ==> b.provision != V3.NO_LB_PROVISION && BalancerListsNotEmpty(b.provision))
  {
    var p := b.provision;
    assert Map(ListenerUp, Map(ListenerDown, Elems(p.listeners))) == Elems(p.listeners);
    assert Map(PoolUp, Map(PoolDown, Elems(p.pools))) == Elems(p.pools);
    assert Map(ResourceUp, Map(ResourceDown, Elems(p.securityGroups))) == Elems(p.securityGroups);
    assert Map(ResourceUp, Map(ResourceDown, Elems(p.subnets))) == Elems(p.subnets);
  }

  // ---- The whole hub spec ----

  /** The only type that is ruled out is Provision; a reference is needed for type Reference only. */
  predicate ResourceGroupValid(g: V3.ResourceGroupSource) {
    && g.kind != Provision && g.kind != NoType
    && (g.kind == Reference ==> IdentifierValid(g.reference))
    && (g.reference == V3.NO_ID || IdentifierValid(g.reference))
  }

  /** Optional unions may be absent; present ones are valid. */
  predicate SpecValid(s: V3.ClusterSpec) {
    && (s.workspace == V3.NO_WORKSPACE || UnionValid(s.workspace.kind, s.workspace.reference, s.workspace.provisionName == ""))
    && (s.network == V3.NO_NETWORK || UnionValid(s.network.kind, s.network.reference, s.network.dhcpServer == V3.NO_DHCP))
    && s.network.dhcpServer.snat in {NoSnat, Enabled, Disabled}
    && (s.resourceGroup == V3.NO_GROUP || ResourceGroupValid(s.resourceGroup))
    && (s.transitGateway == V3.NO_GATEWAY || GatewayValid(s.transitGateway))
    && (s.vpc == V3.NO_VPC || VPCValid(s.vpc))
    && (s.cosInstance == V3.NO_COS || UnionValid(s.cosInstance.kind, s.cosInstance.reference, s.cosInstance.provisionName == ""))
    && (forall i :: 0 <= i < |Elems(s.vpcSubnets)| ==> SubnetValid(Elems(s.vpcSubnets)[i]))
    && (forall i :: 0 <= i < |Elems(s.vpcSecurityGroups)| ==> SecurityGroupValid(Elems(s.vpcSecurityGroups)[i]))
    && (forall i :: 0 <= i < |Elems(s.loadBalancers)| ==> LoadBalancerValid(Elems(s.loadBalancers)[i]))
  }

  // What v1beta2 can express of each part without loss.

  predicate WorkspaceKept(w: V3.WorkspaceSource) {
    w.kind == Reference || (w.kind == Provision && w.provisionName == "")
  }

  /** v1beta2 knows resource groups as references only. */
  predicate ResourceGroupKept(g: V3.ResourceGroupSource) {
    g == V3.NO_GROUP || g.kind == Reference
  }

  predicate GatewayKept(t: V3.TransitGatewaySource) {
    t.vpcConnection == V3.NO_CONNECTION && t.powerVSConnection == V3.NO_CONNECTION
    && (t.kind == Provision ==> t.globalRouting != NoRouting)
  }

  predicate VPCKept(v: V3.VPCSource) {
    v != V3.NO_VPC && !ByNameAlone(v.kind, v.reference)
  }

  predicate CosKept(c: V3.COSSource) {
    c == V3.NO_COS || (c.kind == Provision && (c.provisionName != "" || c.bucketName != "" || c.bucketRegion != ""))
  }

  predicate SubnetKept(s: V3.SubnetSource) { !ByNameAlone(s.kind, s.reference) }

  predicate GroupKept(g: V3.SecurityGroupSource) {
    !ByNameAlone(g.kind, g.reference) && (g.kind == Provision ==> GroupListsNotEmpty(g.provision))
  }

  predicate BalancerKept(b: V3.LoadBalancerSource) {
    !ByNameAlone(b.kind, b.reference)
    && (b.kind == Provision ==> b.provision != V3.NO_LB_PROVISION && BalancerListsNotEmpty(b.provision))
  }

  predicate ListsKept(s: V3.ClusterSpec) {
    && (forall i :: 0 <= i < |Elems(s.vpcSubnets)| ==> SubnetKept(Elems(s.vpcSubnets)[i]))
    && (forall i :: 0 <= i < |Elems(s.vpcSecurityGroups)| ==> GroupKept(Elems(s.vpcSecurityGroups)[i]))
    && (forall i :: 0 <= i < |Elems(s.loadBalancers)| ==> BalancerKept(Elems(s.loadBalancers)[i]))
  }

  predicate Expressible(s: V3.ClusterSpec) {
    && s.topology == NoTopology && WorkspaceKept(s.workspace) && ResourceGroupKept(s.resourceGroup)
    && GatewayKept(s.transitGateway)
    && VPCKept(s.vpc) && CosKept(s.cosInstance) && ListsKept(s)
  }

  lemma WorkspaceRoundTrip(s: V3.ClusterSpec)
    requires s.workspace == V3.NO_WORKSPACE || UnionValid(s.workspace.kind, s.workspace.reference, s.workspace.provisionName == "")
    ensures WorkspaceUp(Down(s)) == s.workspace <==> WorkspaceKept(s.workspace)
  {}

  lemma NetworkRoundTrip(n: V3.NetworkSource)
    requires n == V3.NO_NETWORK || UnionValid(n.kind, n.reference, n.dhcpServer == V3.NO_DHCP)
    requires n.dhcpServer.snat in {NoSnat, Enabled, Disabled}
    ensures NetworkUp(NetworkDown(n), NetworkDHCPDown(n)) == n
  {}

  lemma CosRoundTrip(c: V3.COSSource)
    requires c == V3.NO_COS || UnionValid(c.kind, c.reference, c.provisionName == "")
    ensures CosUp(CosDown(c)) == c <==> CosKept(c)
  {}

  lemma UnionsRoundTrip(s: V3.ClusterSpec)
    requires SpecValid(s)
    ensures VPCUp(VPCDown(s.vpc)) == s.vpc <==> VPCKept(s.vpc)
    ensures GatewayPtrUp(GatewayPtrDown(s.transitGateway)) == s.transitGateway <==> GatewayKept(s.transitGateway)
    ensures GroupUp(GroupDown(s.resourceGroup)) == s.resourceGroup <==> ResourceGroupKept(s.resourceGroup)
  {
    if s.vpc != V3.NO_VPC { VPCRoundTrip(s.vpc); }
    if s.transitGateway != V3.NO_GATEWAY { GatewayRoundTrip(s.transitGateway); }
  }

  /** Every part of the spec but the three lists. */
  lemma ScalarsRoundTrip(s: V3.ClusterSpec)
    requires SpecValid(s)
    ensures Up(Down(s)) == s.(vpcSubnets := Up(Down(s)).vpcSubnets, loadBalancers := Up(Down(s)).loadBalancers,
                              vpcSecurityGroups := Up(Down(s)).vpcSecurityGroups)
            <==> s.topology == NoTopology && WorkspaceKept(s.workspace) && ResourceGroupKept(s.resourceGroup)
                 && GatewayKept(s.transitGateway) && VPCKept(s.vpc) && CosKept(s.cosInstance)
  {
    WorkspaceRoundTrip(s);
    NetworkRoundTrip(s.network);
    CosRoundTrip(s.cosInstance);
    UnionsRoundTrip(s);
  }

  lemma ListsRoundTrip(s: V3.ClusterSpec)
    requires SpecValid(s)
    ensures var b := Up(Down(s));
            b.vpcSubnets == s.vpcSubnets && b.loadBalancers == s.loadBalancers && b.vpcSecurityGroups == s.vpcSecurityGroups
            <==> ListsKept(s)
  {
    SubnetListRoundTrip(Elems(s.vpcSubnets));
    GroupListRoundTrip(Elems(s.vpcSecurityGroups));
    BalancerListRoundTrip(Elems(s.loadBalancers));
  }

  lemma SubnetListRoundTrip(l: seq<V3.SubnetSource>)
    requires forall i :: 0 <= i < |l| ==> SubnetValid(l[i])
    ensures Map(SubnetUp, Map(SubnetDown, l)) == l <==> forall i :: 0 <= i < |l| ==> SubnetKept(l[i])
  {
    forall i | 0 <= i < |l| { SubnetRoundTrip(l[i]); }
    MapTrip(SubnetUp, SubnetDown, SubnetKept, l);
  }

  lemma GroupListRoundTrip(l: seq<V3.SecurityGroupSource>)
    requires forall i :: 0 <= i < |l| ==> SecurityGroupValid(l[i])
    ensures Map(SecurityGroupUp, Map(SecurityGroupDown, l)) == l <==> forall i :: 0 <= i < |l| ==> GroupKept(l[i])
  {
    forall i | 0 <= i < |l| { SecurityGroupRoundTrip(l[i]); }
    MapTrip(SecurityGroupUp, SecurityGroupDown, GroupKept, l);
  }

  lemma BalancerListRoundTrip(l: seq<V3.LoadBalancerSource>)
    requires forall i :: 0 <= i < |l| ==> LoadBalancerValid(l[i])
    ensures Map(LoadBalancerUp, Map(LoadBalancerDown, l)) == l <==> forall i :: 0 <= i < |l| ==> BalancerKept(l[i])
  {
    forall i | 0 <= i < |l| { LoadBalancerRoundTrip(l[i]); }
    MapTrip(LoadBalancerUp, LoadBalancerDown, BalancerKept, l);
  }

  /** The exact set of hub specs that v1beta2 carries without loss. */
  lemma HubRoundTrip(s: V3.ClusterSpec)
    requires SpecValid(s)
    ensures Up(Down(s)) == s <==> Expressible(s)
  {
    ScalarsRoundTrip(s);
    ListsRoundTrip(s);
  }

  /** One trip is enough, for every hub spec, valid or not: what comes back is a fixed point. */
  lemma TripReachesFixedPoint(s: V3.ClusterSpec)
    ensures Up(Down(Up(Down(s)))) == Up(Down(s))
  {
    DownRulesSurvive(s);
    SpokeLaws.UpDownUp(Down(s));
  }

  lemma DownRulesSurvive(s: V3.ClusterSpec)
    ensures SpokeLaws.RulesSurvive(Down(s))
  {
    var groups := Elems(s.vpcSecurityGroups);
    forall i | 0 <= i < |groups| ensures SpokeLaws.GroupSurvives(SecurityGroupDown(groups[i])) {
      if groups[i].kind == Provision {
        SpokeLaws.RulesDownUp(Elems(groups[i].provision.rules));
      }
    }
    assert Elems(Down(s).vpcSecurityGroups) == Map(SecurityGroupDown, groups);
  }
}
