/** What a v1beta2 client sees: laws of the trips that start from a v1beta2 cluster spec. */
module SpokeLaws {
  import opened Common
  import opened ApiShared
  import opened ConversionSpec
  import V2 = V1beta2
  import V3 = V1beta3

  // ---- Unions: a second up-conversion finds what the first one stored ----

  lemma WorkspaceStable(s: V2.ClusterSpec)
    ensures WorkspaceUp(Down(Up(s))) == WorkspaceUp(s)
  {}

  lemma GroupStable(g: Option<V2.ResourceRef>)
    ensures GroupUp(GroupDown(GroupUp(g))) == GroupUp(g)
  {}

  lemma NetworkStable(n: V2.ResourceRef, d: Option<V2.DHCPServer>)
    ensures var u := NetworkUp(n, d); NetworkUp(NetworkDown(u), NetworkDHCPDown(u)) == u
  {}

  lemma GatewayStable(t: Option<V2.TransitGateway>)
    ensures GatewayPtrUp(GatewayPtrDown(GatewayPtrUp(t))) == GatewayPtrUp(t)
  {}

  lemma VPCStable(v: Option<V2.VPCRef>)
    ensures VPCUp(VPCDown(VPCUp(v))) == VPCUp(v)
  {}

  lemma CosStable(c: Option<V2.CosInstance>)
    ensures CosUp(CosDown(CosUp(c))) == CosUp(c)
  {}

  lemma SubnetStable(s: V2.Subnet)
    ensures SubnetUp(SubnetDown(SubnetUp(s))) == SubnetUp(s)
  {}

  // ---- Nested lists ----

  lemma PrototypeStable(p: V2.Prototype)
    ensures PrototypeUp(PrototypeDown(PrototypeUp(p))) == PrototypeUp(p)
  {
    var u := Map(RemoteUp, Elems(p.remotes));
    assert Map(RemoteUp, Map(RemoteDown, u)) == u;
  }

  /** A prototype that carries nothing: its up-conversion is the zero value. */
  predicate EmptyPrototype(p: Option<V2.Prototype>) {
    p.None? ||
    (p.value.icmpCode.None? && p.value.icmpType.None? && p.value.protocol == ""
     && (p.value.portRange.None? || p.value.portRange.value == PortRange(0, 0))
     && Elems(p.value.remotes) == [])
  }

  lemma EmptyPrototypeIsZero(p: Option<V2.Prototype>)
    ensures EmptyPrototype(p) <==> PrototypePtrUp(p) == V3.NO_PROTOTYPE
  {
    if p.Some? {
      assert |Map(RemoteUp, Elems(p.value.remotes))| == |Elems(p.value.remotes)|;
    }
  }

  /** The part of a rule that its direction does not use is empty. */
  predicate RuleSurvives(r: V2.Rule) {
    (r.direction == Outbound || EmptyPrototype(r.destination)) &&
    (r.direction == Inbound || EmptyPrototype(r.source))
  }

  /** The CEL rules on a v1beta2 rule: exactly one side, the one its direction names. */
  predicate RuleValid(r: V2.Rule) {
    (r.direction == Inbound && r.source.Some? && r.destination.None?) ||
    (r.direction == Outbound && r.destination.Some? && r.source.None?)
  }

  lemma RuleStable(r: V2.Rule)
    ensures RuleUp(RuleDown(RuleUp(r))) == RuleUp(r) <==> RuleSurvives(r)
    ensures RuleDown(RuleUp(RuleDown(RuleUp(r)))) == RuleDown(RuleUp(r))
  {
    EmptyPrototypeIsZero(r.destination);
    EmptyPrototypeIsZero(r.source);
    if r.destination.Some? { PrototypeStable(r.destination.value); }
    if r.source.Some? { PrototypeStable(r.source.value); }
    ZeroPrototypeStable();
  }

  lemma ZeroPrototypeStable()
    ensures PrototypeUp(PrototypeDown(V3.NO_PROTOTYPE)) == V3.NO_PROTOTYPE
  {
    assert Elems(V3.NO_PROTOTYPE.remotes) == [];
  }

  predicate GroupSurvives(g: V2.SecurityGroup) {
    Has(g.id) || forall i :: 0 <= i < |NonNil(Elems(g.rules))| ==> RuleSurvives(NonNil(Elems(g.rules))[i])
  }

  /** Down then up over a list of rules works rule by rule. */
  lemma RulesDownUp(rules: seq<V3.Rule>)
    ensures NonNil(Elems(Appended(Map(RulePtrDown, rules)))) == Map(RuleDown, rules)
  {
    NonNilOfAddresses(RulePtrDown, RuleDown, rules);
  }

  lemma TagsDownUp(tags: seq<string>)
    ensures NonNil(Elems(Appended(Map(TagPtr, tags)))) == tags
  {
    NonNilOfAddresses(TagPtr, (t: string) => t, tags);
  }

  /** A security group comes back up unchanged exactly when its rules do. */
  lemma SecurityGroupStable(g: V2.SecurityGroup)
    ensures SecurityGroupUp(SecurityGroupDown(SecurityGroupUp(g))) == SecurityGroupUp(g) <==> GroupSurvives(g)
    ensures SecurityGroupDown(SecurityGroupUp(SecurityGroupDown(SecurityGroupUp(g)))) == SecurityGroupDown(SecurityGroupUp(g))
  {
    if !Has(g.id) {
      var kept := NonNil(Elems(g.rules));
      var u := Map(RuleUp, kept);
      var tags := NonNil(Elems(g.tags));
      RulesDownUp(u);
      TagsDownUp(tags);
      var again := Map(RuleUp, Map(RuleDown, u));
      forall i | 0 <= i < |kept|
        ensures again[i] == u[i] <==> RuleSurvives(kept[i])
        ensures RuleDown(again[i]) == RuleDown(u[i])
      {
        RuleStable(kept[i]);
      }
      assert Map(RulePtrDown, again) == Map(RulePtrDown, u);
      assert again == u <==> GroupSurvives(g);
      var back := SecurityGroupUp(SecurityGroupDown(SecurityGroupUp(g)));
      assert Elems(back.provision.rules) == again;
      assert Elems(SecurityGroupUp(g).provision.rules) == u;
    }
  }

  lemma LoadBalancerStable(b: V2.LoadBalancer)
    ensures LoadBalancerUp(LoadBalancerDown(LoadBalancerUp(b))) == LoadBalancerUp(b)
  {
    var l, p := Map(ListenerUp, Elems(b.listeners)), Map(PoolUp, Elems(b.pools));
    var g, s := Map(ResourceUp, Elems(b.securityGroups)), Map(ResourceUp, Elems(b.subnets));
    assert Map(ListenerUp, Map(ListenerDown, l)) == l;
    assert Map(PoolUp, Map(PoolDown, p)) == p;
    assert Map(ResourceUp, Map(ResourceDown, g)) == g;
    assert Map(ResourceUp, Map(ResourceDown, s)) == s;
  }

  // ---- Whole specs ----

  predicate RulesSurvive(s: V2.ClusterSpec) {
    forall i :: 0 <= i < |Elems(s.vpcSecurityGroups)| ==> GroupSurvives(Elems(s.vpcSecurityGroups)[i])
  }

  /** Every security group rule of the spec satisfies the CEL rules. */
  predicate RulesValid(s: V2.ClusterSpec) {
    forall i, j :: 0 <= i < |Elems(s.vpcSecurityGroups)|
                   && 0 <= j < |NonNil(Elems(Elems(s.vpcSecurityGroups)[i].rules))|
                   ==> RuleValid(NonNil(Elems(Elems(s.vpcSecurityGroups)[i].rules))[j])
  }

  /** All parts of the spec other than the security groups. */
  lemma OtherPartsStable(s: V2.ClusterSpec)
    ensures Up(Down(Up(s))) == Up(s).(vpcSecurityGroups := Up(Down(Up(s))).vpcSecurityGroups)
  {
    WorkspaceStable(s);
    GroupStable(s.resourceGroup);
    NetworkStable(s.network, s.dhcpServer);
    GatewayStable(s.transitGateway);
    VPCStable(s.vpc);
    CosStable(s.cosInstance);
    SubnetListStable(s.vpcSubnets);
    LoadBalancerListStable(s.loadBalancers);
  }

  lemma SubnetListStable(l: Slice<V2.Subnet>)
    ensures MapSlice(SubnetUp, MapSlice(SubnetDown, MapSlice(SubnetUp, l))) == MapSlice(SubnetUp, l)
  {
    if l.Some? {
      var u := Map(SubnetUp, l.value);
      forall i | 0 <= i < |u| ensures SubnetUp(SubnetDown(u[i])) == u[i] { SubnetStable(l.value[i]); }
      assert Map(SubnetUp, Map(SubnetDown, u)) == u;
    }
  }

  lemma LoadBalancerListStable(l: Slice<V2.LoadBalancer>)
    ensures MapSlice(LoadBalancerUp, MapSlice(LoadBalancerDown, MapSlice(LoadBalancerUp, l))) == MapSlice(LoadBalancerUp, l)
  {
    if l.Some? {
      var u := Map(LoadBalancerUp, l.value);
      forall i | 0 <= i < |u| ensures LoadBalancerUp(LoadBalancerDown(u[i])) == u[i] { LoadBalancerStable(l.value[i]); }
      assert Map(LoadBalancerUp, Map(LoadBalancerDown, u)) == u;
    }
  }

  lemma SecurityGroupListStable(l: seq<V2.SecurityGroup>)
    ensures var u := Map(SecurityGroupUp, l);
            Map(SecurityGroupUp, Map(SecurityGroupDown, u)) == u
            <==> forall i :: 0 <= i < |l| ==> GroupSurvives(l[i])
  {
    var u := Map(SecurityGroupUp, l);
    var again := Map(SecurityGroupUp, Map(SecurityGroupDown, u));
    forall i | 0 <= i < |l| ensures again[i] == u[i] <==> GroupSurvives(l[i]) {
      SecurityGroupStable(l[i]);
    }
    if again == u {
      forall i | 0 <= i < |l| ensures GroupSurvives(l[i]) { assert again[i] == u[i]; }
    }
  }

  lemma SecurityGroupListIdempotent(l: seq<V2.SecurityGroup>)
    ensures var du := Map(SecurityGroupDown, Map(SecurityGroupUp, l));
            Map(SecurityGroupDown, Map(SecurityGroupUp, du)) == du
  {
    var du := Map(SecurityGroupDown, Map(SecurityGroupUp, l));
    forall i | 0 <= i < |l| ensures SecurityGroupDown(SecurityGroupUp(du[i])) == du[i] {
      SecurityGroupStable(l[i]);
    }
    assert Map(SecurityGroupDown, Map(SecurityGroupUp, du)) == du;
  }

  /** A read-and-write-back through v1beta2 leaves the hub spec of a v1beta2 client unchanged
      exactly when no rule carries data on the side its direction does not use. */
  lemma UpDownUp(s: V2.ClusterSpec)
    ensures Up(Down(Up(s))) == Up(s) <==> RulesSurvive(s)
  {
    OtherPartsStable(s);
    SecurityGroupListStable(Elems(s.vpcSecurityGroups));
  }

  /** In particular for every spec the API server admits. */
  lemma ValidRulesSurvive(s: V2.ClusterSpec)
    requires RulesValid(s)
    ensures Up(Down(Up(s))) == Up(s)
  {
    UpDownUp(s);
    forall i | 0 <= i < |Elems(s.vpcSecurityGroups)| ensures GroupSurvives(Elems(s.vpcSecurityGroups)[i]) {
      var g := Elems(s.vpcSecurityGroups)[i];
      forall j | 0 <= j < |NonNil(Elems(g.rules))| ensures RuleSurvives(NonNil(Elems(g.rules))[j]) {
        assert RuleValid(NonNil(Elems(Elems(s.vpcSecurityGroups)[i].rules))[j]);
      }
    }
  }

  /** For every v1beta2 spec, a second trip through the hub changes nothing the first did not. */
  lemma DownUpIdempotent(s: V2.ClusterSpec)
    ensures Down(Up(Down(Up(s)))) == Down(Up(s))
  {
    OtherPartsStable(s);
    SecurityGroupListIdempotent(Elems(s.vpcSecurityGroups));
  }

  /** An inbound rule that also names a destination: the destination is lost on the way back, so
      the hub spec does change. */
  lemma MisplacedDestinationIsLost()
    ensures var p := V2.Prototype(None, None, None, "tcp", None);
            var r := V2.Rule(Some(p), Inbound, None, Some(p));
            RuleUp(RuleDown(RuleUp(r))) != RuleUp(r)
  {
    var p := V2.Prototype(None, None, None, "tcp", None);
    RuleStable(V2.Rule(Some(p), Inbound, None, Some(p)));
  }
}
