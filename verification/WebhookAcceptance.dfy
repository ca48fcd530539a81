/** Which clusters the webhook accepts, on create and on update, and exactly which errors it reports. */
module WebhookAcceptance {
  import opened Common
  import opened ApiShared
  import opened LbNames
  import opened WebhookNames
  import opened WebhookUpdates
  import V3 = V1beta3

  // ---- Names ----

  /** An entry goes by the name of its reference or of its provision, whichever its type says. */
  predicate GoesBy(kind: SourceType, referenceName: string, provisionName: string, x: string) {
    x != "" && ((kind == Reference && x == referenceName) || (kind == Provision && x == provisionName))
  }

  predicate BalancerGoesBy(lb: V3.LoadBalancerSource, x: string) { GoesBy(lb.kind, lb.reference.name, lb.provision.name, x) }

  predicate SubnetGoesBy(s: V3.SubnetSource, x: string) { GoesBy(s.kind, s.reference.name, s.provisionName, x) }

  /** No two load balancers go by one name. */
  ghost predicate BalancerNamesUnique(lbs: seq<V3.LoadBalancerSource>) {
    forall i, j, x :: 0 <= i < j < |lbs| && BalancerGoesBy(lbs[i], x) ==> !BalancerGoesBy(lbs[j], x)
  }

  ghost predicate SubnetNamesUnique(subnets: seq<V3.SubnetSource>) {
    forall i, j, x :: 0 <= i < j < |subnets| && SubnetGoesBy(subnets[i], x) ==> !SubnetGoesBy(subnets[j], x)
  }

  lemma BalancerNamesAgree(lbs: seq<V3.LoadBalancerSource>)
    ensures NamesDistinct(Map(BalancerName, lbs)) <==> BalancerNamesUnique(lbs)
  {
    var names := Map(BalancerName, lbs);
    forall i, x | 0 <= i < |lbs| ensures BalancerGoesBy(lbs[i], x) <==> x != "" && names[i] == x {
    }
    if BalancerNamesUnique(lbs) {
      forall i, j | 0 <= i < j < |names| && names[i] != "" ensures names[i] != names[j] {
        assert BalancerGoesBy(lbs[i], names[i]);
      }
    }
  }

  lemma SubnetNamesAgree(subnets: seq<V3.SubnetSource>)
    ensures NamesDistinct(Map(SubnetName, subnets)) <==> SubnetNamesUnique(subnets)
  {
    var names := Map(SubnetName, subnets);
    forall i, x | 0 <= i < |subnets| ensures SubnetGoesBy(subnets[i], x) <==> x != "" && names[i] == x {
    }
    if SubnetNamesUnique(subnets) {
      forall i, j | 0 <= i < j < |names| && names[i] != "" ensures names[i] != names[j] {
        assert SubnetGoesBy(subnets[i], names[i]);
      }
    }
  }

  // ---- The acceptance set ----

  /** A cluster the webhook accepts when it is created. */
  ghost predicate Acceptable(c: Cluster, l: Lookups) {
    c.spec.topology == LoadBalancerTopology ==>
      && (c.spec.zone == "" || l.zoneSupported)
      && (c.spec.vpc.region == "" || l.regionSupported)
      && SubnetNamesUnique(Elems(c.spec.vpcSubnets))
      && BalancerNamesUnique(Elems(c.spec.loadBalancers))
      && (Elems(c.spec.loadBalancers) == [] ||
          exists k :: 0 <= k < |Elems(c.spec.loadBalancers)| && IsPublic(Elems(c.spec.loadBalancers)[k]))
      && !(c.spec.zone != "" && c.spec.vpc.region != "" && c.spec.transitGateway.kind == Provision
           && c.spec.transitGateway.globalRouting == Local && l.globalRoutingNeeded)
  }

  lemma NoSubnetErrors(subnets: seq<V3.SubnetSource>)
    ensures Map(SubnetRepeat, Repeats(Map(SubnetName, subnets))) == [] <==> SubnetNamesUnique(subnets)
  {
    NoRepeatsExactly(Map(SubnetName, subnets));
    SubnetNamesAgree(subnets);
  }

  lemma PrereqsExactly(c: Cluster, l: Lookups)
    ensures PrereqErrors(c, l) == [] <==> Acceptable(c, l)
  {
    NoSubnetErrors(Elems(c.spec.vpcSubnets));
    BalancersValidExactly(Elems(c.spec.loadBalancers));
    BalancerNamesAgree(Elems(c.spec.loadBalancers));
  }

  /** A create passes the whole validation exactly when the cluster is acceptable. */
  lemma CreateAcceptedExactly(c: Cluster, l: Lookups)
    ensures ValidationErrors(None, c, l) == [] <==> Acceptable(c, l)
  {
    PrereqsExactly(c, l);
  }

  /** An update passes exactly when moreover it keeps the selectors. */
  lemma UpdateAcceptedExactly(oldCluster: Cluster, newCluster: Cluster, l: Lookups)
    ensures ValidationErrors(Some(oldCluster), newCluster, l) == [] <==>
            Acceptable(newCluster, l) && SelectorsKept(EntriesOfCluster(newCluster), EntriesOfCluster(oldCluster))
  {
    PrereqsExactly(newCluster, l);
    SelectorsKeptExactly(newCluster, oldCluster);
  }

  /** An accepted LoadBalancer cluster has a valid list of load balancers. */
  lemma AcceptedBalancersAreValid(oldCluster: Option<Cluster>, c: Cluster, l: Lookups)
    requires c.spec.topology == LoadBalancerTopology && ValidationErrors(oldCluster, c, l) == []
    ensures BalancerErrors(Elems(c.spec.loadBalancers)) == []
  {
  }

  /** A cluster with a single nameless public load balancer is accepted when nothing else is wrong with it. */
  lemma SingleNamelessIsAccepted(c: Cluster, l: Lookups, lb: V3.LoadBalancerSource)
    requires Elems(c.spec.loadBalancers) == [lb] && IsPublic(lb) && lb.provision.name == ""
    requires (c.spec.zone == "" || l.zoneSupported) && (c.spec.vpc.region == "" || l.regionSupported)
    requires SubnetNamesUnique(Elems(c.spec.vpcSubnets)) && !LocalRoutingRefused(c.spec, l)
    ensures ValidationErrors(None, c, l) == []
  {
    assert IsPublic(Elems(c.spec.loadBalancers)[0]);
    CreateAcceptedExactly(c, l);
  }

  // ---- The errors ----

  lemma RepeatErrors(names: seq<string>, i: nat, x: string)
    ensures DuplicateBalancer(i, x) in Map(BalancerRepeat, Repeats(names)) <==> (i, x) in Repeats(names)
    ensures DuplicateSubnet(i, x) in Map(SubnetRepeat, Repeats(names)) <==> (i, x) in Repeats(names)
    ensures forall e :: e in Map(BalancerRepeat, Repeats(names)) ==> e.DuplicateBalancer?
    ensures forall e :: e in Map(SubnetRepeat, Repeats(names)) ==> e.DuplicateSubnet?
  {
    var r := Repeats(names);
    if (i, x) in r {
      var k :| 0 <= k < |r| && r[k] == (i, x);
      assert Map(BalancerRepeat, r)[k] == DuplicateBalancer(i, x) && Map(SubnetRepeat, r)[k] == DuplicateSubnet(i, x);
    }
    if DuplicateBalancer(i, x) in Map(BalancerRepeat, r) {
      var k :| 0 <= k < |r| && Map(BalancerRepeat, r)[k] == DuplicateBalancer(i, x);
      assert r[k] == (i, x);
    }
    if DuplicateSubnet(i, x) in Map(SubnetRepeat, r) {
      var k :| 0 <= k < |r| && Map(SubnetRepeat, r)[k] == DuplicateSubnet(i, x);
      assert r[k] == (i, x);
    }
  }

  lemma BalancerRepeatsExactly(lbs: seq<V3.LoadBalancerSource>, i: nat, x: string)
    ensures (i, x) in Repeats(Map(BalancerName, lbs)) <==>
            i < |lbs| && BalancerGoesBy(lbs[i], x) && exists j :: 0 <= j < i && BalancerGoesBy(lbs[j], x)
  {
    var names := Map(BalancerName, lbs);
    RepeatsExactly(names, (i, x));
    if i < |lbs| && x in names[..i] && x != "" {
      var j :| 0 <= j < i && names[..i][j] == x;
      assert BalancerGoesBy(lbs[j], x);
    }
    if i < |lbs| && exists j :: 0 <= j < i && BalancerGoesBy(lbs[j], x) {
      var j :| 0 <= j < i && BalancerGoesBy(lbs[j], x);
      assert names[..i][j] == x;
    }
  }

  lemma SubnetRepeatsExactly(subnets: seq<V3.SubnetSource>, i: nat, x: string)
    ensures (i, x) in Repeats(Map(SubnetName, subnets)) <==>
            i < |subnets| && SubnetGoesBy(subnets[i], x) && exists j :: 0 <= j < i && SubnetGoesBy(subnets[j], x)
  {
    var names := Map(SubnetName, subnets);
    RepeatsExactly(names, (i, x));
    if i < |subnets| && x in names[..i] && x != "" {
      var j :| 0 <= j < i && names[..i][j] == x;
      assert SubnetGoesBy(subnets[j], x);
    }
    if i < |subnets| && exists j :: 0 <= j < i && SubnetGoesBy(subnets[j], x) {
      var j :| 0 <= j < i && SubnetGoesBy(subnets[j], x);
      assert names[..i][j] == x;
    }
  }

  lemma BalancerErrorMembers(lbs: seq<V3.LoadBalancerSource>, i: nat, x: string)
    ensures DuplicateBalancer(i, x) in BalancerErrors(lbs) <==>
            i < |lbs| && BalancerGoesBy(lbs[i], x) && exists j :: 0 <= j < i && BalancerGoesBy(lbs[j], x)
    ensures NoPublicBalancer in BalancerErrors(lbs) <==> lbs != [] && forall k :: 0 <= k < |lbs| ==> !IsPublic(lbs[k])
    ensures forall e :: e in BalancerErrors(lbs) ==> e.DuplicateBalancer? || e == NoPublicBalancer
  {
    RepeatErrors(Map(BalancerName, lbs), i, x);
    BalancerRepeatsExactly(lbs, i, x);
  }

  lemma SubnetErrorMembers(subnets: seq<V3.SubnetSource>, i: nat, x: string)
    ensures var errs := Map(SubnetRepeat, Repeats(Map(SubnetName, subnets)));
            && (DuplicateSubnet(i, x) in errs <==>
                i < |subnets| && SubnetGoesBy(subnets[i], x) && exists j :: 0 <= j < i && SubnetGoesBy(subnets[j], x))
            && forall e :: e in errs ==> e.DuplicateSubnet?
  {
    RepeatErrors(Map(SubnetName, subnets), i, x);
    SubnetRepeatsExactly(subnets, i, x);
  }

  /** Each error comes from one of the five checks. */
  lemma InPrereqs(c: Cluster, l: Lookups, e: FieldError)
    requires c.spec.topology == LoadBalancerTopology
    ensures e in PrereqErrors(c, l) <==>
            || (e == UnsupportedZone && c.spec.zone != "" && !l.zoneSupported)
            || (e == UnsupportedRegion && c.spec.vpc.region != "" && !l.regionSupported)
            || e in Map(SubnetRepeat, Repeats(Map(SubnetName, Elems(c.spec.vpcSubnets))))
            || e in BalancerErrors(Elems(c.spec.loadBalancers))
            || (e == LocalRouting && LocalRoutingRefused(c.spec, l))
  {
    FiveParts(When(c.spec.zone != "" && !l.zoneSupported, UnsupportedZone),
              When(c.spec.vpc.region != "" && !l.regionSupported, UnsupportedRegion),
              Map(SubnetRepeat, Repeats(Map(SubnetName, Elems(c.spec.vpcSubnets)))),
              BalancerErrors(Elems(c.spec.loadBalancers)), When(LocalRoutingRefused(c.spec, l), LocalRouting), e);
  }

  /** Which errors a LoadBalancer cluster gets, each by its own cause. */
  lemma ErrorsExactly(c: Cluster, l: Lookups)
    requires c.spec.topology == LoadBalancerTopology
    ensures var errs, lbs := PrereqErrors(c, l), Elems(c.spec.loadBalancers);
            && (UnsupportedZone in errs <==> c.spec.zone != "" && !l.zoneSupported)
            && (UnsupportedRegion in errs <==> c.spec.vpc.region != "" && !l.regionSupported)
            && (NoPublicBalancer in errs <==> lbs != [] && forall k :: 0 <= k < |lbs| ==> !IsPublic(lbs[k]))
            && (LocalRouting in errs <==> LocalRoutingRefused(c.spec, l))
  {
    SubnetErrorMembers(Elems(c.spec.vpcSubnets), 0, "");
    BalancerErrorMembers(Elems(c.spec.loadBalancers), 0, "");
    InPrereqs(c, l, UnsupportedZone);
    InPrereqs(c, l, UnsupportedRegion);
    InPrereqs(c, l, NoPublicBalancer);
    InPrereqs(c, l, LocalRouting);
  }

  /** Which entries are reported as duplicates: those that go by a name of an earlier entry. */
  lemma DuplicatesExactly(c: Cluster, l: Lookups, i: nat, x: string)
    requires c.spec.topology == LoadBalancerTopology
    ensures var errs := PrereqErrors(c, l);
            var lbs, subnets := Elems(c.spec.loadBalancers), Elems(c.spec.vpcSubnets);
            && (DuplicateSubnet(i, x) in errs <==>
                i < |subnets| && SubnetGoesBy(subnets[i], x) && exists j :: 0 <= j < i && SubnetGoesBy(subnets[j], x))
            && (DuplicateBalancer(i, x) in errs <==>
                i < |lbs| && BalancerGoesBy(lbs[i], x) && exists j :: 0 <= j < i && BalancerGoesBy(lbs[j], x))
  {
    SubnetErrorMembers(Elems(c.spec.vpcSubnets), i, x);
    BalancerErrorMembers(Elems(c.spec.loadBalancers), i, x);
    InPrereqs(c, l, DuplicateSubnet(i, x));
    InPrereqs(c, l, DuplicateBalancer(i, x));
  }

  lemma FiveParts(a: seq<FieldError>, b: seq<FieldError>, s: seq<FieldError>, t: seq<FieldError>, r: seq<FieldError>, e: FieldError)
    ensures e in a + b + s + t + r <==> e in a || e in b || e in s || e in t || e in r
  {
  }

  // ---- The listeners behind the selector check ----

  /** How many listeners an entry contributes: none unless it is provisioned. */
  function Contributes(lb: V3.LoadBalancerSource): nat {
    if lb.kind == Provision then |Elems(lb.provision.listeners)| else 0
  }

  /** How many listeners come before those of load balancer `i`. */
  function Offset(lbs: seq<V3.LoadBalancerSource>, i: nat): nat
    requires i <= |lbs|
  {
    if i == 0 then 0 else Offset(lbs, i - 1) + Contributes(lbs[i - 1])
  }

  /** The name always exists. */
  lemma NameExists(clusterName: string, lbs: seq<V3.LoadBalancerSource>, i: nat)
    requires i < |lbs| <= INT_LIMIT
    ensures ResolvedName(clusterName, lbs[i], i) == Some(LBName(clusterName, lbs[i], i))
  {
    if lbs[i].provision.name == "" {
      DerivedNameFits(clusterName, lbs[i], i);
    }
  }

  lemma {:induction false} OffsetOfPrefix(lbs: seq<V3.LoadBalancerSource>, n: nat, i: nat)
    requires i <= n <= |lbs|
    ensures Offset(lbs[..n], i) == Offset(lbs, i)
  {
    if i > 0 {
      OffsetOfPrefix(lbs, n, i - 1);
    }
  }

  /** Listener `j` of load balancer `i`, which goes by `name`, stands in the list at the place where the loops
      reach it. */
  predicate Stands(entries: seq<Entry>, lbs: seq<V3.LoadBalancerSource>, i: nat, j: nat, name: string)
    requires i < |lbs| && j < Contributes(lbs[i])
  {
    var l := Elems(lbs[i].provision.listeners)[j];
    Offset(lbs, i) + j < |entries| && entries[Offset(lbs, i) + j] == Entry(i, Key(name, l.port, l.protocol), l.selector)
  }

  lemma {:induction false} StandsLast(before: seq<Entry>, last: seq<Entry>, lbs: seq<V3.LoadBalancerSource>, n: nat, j: nat, name: string)
    requires n < |lbs| && j < Contributes(lbs[n]) && |before| == Offset(lbs, n)
    requires last == ListenerEntries(name, n, Elems(lbs[n].provision.listeners))
    ensures Stands(before + last, lbs, n, j, name)
  {
    assert (before + last)[|before| + j] == last[j];
  }

  lemma {:induction false} StandsBefore(before: seq<Entry>, last: seq<Entry>, lbs: seq<V3.LoadBalancerSource>, n: nat, i: nat, j: nat, name: string)
    requires i < n <= |lbs| && j < Contributes(lbs[i]) && Stands(before, lbs[..n], i, j, name)
    ensures Stands(before + last, lbs, i, j, name)
  {
    OffsetOfPrefix(lbs, n, i);
  }

  /** Every listener stands in its place under the name of its load balancer, and nothing else is in the
      list. */
  lemma {:induction false} EntriesExactly(clusterName: string, lbs: seq<V3.LoadBalancerSource>, i: nat, j: nat, name: string)
    requires i < |lbs| && j < Contributes(lbs[i]) && name == LBName(clusterName, lbs[i], i)
    ensures |Entries(clusterName, lbs)| == Offset(lbs, |lbs|) && Stands(Entries(clusterName, lbs), lbs, i, j, name)
    decreases |lbs|
  {
    var n := |lbs| - 1;
    var before, last := Entries(clusterName, lbs[..n]), EntriesOf(clusterName, lbs[n], n);
    EntriesLength(clusterName, lbs);
    EntriesLength(clusterName, lbs[..n]);
    OffsetOfPrefix(lbs, n, n);
    assert Entries(clusterName, lbs) == before + last;
    if i == n {
      StandsLast(before, last, lbs, n, j, name);
    } else {
      EntriesExactly(clusterName, lbs[..n], i, j, name);
      StandsBefore(before, last, lbs, n, i, j, name);
    }
  }

  lemma {:induction false} EntriesLength(clusterName: string, lbs: seq<V3.LoadBalancerSource>)
    ensures |Entries(clusterName, lbs)| == Offset(lbs, |lbs|)
    decreases |lbs|
  {
    if lbs != [] {
      var n := |lbs| - 1;
      EntriesLength(clusterName, lbs[..n]);
      OffsetOfPrefix(lbs, n, n);
    }
  }

  /** Exactly which selector errors an update gets: one for every old listener whose key has a last new
      listener with another selector. */
  lemma SelectorErrorsExactly(n: seq<Entry>, o: seq<Entry>, e: FieldError)
    ensures e in Changed(Table(n), o) <==>
            exists k :: 0 <= k < |o| && HasChanged(n, o[k]) && e == SelectorChanged(o[k].index, o[k].key.lbName, o[k].key.port)
  {
    ChangedMembers(Table(n), o, e);
    forall k | 0 <= k < |o| ensures HasChanged(n, o[k]) <==> !Agrees(Table(n), o[k]) {
      ChangeShows(n, o[k]);
    }
  }

  /** The last new listener with the key of `e` has another selector. */
  ghost predicate HasChanged(n: seq<Entry>, e: Entry) {
    exists m :: IsLast(n, m) && n[m].key == e.key && n[m].selector != e.selector
  }

  lemma ChangeShows(n: seq<Entry>, e: Entry)
    ensures HasChanged(n, e) <==> !Agrees(Table(n), e)
  {
    if HasChanged(n, e) {
      var m :| IsLast(n, m) && n[m].key == e.key && n[m].selector != e.selector;
      TableHoldsLast(n, m);
    }
    if !Agrees(Table(n), e) {
      TableHasEntry(n, e.key);
      var m :| IsLast(n, m) && n[m].key == e.key;
      TableHoldsLast(n, m);
    }
  }

  lemma {:induction false} ChangedMembers(table: map<Key, LabelSelector>, o: seq<Entry>, e: FieldError)
    ensures e in Changed(table, o) <==>
            exists k :: 0 <= k < |o| && !Agrees(table, o[k]) && e == SelectorChanged(o[k].index, o[k].key.lbName, o[k].key.port)
    decreases |o|
  {
    if o != [] {
      var n := |o| - 1;
      ChangedMembers(table, o[..n], e);
      assert Changed(table, o) == Changed(table, o[..n]) + ErrorOf(table, o[n]);
      assert e in Changed(table, o) <==> e in Changed(table, o[..n]) || e in ErrorOf(table, o[n]);
      if e in Changed(table, o[..n]) {
        var k :| 0 <= k < n && !Agrees(table, o[..n][k]) && e == SelectorChanged(o[..n][k].index, o[..n][k].key.lbName, o[..n][k].key.port);
        assert o[k] == o[..n][k];
      }
      if k :| 0 <= k < |o| && !Agrees(table, o[k]) && e == SelectorChanged(o[k].index, o[k].key.lbName, o[k].key.port) {
        if k < n {
          assert o[..n][k] == o[k];
        }
      }
    }
  }
}
