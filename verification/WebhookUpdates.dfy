/** The webhook's check that selectors of listeners do not change, and the whole validation. */
module WebhookUpdates {
  import opened Common
  import opened ApiShared
  import opened LbNames
  import opened WebhookNames
  import V3 = V1beta3

  datatype Cluster = Cluster(name: string, spec: V3.ClusterSpec)

  datatype Key = Key(lbName: string, port: int, protocol: string)

  /** One listener of a provisioned load balancer, with the position of the load balancer. */
  datatype Entry = Entry(index: nat, key: Key, selector: LabelSelector)

  /** For lists shorter than 2^63 the name exists (`DerivedNameFits`). */
  function LBName(clusterName: string, lb: V3.LoadBalancerSource, i: nat): string {
    Deref(ResolvedName(clusterName, lb, i))
  }

  /** The listeners of one load balancer. */
  function ListenerEntries(lbName: string, i: nat, listeners: seq<V3.Listener>): (r: seq<Entry>)
    ensures |r| == |listeners|
    ensures forall j :: 0 <= j < |r| ==>
              r[j] == Entry(i, Key(lbName, listeners[j].port, listeners[j].protocol), listeners[j].selector)
  {
    seq(|listeners|, j requires 0 <= j < |listeners| =>
          Entry(i, Key(lbName, listeners[j].port, listeners[j].protocol), listeners[j].selector))
  }

  function EntriesOf(clusterName: string, lb: V3.LoadBalancerSource, i: nat): seq<Entry> {
    if lb.kind != Provision then []
    else ListenerEntries(LBName(clusterName, lb, i), i, Elems(lb.provision.listeners))
  }

  /** All listeners of a list of load balancers, in the order of the loops. */
  function Entries(clusterName: string, lbs: seq<V3.LoadBalancerSource>): seq<Entry>
    decreases |lbs|
  {
    if lbs == [] then []
    else
      var n := |lbs| - 1;
      Entries(clusterName, lbs[..n]) + EntriesOf(clusterName, lbs[n], n)
  }

  function EntriesOfCluster(c: Cluster): seq<Entry> { Entries(c.name, Elems(c.spec.loadBalancers)) }

  /** The map that the first loop builds: a later entry overwrites an earlier one. */
  function Table(entries: seq<Entry>): map<Key, LabelSelector>
    decreases |entries|
  {
    if entries == [] then map[]
    else
      var n := |entries| - 1;
      Table(entries[..n])[entries[n].key := entries[n].selector]
  }

  function ErrorOf(table: map<Key, LabelSelector>, e: Entry): seq<FieldError> {
    if e.key in table && table[e.key] != e.selector then [SelectorChanged(e.index, e.key.lbName, e.key.port)] else []
  }

  function Changed(table: map<Key, LabelSelector>, entries: seq<Entry>): seq<FieldError>
    decreases |entries|
  {
    if entries == [] then []
    else
      var n := |entries| - 1;
      Changed(table, entries[..n]) + ErrorOf(table, entries[n])
  }

  function SelectorErrors(newCluster: Cluster, oldCluster: Cluster): seq<FieldError> {
    Changed(Table(EntriesOfCluster(newCluster)), EntriesOfCluster(oldCluster))
  }

  // ---- The loops ----

  lemma PrefixOne(before: seq<Entry>, entries: seq<Entry>, j: nat)
    requires j < |entries|
    ensures before + entries[..j + 1] == before + entries[..j] + [entries[j]]
  {
  }

  lemma TableOne(entries: seq<Entry>, e: Entry)
    ensures Table(entries + [e]) == Table(entries)[e.key := e.selector]
  {
    assert (entries + [e])[..|entries|] == entries;
  }

  lemma ChangedOne(table: map<Key, LabelSelector>, entries: seq<Entry>, e: Entry)
    ensures Changed(table, entries + [e]) == Changed(table, entries) + ErrorOf(table, e)
  {
    assert (entries + [e])[..|entries|] == entries;
  }

  lemma EntriesOne(clusterName: string, lbs: seq<V3.LoadBalancerSource>, i: nat)
    requires i < |lbs|
    ensures Entries(clusterName, lbs[..i + 1]) == Entries(clusterName, lbs[..i]) + EntriesOf(clusterName, lbs[i], i)
  {
    assert lbs[..i + 1][..i] == lbs[..i];
  }

  /** The inner loop that fills the map. */
  method AddListeners(start: map<Key, LabelSelector>, lbName: string, i: nat, listeners: seq<V3.Listener>,
                      ghost before: seq<Entry>)
    returns (table: map<Key, LabelSelector>)
    requires start == Table(before)
    ensures table == Table(before + ListenerEntries(lbName, i, listeners))
  {
    table := start;
    ghost var entries := ListenerEntries(lbName, i, listeners);
    assert before + entries[..0] == before;
    for j := 0 to |listeners|
      invariant table == Table(before + entries[..j])
    {
      ghost var e := entries[j];
      TableOne(before + entries[..j], e);
      PrefixOne(before, entries, j);
      assert e.key == Key(lbName, listeners[j].port, listeners[j].protocol) && e.selector == listeners[j].selector;
      table := table[Key(lbName, listeners[j].port, listeners[j].protocol) := listeners[j].selector];
    }
    assert entries[..|listeners|] == entries;
  }

  method CollectListeners(clusterName: string, lbs: seq<V3.LoadBalancerSource>)
    returns (table: map<Key, LabelSelector>)
    ensures table == Table(Entries(clusterName, lbs))
  {
    table := map[];
    for i := 0 to |lbs|
      invariant table == Table(Entries(clusterName, lbs[..i]))
    {
      ghost var before := Entries(clusterName, lbs[..i]);
      EntriesOne(clusterName, lbs, i);
      if lbs[i].kind != Provision {
        assert before + [] == before;
        continue;
      }
      table := AddListeners(table, LBName(clusterName, lbs[i], i), i, Elems(lbs[i].provision.listeners), before);
    }
    assert lbs[..|lbs|] == lbs;
  }

  /** The inner loop that compares. */
  method CompareListeners(table: map<Key, LabelSelector>, lbName: string, i: nat, listeners: seq<V3.Listener>,
                          start: seq<FieldError>, ghost before: seq<Entry>)
    returns (errs: seq<FieldError>)
    requires start == Changed(table, before)
    ensures errs == Changed(table, before + ListenerEntries(lbName, i, listeners))
  {
    errs := start;
    ghost var entries := ListenerEntries(lbName, i, listeners);
    assert before + entries[..0] == before;
    for j := 0 to |listeners|
      invariant errs == Changed(table, before + entries[..j])
    {
      ChangedOne(table, before + entries[..j], entries[j]);
      PrefixOne(before, entries, j);
      var key := Key(lbName, listeners[j].port, listeners[j].protocol);
      if key in table && table[key] != listeners[j].selector {
        errs := errs + [SelectorChanged(i, lbName, listeners[j].port)];
      }
    }
    assert entries[..|listeners|] == entries;
  }

  method ValidateSelectors(newCluster: Cluster, oldCluster: Cluster) returns (errs: seq<FieldError>)
    ensures errs == SelectorErrors(newCluster, oldCluster)
  {
    var table := CollectListeners(newCluster.name, Elems(newCluster.spec.loadBalancers));
    var lbs := Elems(oldCluster.spec.loadBalancers);
    errs := [];
    for i := 0 to |lbs|
      invariant errs == Changed(table, Entries(oldCluster.name, lbs[..i]))
    {
      ghost var before := Entries(oldCluster.name, lbs[..i]);
      EntriesOne(oldCluster.name, lbs, i);
      if lbs[i].kind != Provision {
        assert before + [] == before;
        continue;
      }
      errs := CompareListeners(table, LBName(oldCluster.name, lbs[i], i), i, Elems(lbs[i].provision.listeners), errs, before);
    }
    assert lbs[..|lbs|] == lbs;
  }

  // ---- One update ----

  /** Entry `n` is the last with its key. */
  predicate IsLast(entries: seq<Entry>, n: int) {
    0 <= n < |entries| && forall k :: n < k < |entries| ==> entries[k].key != entries[n].key
  }

  /** The table holds exactly the last entry of every key. */
  lemma {:induction false} TableHoldsLast(entries: seq<Entry>, n: int)
    requires IsLast(entries, n)
    ensures entries[n].key in Table(entries) && Table(entries)[entries[n].key] == entries[n].selector
    decreases |entries|
  {
    var m := |entries| - 1;
    if n < m {
      TableHoldsLast(entries[..m], n);
    }
  }

  lemma {:induction false} TableHasEntry(entries: seq<Entry>, key: Key)
    requires key in Table(entries)
    ensures exists n :: IsLast(entries, n) && entries[n].key == key
    decreases |entries|
  {
    var m := |entries| - 1;
    if entries[m].key == key {
      assert IsLast(entries, m);
    } else {
      TableHasEntry(entries[..m], key);
      var n :| IsLast(entries[..m], n) && entries[..m][n].key == key;
      assert IsLast(entries, n);
    }
  }

  predicate Agrees(table: map<Key, LabelSelector>, e: Entry) {
    e.key in table ==> table[e.key] == e.selector
  }

  lemma {:induction false} NothingChanged(table: map<Key, LabelSelector>, entries: seq<Entry>)
    ensures Changed(table, entries) == [] <==> forall k :: 0 <= k < |entries| ==> Agrees(table, entries[k])
    decreases |entries|
  {
    if entries != [] {
      var n := |entries| - 1;
      NothingChanged(table, entries[..n]);
      assert entries == entries[..n] + [entries[n]];
      assert ErrorOf(table, entries[n]) == [] <==> Agrees(table, entries[n]);
    }
  }

  /** An update keeps the selectors: every old selector equals that of the last new entry with its key,
      if there is one. */
  ghost predicate SelectorsKept(newEntries: seq<Entry>, oldEntries: seq<Entry>) {
    forall k, n :: 0 <= k < |oldEntries| && IsLast(newEntries, n) && newEntries[n].key == oldEntries[k].key
                   ==> newEntries[n].selector == oldEntries[k].selector
  }

  lemma TableComparesLast(n: seq<Entry>, o: seq<Entry>)
    ensures Changed(Table(n), o) == [] <==> SelectorsKept(n, o)
  {
    var table := Table(n);
    NothingChanged(table, o);
    if Changed(table, o) == [] {
      forall k, m | 0 <= k < |o| && IsLast(n, m) && n[m].key == o[k].key ensures n[m].selector == o[k].selector {
        TableHoldsLast(n, m);
        assert Agrees(table, o[k]);
      }
    }
    if SelectorsKept(n, o) {
      forall k | 0 <= k < |o| && o[k].key in table ensures Agrees(table, o[k]) {
        TableHasEntry(n, o[k].key);
        var m :| IsLast(n, m) && n[m].key == o[k].key;
        TableHoldsLast(n, m);
      }
    }
  }

  /** Duplicate keys included, an update is accepted exactly when it keeps the selectors. */
  lemma SelectorsKeptExactly(newCluster: Cluster, oldCluster: Cluster)
    ensures SelectorErrors(newCluster, oldCluster) == [] <==>
            SelectorsKept(EntriesOfCluster(newCluster), EntriesOfCluster(oldCluster))
  {
    TableComparesLast(EntriesOfCluster(newCluster), EntriesOfCluster(oldCluster));
  }

  // ---- Chains of updates ----

  /** `key` belongs to exactly one listener. */
  ghost predicate Unique(entries: seq<Entry>, key: Key) {
    exists n :: 0 <= n < |entries| && entries[n].key == key
                && forall k :: 0 <= k < |entries| && k != n ==> entries[k].key != key
  }

  ghost function SelectorOf(entries: seq<Entry>, key: Key): LabelSelector
    requires Unique(entries, key)
  {
    var n :| 0 <= n < |entries| && entries[n].key == key
             && forall k :: 0 <= k < |entries| && k != n ==> entries[k].key != key;
    entries[n].selector
  }

  /** The single step, on two lists of listeners. */
  lemma KeptSelector(n: seq<Entry>, o: seq<Entry>, key: Key)
    requires SelectorsKept(n, o) && Unique(n, key) && Unique(o, key)
    ensures SelectorOf(n, key) == SelectorOf(o, key)
  {
    var i :| 0 <= i < |n| && n[i].key == key && forall k :: 0 <= k < |n| && k != i ==> n[k].key != key;
    assert IsLast(n, i);
  }

  // ---- The whole validation ----

  /** Answers of the region tables. */
  datatype Lookups = Lookups(zoneSupported: bool, regionSupported: bool, globalRoutingNeeded: bool)

  function When(b: bool, e: FieldError): seq<FieldError> { if b then [e] else [] }

  /** Local routing is refused when zone and region need global routing. */
  predicate LocalRoutingRefused(s: V3.ClusterSpec, l: Lookups) {
    && s.zone != "" && s.vpc.region != ""
    && s.transitGateway.kind == Provision && s.transitGateway.globalRouting == Local && l.globalRoutingNeeded
  }

  function PrereqErrors(c: Cluster, l: Lookups): seq<FieldError> {
    if c.spec.topology != LoadBalancerTopology then []
    else
      When(c.spec.zone != "" && !l.zoneSupported, UnsupportedZone)
      + When(c.spec.vpc.region != "" && !l.regionSupported, UnsupportedRegion)
      + Map(SubnetRepeat, Repeats(Map(SubnetName, Elems(c.spec.vpcSubnets))))
      + BalancerErrors(Elems(c.spec.loadBalancers))
      + When(LocalRoutingRefused(c.spec, l), LocalRouting)
  }

  method ValidateSubnetNames(subnets: seq<V3.SubnetSource>) returns (errs: seq<FieldError>)
    ensures errs == Map(SubnetRepeat, Repeats(Map(SubnetName, subnets)))
    ensures errs == [] <==> NamesDistinct(Map(SubnetName, subnets))
  {
    var names := ConvertEach(SubnetName, subnets);
    var repeats := FindRepeats(names);
    NoRepeatsExactly(names);
    errs := ConvertEach(SubnetRepeat, repeats);
  }

  method ValidatePrereqs(c: Cluster, l: Lookups) returns (errs: seq<FieldError>)
    ensures errs == PrereqErrors(c, l)
  {
    errs := [];
    if c.spec.topology != LoadBalancerTopology {
      return;
    }
    errs := When(c.spec.zone != "" && !l.zoneSupported, UnsupportedZone);
    errs := errs + When(c.spec.vpc.region != "" && !l.regionSupported, UnsupportedRegion);
    var subnetErrs := ValidateSubnetNames(Elems(c.spec.vpcSubnets));
    errs := errs + subnetErrs;
    var balancerErrs := ValidateLoadBalancers(Elems(c.spec.loadBalancers));
    errs := errs + balancerErrs;
    errs := errs + When(LocalRoutingRefused(c.spec, l), LocalRouting);
  }

  function ValidationErrors(oldCluster: Option<Cluster>, newCluster: Cluster, l: Lookups): seq<FieldError> {
    PrereqErrors(newCluster, l) + (if oldCluster.Some? then SelectorErrors(newCluster, oldCluster.value) else [])
  }

  /** Selectors are compared only on update. */
  method Validate(oldCluster: Option<Cluster>, newCluster: Cluster, l: Lookups) returns (errs: seq<FieldError>)
    ensures errs == ValidationErrors(oldCluster, newCluster, l)
  {
    errs := ValidatePrereqs(newCluster, l);
    if oldCluster.Some? {
      var more := ValidateSelectors(newCluster, oldCluster.value);
      errs := errs + more;
    }
  }

  /** The webhook lets the update through, whatever the region tables say at that time. */
  ghost predicate Accepted(oldCluster: Cluster, newCluster: Cluster) {
    exists l :: ValidationErrors(Some(oldCluster), newCluster, l) == []
  }

  lemma AcceptedKeepsSelectors(oldCluster: Cluster, newCluster: Cluster)
    requires Accepted(oldCluster, newCluster)
    ensures SelectorsKept(EntriesOfCluster(newCluster), EntriesOfCluster(oldCluster))
  {
    assert SelectorErrors(newCluster, oldCluster) == [];
    SelectorsKeptExactly(newCluster, oldCluster);
  }

  /** On lists of listeners: what each version keeps of the one before, the last keeps of the first. */
  lemma {:induction false} ChainKeepsSelector(lists: seq<seq<Entry>>, key: Key, n: nat)
    requires forall k :: 0 < k < |lists| ==> SelectorsKept(lists[k], lists[k - 1])
    requires n < |lists| && forall k :: 0 <= k < |lists| ==> Unique(lists[k], key)
    ensures SelectorOf(lists[n], key) == SelectorOf(lists[0], key)
  {
    if n > 0 {
      ChainKeepsSelector(lists, key, n - 1);
      KeptSelector(lists[n], lists[n - 1], key);
    }
  }

  /** Over every chain of accepted updates, a listener key that is unique in every version keeps the
      selector of the first version. */
  lemma SelectorsNeverChange(versions: seq<Cluster>, key: Key, n: nat)
    requires forall k :: 0 < k < |versions| ==> Accepted(versions[k - 1], versions[k])
    requires n < |versions|
    requires forall k :: 0 <= k < |versions| ==> Unique(EntriesOfCluster(versions[k]), key)
    ensures SelectorOf(EntriesOfCluster(versions[n]), key) == SelectorOf(EntriesOfCluster(versions[0]), key)
  {
    var lists := Map(EntriesOfCluster, versions);
    forall k | 0 < k < |lists| ensures SelectorsKept(lists[k], lists[k - 1]) {
      AcceptedKeepsSelectors(versions[k - 1], versions[k]);
    }
    ChainKeepsSelector(lists, key, n);
  }
}
