/** How the controller finds the host name of a public load balancer, and what that means for
    provisioning. */
module HostLookup {
  import opened Common
  import opened ApiShared
  import opened LbNames
  import opened ClusterModel
  import opened ClusterPass
  import opened ProvisioningLaws
  import WebhookNames
  import V3 = V1beta3

  /** An entry of the status list. */
  datatype Status = Status(name: string, hostname: string)

  /** What the cloud says about a load balancer referenced by identifier only. */
  datatype Fetched = FetchFailed(message: string) | FetchedName(name: Option<string>)

  datatype Target = Refused(message: string) | NoTarget | Named(name: string)

  function NamedIf(name: string): Target { if name == "" then NoTarget else Named(name) }

  /** The name under which the host of an entry is looked for. */
  function TargetOf(clusterName: string, lb: V3.LoadBalancerSource, i: nat, f: Fetched): Target {
    match lb.kind
    case Provision => if lb.provision.kind == Private then NoTarget else NamedIf(Deref(LookupName(clusterName, lb, i)))
    case Reference =>
      if lb.reference.name != "" then Named(lb.reference.name)
      else if lb.reference.id != "" then
        match f
        case FetchFailed(m) => Refused(m)
        case FetchedName(n) => NamedIf(Deref(n))
      else NoTarget
    case _ => NoTarget
  }

  predicate HasHost(s: Status, name: string) { s.name == name && s.hostname != "" }

  function FindHost(statuses: seq<Status>, name: string): (r: Option<string>)
    ensures r.None? <==> forall k :: 0 <= k < |statuses| ==> !HasHost(statuses[k], name)
    ensures r.Some? ==> exists k :: 0 <= k < |statuses| && HasHost(statuses[k], name) && statuses[k].hostname == r.value
  {
    if statuses == [] then None
    else if HasHost(statuses[0], name) then Some(statuses[0].hostname)
    else
      assert forall k :: 0 < k < |statuses| ==> statuses[k] == statuses[1..][k - 1];
      FindHost(statuses[1..], name)
  }

  function HostFrom(clusterName: string, lbs: seq<V3.LoadBalancerSource>, statuses: seq<Status>, fetched: nat -> Fetched, i: nat): HostAnswer
    requires i <= |lbs|
    decreases |lbs| - i
  {
    if i == |lbs| then Host(None)
    else
      match TargetOf(clusterName, lbs[i], i, fetched(i))
      case Refused(m) => HostFailed(m)
      case NoTarget => HostFrom(clusterName, lbs, statuses, fetched, i + 1)
      case Named(name) =>
        if FindHost(statuses, name).Some? then Host(FindHost(statuses, name))
        else HostFrom(clusterName, lbs, statuses, fetched, i + 1)
  }

  function HostName(clusterName: string, lbs: seq<V3.LoadBalancerSource>, statuses: seq<Status>, fetched: nat -> Fetched): HostAnswer {
    if statuses == [] then Host(None)
    else if lbs == [] then Host(FindHost(statuses, Deref(ResourceName(clusterName, "loadbalancer-public", ""))))
    else HostFrom(clusterName, lbs, statuses, fetched, 0)
  }

  // ---- The loops ----

  lemma {:induction false} FindHostSkips(statuses: seq<Status>, name: string, n: nat)
    requires n <= |statuses| && forall k :: 0 <= k < n ==> !HasHost(statuses[k], name)
    ensures FindHost(statuses, name) == FindHost(statuses[n..], name)
  {
    if n > 0 {
      FindHostSkips(statuses[1..], name, n - 1);
      assert statuses[1..][n - 1..] == statuses[n..];
    }
  }

  method SearchStatuses(statuses: seq<Status>, name: string) returns (host: Option<string>)
    ensures host == FindHost(statuses, name)
  {
    for k := 0 to |statuses|
      invariant forall j :: 0 <= j < k ==> !HasHost(statuses[j], name)
    {
      if statuses[k].name == name && statuses[k].hostname != "" {
        FindHostSkips(statuses, name, k);
        return Some(statuses[k].hostname);
      }
    }
    host := None;
  }

  method GetPublicLoadBalancerHostName(clusterName: string, lbs: seq<V3.LoadBalancerSource>, statuses: seq<Status>,
                                       fetched: nat -> Fetched) returns (host: HostAnswer)
    ensures host == HostName(clusterName, lbs, statuses, fetched)
  {
    if |statuses| == 0 {
      return Host(None);
    }
    if |lbs| == 0 {
      var h := SearchStatuses(statuses, Deref(ResourceName(clusterName, "loadbalancer-public", "")));
      return Host(h);
    }
    for i := 0 to |lbs|
      invariant HostFrom(clusterName, lbs, statuses, fetched, 0) == HostFrom(clusterName, lbs, statuses, fetched, i)
    {
      var target := TargetOf(clusterName, lbs[i], i, fetched(i));
      if target.Refused? {
        return HostFailed(target.message);
      }
      if target.Named? {
        var h := SearchStatuses(statuses, target.name);
        if h.Some? {
          return Host(h);
        }
      }
    }
    host := Host(None);
  }

  // ---- Laws ----

  /** Status entry `k` has the host of entry `j`. */
  predicate Serves(clusterName: string, lbs: seq<V3.LoadBalancerSource>, statuses: seq<Status>, fetched: nat -> Fetched,
                   j: nat, k: nat)
    requires j < |lbs| && k < |statuses|
  {
    var t := TargetOf(clusterName, lbs[j], j, fetched(j));
    t.Named? && HasHost(statuses[k], t.name)
  }

  /** A host that is found belongs to an entry of the status list that serves an entry of the spec; when
      none is found, no status entry serves any. */
  lemma {:induction false} HostExactly(clusterName: string, lbs: seq<V3.LoadBalancerSource>, statuses: seq<Status>,
                                       fetched: nat -> Fetched, i: nat)
    requires i <= |lbs|
    ensures var h := HostFrom(clusterName, lbs, statuses, fetched, i);
            && (h.Host? && h.name.Some? ==>
                exists j: nat, k: nat :: i <= j < |lbs| && k < |statuses| && Serves(clusterName, lbs, statuses, fetched, j, k)
                                         && statuses[k].hostname == h.name.value)
            && (h == Host(None) ==>
                forall j: nat, k: nat :: i <= j < |lbs| && k < |statuses| ==> !Serves(clusterName, lbs, statuses, fetched, j, k))
    decreases |lbs| - i
  {
    if i < |lbs| {
      var t := TargetOf(clusterName, lbs[i], i, fetched(i));
      if t.NoTarget? || (t.Named? && FindHost(statuses, t.name).None?) {
        HostExactly(clusterName, lbs, statuses, fetched, i + 1);
      } else if t.Named? {
        var k :| 0 <= k < |statuses| && HasHost(statuses[k], t.name)
                 && statuses[k].hostname == FindHost(statuses, t.name).value;
        assert Serves(clusterName, lbs, statuses, fetched, i, k);
      }
    }
  }

  /** Entry `j` ends the search: it is served, or its reference cannot be fetched. */
  predicate Ends(clusterName: string, lbs: seq<V3.LoadBalancerSource>, statuses: seq<Status>, fetched: nat -> Fetched, j: nat)
    requires j < |lbs|
  {
    var t := TargetOf(clusterName, lbs[j], j, fetched(j));
    t.Refused? || (t.Named? && FindHost(statuses, t.name).Some?)
  }

  /** The first entry that ends the search decides: a failed fetch is reported, a served entry gives the host
      of the first status that serves it; without one there is no host. */
  lemma {:induction false} FirstEntryDecides(clusterName: string, lbs: seq<V3.LoadBalancerSource>, statuses: seq<Status>,
                                             fetched: nat -> Fetched, i: nat, j: nat)
    requires i <= j <= |lbs| && (forall k: nat :: i <= k < j ==> !Ends(clusterName, lbs, statuses, fetched, k))
    requires j < |lbs| ==> Ends(clusterName, lbs, statuses, fetched, j)
    ensures var h := HostFrom(clusterName, lbs, statuses, fetched, i);
            if j == |lbs| then h == Host(None)
            else
              match TargetOf(clusterName, lbs[j], j, fetched(j))
              case Refused(m) => h == HostFailed(m)
              case Named(name) => h == Host(FindHost(statuses, name))
              case NoTarget => true
    decreases j - i
  {
    if i < j {
      assert !Ends(clusterName, lbs, statuses, fetched, i);
      FirstEntryDecides(clusterName, lbs, statuses, fetched, i + 1, j);
    }
  }

  /** A reference is looked for under its name, or without one under the name that the cloud gives for its
      identifier; private and untyped entries are not looked for. */
  lemma TargetsExactly(clusterName: string, lb: V3.LoadBalancerSource, i: nat, f: Fetched)
    ensures var t := TargetOf(clusterName, lb, i, f);
            && (lb.kind == Reference && lb.reference.name != "" ==> t == Named(lb.reference.name))
            && (lb.kind == Reference && lb.reference.name == "" && lb.reference.id != "" && f.FetchFailed? ==> t == Refused(f.message))
            && (lb.kind == Reference && lb.reference.name == "" && lb.reference.id != "" && f.FetchedName? ==>
                (t.NoTarget? <==> !Has(f.name)) && (Has(f.name) ==> t == Named(f.name.value)))
            && (lb.kind == Reference && lb.reference.name == "" && lb.reference.id == "" ==> t == NoTarget)
            && (lb.kind == Provision && lb.provision.kind == Private ==> t == NoTarget)
            && (lb.kind != Provision && lb.kind != Reference ==> t == NoTarget)
  {
  }

  /** With an empty list a host is found exactly when a status entry with a host bears the default public
      name, and then it is that of the first such entry. */
  lemma DefaultHostExactly(clusterName: string, statuses: seq<Status>, fetched: nat -> Fetched)
    ensures var name := CutTo(clusterName, "-loadbalancer-public");
            && HostName(clusterName, [], statuses, fetched) == Host(FindHost(statuses, name))
            && (HostName(clusterName, [], statuses, fetched) == Host(None) <==>
                forall k :: 0 <= k < |statuses| ==> !HasHost(statuses[k], name))
  {
    DefaultNameExactly(clusterName);
  }

  // ---- Status lists as the controller writes them ----

  /** The name under which the controller writes the status of an entry: the cloud's own name for a
      referenced load balancer, the resolved name for any other. */
  function StatusName(clusterName: string, lbs: seq<V3.LoadBalancerSource>, refName: nat -> string, i: nat): string
    requires i < |lbs|
  {
    if lbs[i].kind == Reference then refName(i) else Deref(ResolvedName(clusterName, lbs[i], i))
  }

  /** References have exactly one of identifier and name, and the cloud gives them the name they bear
      there. */
  ghost predicate References(lbs: seq<V3.LoadBalancerSource>, refName: nat -> string, fetched: nat -> Fetched) {
    && |lbs| <= INT_LIMIT
    && forall i: nat :: i < |lbs| && lbs[i].kind == Reference ==>
         && refName(i) != ""
         && (lbs[i].reference.id == "") != (lbs[i].reference.name == "")
         && (lbs[i].reference.name != "" ==> lbs[i].reference.name == refName(i))
         && (lbs[i].reference.id != "" ==> fetched(i).FetchFailed? || fetched(i) == FetchedName(Some(refName(i))))
  }

  /** Status entry `k` is that of entry `i`. */
  predicate StatusOf(clusterName: string, lbs: seq<V3.LoadBalancerSource>, refName: nat -> string, statuses: seq<Status>,
                     i: nat, k: nat)
  {
    i < |lbs| && k < |statuses| && statuses[k].name == StatusName(clusterName, lbs, refName, i)
  }

  ghost predicate HasEntry(clusterName: string, lbs: seq<V3.LoadBalancerSource>, refName: nat -> string,
                           statuses: seq<Status>, k: nat) {
    exists i: nat :: StatusOf(clusterName, lbs, refName, statuses, i, k)
  }

  ghost predicate HasStatus(clusterName: string, lbs: seq<V3.LoadBalancerSource>, refName: nat -> string,
                            statuses: seq<Status>, i: nat) {
    exists k: nat :: StatusOf(clusterName, lbs, refName, statuses, i, k) && statuses[k].hostname != ""
  }

  /** Every status entry is that of an entry of the spec. */
  ghost predicate Written(clusterName: string, lbs: seq<V3.LoadBalancerSource>, refName: nat -> string, statuses: seq<Status>) {
    forall k: nat :: k < |statuses| ==> HasEntry(clusterName, lbs, refName, statuses, k)
  }

  /** Every entry of the spec has a status entry with a host, and every reference can be fetched. */
  ghost predicate Complete(clusterName: string, lbs: seq<V3.LoadBalancerSource>, refName: nat -> string, statuses: seq<Status>,
                           fetched: nat -> Fetched) {
    && (forall i: nat :: i < |lbs| ==> !fetched(i).FetchFailed?)
    && (forall i: nat :: i < |lbs| ==> HasStatus(clusterName, lbs, refName, statuses, i))
  }

  predicate IsOpen(lb: V3.LoadBalancerSource) { lb.kind == Provision && lb.provision.kind != Private }

  /** Some status entry with a host, of another entry or left from an earlier list, bears the name under
      which a nameless first entry is looked for. */
  ghost predicate Covered(clusterName: string, lbs: seq<V3.LoadBalancerSource>, statuses: seq<Status>)
    requires lbs != []
  {
    exists k: nat :: k < |statuses| && HasHost(statuses[k], Deref(LookupName(clusterName, lbs[0], 0)))
  }

  /** The host of entry `i` can be found: it is a reference, or it is open and named or not the first, or
      its lookup name is covered. */
  ghost predicate Findable(clusterName: string, lbs: seq<V3.LoadBalancerSource>, statuses: seq<Status>, i: nat) {
    i < |lbs| &&
    (|| lbs[i].kind == Reference
     || (IsOpen(lbs[i]) && (lbs[i].provision.name != "" || i > 0))
     || (IsOpen(lbs[i]) && i == 0 && Covered(clusterName, lbs, statuses)))
  }

  /** The lookup name of an open entry is not empty. */
  lemma OpenTarget(clusterName: string, lb: V3.LoadBalancerSource, i: nat, f: Fetched)
    requires IsOpen(lb) && i < INT_LIMIT
    ensures LookupName(clusterName, lb, i).Some? && LookupName(clusterName, lb, i).value != ""
    ensures TargetOf(clusterName, lb, i, f) == Named(LookupName(clusterName, lb, i).value)
  {
    if lb.provision.name == "" {
      LookupFits(clusterName, i);
    }
  }

  lemma ReferenceTarget(lbs: seq<V3.LoadBalancerSource>, refName: nat -> string, fetched: nat -> Fetched, clusterName: string, i: nat)
    requires References(lbs, refName, fetched) && i < |lbs| && lbs[i].kind == Reference
    ensures TargetOf(clusterName, lbs[i], i, fetched(i)) == Named(refName(i)) || fetched(i).FetchFailed?
  {
  }

  /** A host that is found belongs to a findable entry, whatever the statuses hold. */
  lemma ServedIsFindable(clusterName: string, lbs: seq<V3.LoadBalancerSource>, statuses: seq<Status>,
                         fetched: nat -> Fetched, j: nat, k: nat)
    requires j < |lbs| && k < |statuses| && Serves(clusterName, lbs, statuses, fetched, j, k)
    ensures Findable(clusterName, lbs, statuses, j)
  {
    if IsOpen(lbs[j]) && j == 0 {
      OpenTarget(clusterName, lbs[0], 0, fetched(0));
    }
  }

  /** With all hosts known, a findable entry is served. */
  lemma FindableIsServed(clusterName: string, lbs: seq<V3.LoadBalancerSource>, refName: nat -> string, statuses: seq<Status>,
                         fetched: nat -> Fetched, j: nat)
    requires References(lbs, refName, fetched) && Complete(clusterName, lbs, refName, statuses, fetched)
    requires Findable(clusterName, lbs, statuses, j)
    ensures exists k: nat :: k < |statuses| && Serves(clusterName, lbs, statuses, fetched, j, k)
  {
    if lbs[j].kind == Reference {
      ReferenceTarget(lbs, refName, fetched, clusterName, j);
      OwnStatusServes(clusterName, lbs, refName, statuses, fetched, j);
    } else {
      OpenTarget(clusterName, lbs[j], j, fetched(j));
      if lbs[j].provision.name == "" && j == 0 {
        var k: nat :| k < |statuses| && HasHost(statuses[k], Deref(LookupName(clusterName, lbs[0], 0)));
        assert Serves(clusterName, lbs, statuses, fetched, j, k);
      } else {
        LookupFindsExactly(clusterName, lbs[j], j);
        OwnStatusServes(clusterName, lbs, refName, statuses, fetched, j);
      }
    }
  }

  /** An entry that is looked for under its own name is served by its own status. */
  lemma OwnStatusServes(clusterName: string, lbs: seq<V3.LoadBalancerSource>, refName: nat -> string, statuses: seq<Status>,
                        fetched: nat -> Fetched, j: nat)
    requires Complete(clusterName, lbs, refName, statuses, fetched) && j < |lbs|
    requires TargetOf(clusterName, lbs[j], j, fetched(j)) == Named(StatusName(clusterName, lbs, refName, j))
             || fetched(j).FetchFailed?
    ensures exists k: nat :: k < |statuses| && Serves(clusterName, lbs, statuses, fetched, j, k)
  {
    assert !fetched(j).FetchFailed? && HasStatus(clusterName, lbs, refName, statuses, j);
    var k: nat :| StatusOf(clusterName, lbs, refName, statuses, j, k) && statuses[k].hostname != "";
    assert Serves(clusterName, lbs, statuses, fetched, j, k);
  }

  lemma {:induction false} NothingRefused(clusterName: string, lbs: seq<V3.LoadBalancerSource>, statuses: seq<Status>,
                                          fetched: nat -> Fetched, i: nat)
    requires i <= |lbs| && forall j: nat :: j < |lbs| ==> !fetched(j).FetchFailed?
    ensures HostFrom(clusterName, lbs, statuses, fetched, i).Host?
    decreases |lbs| - i
  {
    if i < |lbs| {
      NothingRefused(clusterName, lbs, statuses, fetched, i + 1);
    }
  }

  predicate HostFound(h: HostAnswer) { h.Host? && h.name.Some? }

  /** For every list and every status list, entries left from earlier lists included: no host is found
      without a findable entry. */
  lemma NoHostWithoutFindable(clusterName: string, lbs: seq<V3.LoadBalancerSource>, statuses: seq<Status>,
                              fetched: nat -> Fetched)
    requires lbs != [] && HostFound(HostName(clusterName, lbs, statuses, fetched))
    ensures exists i: nat :: Findable(clusterName, lbs, statuses, i)
  {
    HostExactly(clusterName, lbs, statuses, fetched, 0);
    var j: nat, k: nat :| j < |lbs| && k < |statuses| && Serves(clusterName, lbs, statuses, fetched, j, k);
    ServedIsFindable(clusterName, lbs, statuses, fetched, j, k);
  }

  /** For every list: with the hosts of all its entries written, whatever else the statuses hold, a host is
      found exactly when some entry is findable. */
  lemma HostFoundExactly(clusterName: string, lbs: seq<V3.LoadBalancerSource>, refName: nat -> string, statuses: seq<Status>,
                         fetched: nat -> Fetched)
    requires lbs != [] && References(lbs, refName, fetched) && Complete(clusterName, lbs, refName, statuses, fetched)
    ensures HostFound(HostName(clusterName, lbs, statuses, fetched)) <==> exists i: nat :: Findable(clusterName, lbs, statuses, i)
  {
    if HostFound(HostName(clusterName, lbs, statuses, fetched)) {
      NoHostWithoutFindable(clusterName, lbs, statuses, fetched);
    }
    if i: nat :| Findable(clusterName, lbs, statuses, i) {
      FindableIsServed(clusterName, lbs, refName, statuses, fetched, i);
      NothingRefused(clusterName, lbs, statuses, fetched, 0);
      HostExactly(clusterName, lbs, statuses, fetched, 0);
    }
  }

  /** A list the webhook accepts has no findable entry exactly when its first entry is open and nameless
      and its lookup name not covered, no entry is a reference, and every other provisioned entry is
      private. */
  lemma UnfindableExactly(clusterName: string, lbs: seq<V3.LoadBalancerSource>, statuses: seq<Status>)
    requires lbs != [] && WebhookNames.BalancerErrors(lbs) == []
    ensures (forall i: nat :: !Findable(clusterName, lbs, statuses, i)) <==>
            && IsOpen(lbs[0]) && lbs[0].provision.name == "" && !Covered(clusterName, lbs, statuses)
            && (forall i: nat :: 0 < i < |lbs| ==> lbs[i].kind != Reference && !IsOpen(lbs[i]))
  {
    WebhookNames.BalancersValidExactly(lbs);
    var p :| 0 <= p < |lbs| && WebhookNames.IsPublic(lbs[p]);
    assert IsOpen(lbs[p]);
    if forall i: nat :: !Findable(clusterName, lbs, statuses, i) {
      assert !Findable(clusterName, lbs, statuses, p);
      forall i: nat | 0 < i < |lbs| ensures lbs[i].kind != Reference && !IsOpen(lbs[i]) {
        assert !Findable(clusterName, lbs, statuses, i);
      }
    }
  }

  /** Some entry of the list itself bears the lookup name of the first. */
  ghost predicate BearsLookupName(clusterName: string, lbs: seq<V3.LoadBalancerSource>, refName: nat -> string)
    requires lbs != []
  {
    exists j: nat :: j < |lbs| && StatusName(clusterName, lbs, refName, j) == Deref(LookupName(clusterName, lbs[0], 0))
  }

  /** When the statuses are exactly those of the list, with all hosts, the lookup name of the first entry is
      covered exactly when another entry bears it. */
  lemma CoveredExactly(clusterName: string, lbs: seq<V3.LoadBalancerSource>, refName: nat -> string, statuses: seq<Status>,
                       fetched: nat -> Fetched)
    requires lbs != [] && Written(clusterName, lbs, refName, statuses)
    ensures Covered(clusterName, lbs, statuses) ==> BearsLookupName(clusterName, lbs, refName)
    ensures Complete(clusterName, lbs, refName, statuses, fetched) && BearsLookupName(clusterName, lbs, refName)
            ==> Covered(clusterName, lbs, statuses)
  {
    var name := Deref(LookupName(clusterName, lbs[0], 0));
    if k: nat :| k < |statuses| && HasHost(statuses[k], name) {
      assert HasEntry(clusterName, lbs, refName, statuses, k);
      var i: nat :| StatusOf(clusterName, lbs, refName, statuses, i, k);
      assert StatusName(clusterName, lbs, refName, i) == name;
    }
    if Complete(clusterName, lbs, refName, statuses, fetched) && BearsLookupName(clusterName, lbs, refName) {
      var j: nat :| j < |lbs| && StatusName(clusterName, lbs, refName, j) == name;
      assert HasStatus(clusterName, lbs, refName, statuses, j);
      var k: nat :| StatusOf(clusterName, lbs, refName, statuses, j, k) && statuses[k].hostname != "";
      assert HasHost(statuses[k], name);
    }
  }

  // ---- What it means for provisioning ----

  /** Everything but the host is ready. */
  predicate ReadyButHost(w: World, i: CreateInput) {
    Ready(w, i.(host := Host(Some("host"))))
  }

  lemma ReadySplitsHost(w: World, i: CreateInput)
    requires i.host.Host? ==> i.host.name != Some("")
    ensures Ready(w, i) <==> ReadyButHost(w, i) && HostFound(i.host)
  {
  }

  lemma {:induction false} FoundHostsAreNotEmpty(clusterName: string, lbs: seq<V3.LoadBalancerSource>, statuses: seq<Status>,
                                                 fetched: nat -> Fetched, i: nat)
    requires i <= |lbs|
    ensures var h := HostFrom(clusterName, lbs, statuses, fetched, i); h.Host? ==> h.name != Some("")
    decreases |lbs| - i
  {
    if i < |lbs| {
      FoundHostsAreNotEmpty(clusterName, lbs, statuses, fetched, i + 1);
    }
  }

  /** For every list of load balancers and every status list: while no entry is findable, no pass
      provisions the cluster, whatever the cloud answers. */
  lemma UnfindableIsNeverProvisioned(w: World, i: CreateInput, clusterName: string, lbs: seq<V3.LoadBalancerSource>,
                                     statuses: seq<Status>, fetched: nat -> Fetched)
    requires w.spec.topology == LoadBalancerTopology && lbs != []
    requires forall j: nat :: !Findable(clusterName, lbs, statuses, j)
    requires i.host == HostName(clusterName, lbs, statuses, fetched)
    ensures CreatePass(w, i).1 != OK && CreatePass(w, i).0.obj.provisioned == w.obj.provisioned
  {
    if HostFound(i.host) {
      NoHostWithoutFindable(clusterName, lbs, statuses, fetched);
    }
    ProvisionsExactly(w, i);
  }

  /** With the hosts of all entries written, a pass that is otherwise ready provisions exactly when some
      entry is findable. */
  lemma ProvisionedExactly(w: World, i: CreateInput, clusterName: string, lbs: seq<V3.LoadBalancerSource>,
                           refName: nat -> string, statuses: seq<Status>, fetched: nat -> Fetched)
    requires w.spec.topology == LoadBalancerTopology && lbs != [] && References(lbs, refName, fetched)
    requires Complete(clusterName, lbs, refName, statuses, fetched)
    requires i.host == HostName(clusterName, lbs, statuses, fetched)
    ensures CreatePass(w, i).1 == OK <==> ReadyButHost(w, i) && exists j: nat :: Findable(clusterName, lbs, statuses, j)
  {
    FoundHostsAreNotEmpty(clusterName, lbs, statuses, fetched, 0);
    ReadySplitsHost(w, i);
    HostFoundExactly(clusterName, lbs, refName, statuses, fetched);
    ProvisionsExactly(w, i);
  }

  /** A single public load balancer without a name is such a list: it is accepted, and not found in the
      statuses that the controller writes for it. */
  lemma SingleNamelessIsUnfindable(clusterName: string, lb: V3.LoadBalancerSource, refName: nat -> string,
                                   statuses: seq<Status>, fetched: nat -> Fetched)
    requires WebhookNames.IsPublic(lb) && lb.provision.name == "" && Written(clusterName, [lb], refName, statuses)
    ensures WebhookNames.BalancerErrors([lb]) == [] && forall i: nat :: !Findable(clusterName, [lb], statuses, i)
  {
    WebhookNames.BalancersValidExactly([lb]);
    assert WebhookNames.IsPublic([lb][0]);
    OpenTarget(clusterName, lb, 0, fetched(0));
    LookupFindsExactly(clusterName, lb, 0);
    DerivedNameFits(clusterName, lb, 0);
    CoveredExactly(clusterName, [lb], refName, statuses, fetched);
    assert StatusName(clusterName, [lb], refName, 0) != Deref(LookupName(clusterName, lb, 0));
  }
}
