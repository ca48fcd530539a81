/** The webhook's checks on the names of load balancers and subnets. */
module WebhookNames {
  import opened Common
  import opened ApiShared
  import opened LbNames
  import V3 = V1beta3

  datatype FieldError =
    | UnsupportedZone
    | UnsupportedRegion
    | DuplicateSubnet(index: nat, name: string)
    | DuplicateBalancer(index: nat, name: string)
    | NoPublicBalancer
    | LocalRouting
    | SelectorChanged(index: nat, lbName: string, port: int)

  /** The name an entry gives itself. */
  function SpecName(kind: SourceType, referenceName: string, provisionName: string): string {
    match kind
    case Reference => referenceName
    case Provision => provisionName
    case _ => ""
  }

  function BalancerName(lb: V3.LoadBalancerSource): string {
    SpecName(lb.kind, lb.reference.name, lb.provision.name)
  }

  function SubnetName(s: V3.SubnetSource): string {
    SpecName(s.kind, s.reference.name, s.provisionName)
  }

  /** An entry that repeats a name: its position and the name. */
  type Repeat = (nat, string)

  /** The entries that repeat an earlier non-empty name. */
  function Repeats(names: seq<string>): seq<Repeat> {
    if names == [] then []
    else
      var n := |names| - 1;
      Repeats(names[..n]) + (if names[n] != "" && names[n] in names[..n] then [(n, names[n])] else [])
  }

  /** The loop over a list of names with its `found` map. */
  method FindRepeats(names: seq<string>) returns (repeats: seq<Repeat>)
    ensures repeats == Repeats(names)
  {
    repeats := [];
    var found: map<string, bool> := map[];
    for i := 0 to |names|
      invariant repeats == Repeats(names[..i])
      invariant forall x :: x in found <==> x in names[..i] && x != ""
    {
      assert names[..i + 1][..i] == names[..i];
      var name := names[i];
      if name == "" {
        continue;
      }
      if name in found {
        repeats := repeats + [(i, name)];
        continue;
      }
      found := found[name := true];
    }
    assert names[..|names|] == names;
  }

  /** Exactly the entries that are not the first with their name are reported, each once and in order. */
  lemma {:induction false} RepeatsExactly(names: seq<string>, r: Repeat)
    ensures r in Repeats(names) <==> r.0 < |names| && r.1 == names[r.0] && r.1 != "" && r.1 in names[..r.0]
  {
    if names != [] {
      var n := |names| - 1;
      var last := if names[n] != "" && names[n] in names[..n] then [(n, names[n])] else [];
      RepeatsExactly(names[..n], r);
      assert Repeats(names) == Repeats(names[..n]) + last;
      assert r in Repeats(names) <==> r in Repeats(names[..n]) || r in last;
      if r.0 < n {
        assert names[..n][..r.0] == names[..r.0];
      }
    }
  }

  lemma {:induction false} RepeatsInOrder(names: seq<string>)
    ensures forall i, j :: 0 <= i < j < |Repeats(names)| ==> Repeats(names)[i].0 < Repeats(names)[j].0
    ensures forall i :: 0 <= i < |Repeats(names)| ==> Repeats(names)[i].0 < |names|
  {
    if names != [] {
      RepeatsInOrder(names[..|names| - 1]);
    }
  }

  function NonEmptyCount(names: seq<string>): nat {
    if names == [] then 0
    else NonEmptyCount(names[..|names| - 1]) + (if names[|names| - 1] != "" then 1 else 0)
  }

  function DistinctNames(names: seq<string>): set<string> { set x | x in names && x != "" }

  /** As many errors as there are non-empty names beyond the distinct ones. */
  lemma {:induction false} RepeatsCount(names: seq<string>)
    ensures |Repeats(names)| == NonEmptyCount(names) - |DistinctNames(names)|
  {
    if names != [] {
      var n := |names| - 1;
      RepeatsCount(names[..n]);
      assert names == names[..n] + [names[n]];
      var before := DistinctNames(names[..n]);
      if names[n] == "" || names[n] in names[..n] {
        assert DistinctNames(names) == before;
      } else {
        assert DistinctNames(names) == before + {names[n]};
      }
    }
  }

  predicate NamesDistinct(names: seq<string>) {
    forall i, j :: 0 <= i < j < |names| && names[i] != "" ==> names[i] != names[j]
  }

  lemma NoRepeatsExactly(names: seq<string>)
    ensures Repeats(names) == [] <==> NamesDistinct(names)
  {
    if !NamesDistinct(names) {
      var i, j :| 0 <= i < j < |names| && names[i] != "" && names[i] == names[j];
      assert names[..j][i] == names[j];
      RepeatsExactly(names, (j, names[j]));
    }
    if Repeats(names) != [] {
      var r := Repeats(names)[0];
      RepeatsExactly(names, r);
      var i :| 0 <= i < r.0 && names[..r.0][i] == r.1;
      assert names[i] == names[r.0];
    }
  }

  // ---- Load balancers ----

  /** Provisioned and public, or of no stated type. */
  predicate IsPublic(lb: V3.LoadBalancerSource) {
    lb.kind == Provision && (lb.provision.kind == Public || lb.provision.kind == NoBalancerType)
  }

  function BalancerRepeat(r: Repeat): FieldError { DuplicateBalancer(r.0, r.1) }

  function SubnetRepeat(r: Repeat): FieldError { DuplicateSubnet(r.0, r.1) }

  /** Repeated names, and the lack of a public entry in a list that is not empty. */
  function BalancerErrors(lbs: seq<V3.LoadBalancerSource>): seq<FieldError> {
    Map(BalancerRepeat, Repeats(Map(BalancerName, lbs)))
    + (if lbs != [] && (forall k :: 0 <= k < |lbs| ==> !IsPublic(lbs[k])) then [NoPublicBalancer] else [])
  }

  method ValidateLoadBalancers(lbs: seq<V3.LoadBalancerSource>) returns (errs: seq<FieldError>)
    ensures errs == BalancerErrors(lbs)
    ensures errs == [] <==> NamesDistinct(Map(BalancerName, lbs))
                            && (lbs == [] || exists k :: 0 <= k < |lbs| && IsPublic(lbs[k]))
  {
    var names := ConvertEach(BalancerName, lbs);
    var repeats := FindRepeats(names);
    NoRepeatsExactly(names);
    errs := ConvertEach(BalancerRepeat, repeats);
    if |lbs| == 0 {
      return;
    }
    for k := 0 to |lbs|
      invariant forall j :: 0 <= j < k ==> !IsPublic(lbs[j])
    {
      if IsPublic(lbs[k]) {
        return;
      }
    }
    errs := errs + [NoPublicBalancer];
  }

  /** Load balancer validation passes exactly when names are distinct and the list is empty or holds a
      provisioned public entry. */
  lemma BalancersValidExactly(lbs: seq<V3.LoadBalancerSource>)
    ensures BalancerErrors(lbs) == [] <==>
            NamesDistinct(Map(BalancerName, lbs)) && (lbs == [] || exists k :: 0 <= k < |lbs| && IsPublic(lbs[k]))
  {
    NoRepeatsExactly(Map(BalancerName, lbs));
  }

  // ---- Names in the cloud ----

  /** The names under which two provisioned entries exist in the cloud are the same. */
  predicate Collide(clusterName: string, lbs: seq<V3.LoadBalancerSource>, i: nat, j: nat)
    requires i < |lbs| && j < |lbs|
  {
    i != j && lbs[i].kind == lbs[j].kind == Provision
    && ResolvedName(clusterName, lbs[i], i) == ResolvedName(clusterName, lbs[j], j)
  }

  /** Of two accepted entries that collide, one is nameless and the other bears its derived name. */
  lemma CollisionsExactly(clusterName: string, lbs: seq<V3.LoadBalancerSource>, i: nat, j: nat)
    requires BalancerErrors(lbs) == [] && |lbs| <= INT_LIMIT && i < j < |lbs|
    requires lbs[i].kind == lbs[j].kind == Provision
    ensures Collide(clusterName, lbs, i, j) <==>
            || (lbs[i].provision.name == "" && Some(lbs[j].provision.name) == ResolvedName(clusterName, lbs[i], i))
            || (lbs[j].provision.name == "" && Some(lbs[i].provision.name) == ResolvedName(clusterName, lbs[j], j))
  {
    BalancersValidExactly(lbs);
    assert Map(BalancerName, lbs)[i] == lbs[i].provision.name && Map(BalancerName, lbs)[j] == lbs[j].provision.name;
    if lbs[i].provision.name == "" { DerivedNameFits(clusterName, lbs[i], i); }
    if lbs[j].provision.name == "" { DerivedNameFits(clusterName, lbs[j], j); }
    if lbs[i].provision.name == "" && lbs[j].provision.name == "" {
      DerivedNamesDistinct(clusterName, lbs[i], i, lbs[j], j);
    }
  }

  /** Such lists are accepted: every cluster has one. */
  lemma CollisionIsAccepted(clusterName: string, first: V3.LoadBalancerSource, second: V3.LoadBalancerSource)
    requires IsPublic(first) && first.provision.name == "" && second.kind == Provision
    requires Some(second.provision.name) == ResolvedName(clusterName, first, 0)
    ensures BalancerErrors([first, second]) == [] && Collide(clusterName, [first, second], 0, 1)
  {
    var lbs := [first, second];
    DerivedNameFits(clusterName, first, 0);
    assert IsPublic(lbs[0]);
    assert Map(BalancerName, lbs) == ["", second.provision.name];
    BalancersValidExactly(lbs);
    CollisionsExactly(clusterName, lbs, 0, 1);
  }
}
