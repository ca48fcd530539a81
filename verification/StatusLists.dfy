/** The status converters between v1beta2 maps keyed by name and v1beta3 lists keyed by name.
    Go ranges over a map in an arbitrary order, so every law is stated for all orders. */
module StatusLists {
  import opened Common

  // ---- One loop for the three kinds of entry ----

  /** `order` visits every key of `m` once. */
  ghost predicate Enumerates<V>(order: seq<string>, m: map<string, V>) {
    (forall i, j :: 0 <= i < j < |order| ==> order[i] != order[j]) && (forall k :: k in order <==> k in m)
  }

  /** Map to list: `up` gives the converted entry, or None where the loop skips it. */
  function Collect<V, S>(m: map<string, V>, order: seq<string>, up: (string, V) -> Option<S>): (l: seq<S>)
    requires forall k :: k in order ==> k in m
    ensures |l| <= |order|
  {
    if order == [] then []
    else
      var k := order[|order| - 1];
      var entry := up(k, m[k]);
      Collect(m, order[..|order| - 1], up) + (if entry.Some? then [entry.value] else [])
  }

  /** List to map: a later entry with the same key wins, entries without a key are skipped. */
  function Fill<S, V>(l: seq<S>, key: S -> string, down: S -> V): map<string, V> {
    if l == [] then map[]
    else
      var s := l[|l| - 1];
      var m := Fill(l[..|l| - 1], key, down);
      if key(s) == "" then m else m[key(s) := down(s)]
  }

  /** A nil map gives a nil list, and so does a map with nothing to convert. */
  function ListUp<V, S>(m: Option<map<string, V>>, order: seq<string>, up: (string, V) -> Option<S>): Slice<S>
    requires m.Some? ==> forall k :: k in order ==> k in m.value
  {
    if m.None? then None else Appended(Collect(m.value, order, up))
  }

  function NonEmptyMap<V>(m: map<string, V>): Option<map<string, V>> {
    if |m| == 0 then None else Some(m)
  }

  function MapDown<S, V>(l: Slice<S>, key: S -> string, down: S -> V): Option<map<string, V>> {
    NonEmptyMap(Fill(Elems(l), key, down))
  }

  /** `order` is the order in which Go happened to range over the map. */
  method ListFromMap<V, S>(m: Option<map<string, V>>, up: (string, V) -> Option<S>)
    returns (out: Slice<S>, ghost order: seq<string>)
    ensures m.Some? ==> Enumerates(order, m.value)
    ensures m.Some? ==> out == ListUp(m, order, up)
    ensures m.None? ==> out.None?
  {
    out, order := None, [];
    if m.Some? {
      var l := [];
      var rest := m.value.Keys;
      while rest != {}
        invariant rest <= m.value.Keys
        invariant forall i, j :: 0 <= i < j < |order| ==> order[i] != order[j]
        invariant forall k :: k in order <==> k in m.value && k !in rest
        invariant l == Collect(m.value, order, up)
        decreases rest
      {
        var k :| k in rest;
        var entry := up(k, m.value[k]);
        if entry.Some? {
          l := l + [entry.value];
        }
        assert (order + [k])[..|order|] == order;
        order := order + [k];
        rest := rest - {k};
      }
      out := if |l| == 0 then None else Some(l);
    }
  }

  method MapFromList<S, V>(l: Slice<S>, key: S -> string, down: S -> V) returns (out: Option<map<string, V>>)
    ensures out == MapDown(l, key, down)
  {
    out := None;
    if l.Some? {
      var m := map[];
      var s := l.value;
      for i := 0 to |s|
        invariant m == Fill(s[..i], key, down)
      {
        assert s[..i + 1][..i] == s[..i];
        if key(s[i]) != "" {
          m := m[key(s[i]) := down(s[i])];
        }
      }
      assert s[..|s|] == s;
      out := if |m| == 0 then None else Some(m);
    }
  }

  /** `up` stores the map key in the entry, and keeps no entry without a key. */
  ghost predicate KeepsKey<V(!new), S>(up: (string, V) -> Option<S>, key: S -> string) {
    forall k, v :: up(k, v).Some? ==> key(up(k, v).value) == k && k != ""
  }

  lemma {:induction false} CollectMembers<V, S>(m: map<string, V>, order: seq<string>, up: (string, V) -> Option<S>, s: S)
    requires forall k :: k in order ==> k in m
    ensures s in Collect(m, order, up) <==> exists k :: k in order && up(k, m[k]) == Some(s)
  {
    if order != [] {
      var n := |order| - 1;
      CollectMembers(m, order[..n], up, s);
      assert order == order[..n] + [order[n]];
    }
  }

  ghost predicate DistinctKeys<S>(l: seq<S>, key: S -> string) {
    forall i, j :: 0 <= i < j < |l| ==> key(l[i]) != key(l[j])
  }

  lemma DistinctKeysOne<S>(l: seq<S>, s: S, key: S -> string)
    requires DistinctKeys(l, key) && forall i :: 0 <= i < |l| ==> key(l[i]) != key(s)
    ensures DistinctKeys(l + [s], key)
  {
  }

  /** No name is listed twice, whatever the order. */
  lemma {:induction false} CollectDistinct<V(!new), S>(m: map<string, V>, order: seq<string>,
                                                      up: (string, V) -> Option<S>, key: S -> string)
    requires forall i, j :: 0 <= i < j < |order| ==> order[i] != order[j]
    requires forall k :: k in order ==> k in m
    requires KeepsKey(up, key)
    ensures DistinctKeys(Collect(m, order, up), key)
  {
    if order != [] {
      var n := |order| - 1;
      var init := Collect(m, order[..n], up);
      CollectDistinct(m, order[..n], up, key);
      forall i | 0 <= i < |init| ensures key(init[i]) != order[n] {
        CollectMembers(m, order[..n], up, init[i]);
        var k :| k in order[..n] && up(k, m[k]) == Some(init[i]);
        assert key(init[i]) == k;
      }
      var entry := up(order[n], m[order[n]]);
      if entry.Some? {
        assert key(entry.value) == order[n];
        DistinctKeysOne(init, entry.value, key);
        assert Collect(m, order, up) == init + [entry.value];
      } else {
        assert Collect(m, order, up) == init;
      }
    }
  }

  /** Exactly the convertible entries, each under its own key. */
  lemma {:induction false} FillOfCollect<V(!new), S>(m: map<string, V>, order: seq<string>, up: (string, V) -> Option<S>,
                                                    key: S -> string, down: S -> V)
    requires forall k :: k in order ==> k in m
    requires KeepsKey(up, key)
    ensures Fill(Collect(m, order, up), key, down)
            == map k | k in order && up(k, m[k]).Some? :: down(up(k, m[k]).value)
  {
    if order != [] {
      var n := |order| - 1;
      FillOfCollect(m, order[..n], up, key, down);
      var init := Collect(m, order[..n], up);
      var entry := up(order[n], m[order[n]]);
      assert order == order[..n] + [order[n]];
      if entry.Some? {
        assert (init + [entry.value])[..|init|] == init;
      } else {
        assert Collect(m, order, up) == init;
      }
    }
  }

  // ---- List to map to list ----

  lemma {:induction false} FillKeys<S, V>(l: seq<S>, key: S -> string, down: S -> V)
    requires DistinctKeys(l, key)
    requires forall i :: 0 <= i < |l| ==> key(l[i]) != ""
    ensures var m := Fill(l, key, down);
            && (forall i :: 0 <= i < |l| ==> key(l[i]) in m && m[key(l[i])] == down(l[i]))
            && (forall k :: k in m ==> exists i :: 0 <= i < |l| && key(l[i]) == k)
  {
    if l != [] {
      FillKeys(l[..|l| - 1], key, down);
    }
  }

  /** Entry `n` is the last with its key. */
  ghost predicate LastWithKey<S>(l: seq<S>, key: S -> string, n: int) {
    0 <= n < |l| && forall k :: n < k < |l| ==> key(l[k]) != key(l[n])
  }

  /** The map holds exactly the last entry of every non-empty key. */
  lemma {:induction false} FillHoldsLast<S, V>(l: seq<S>, key: S -> string, down: S -> V, n: int)
    requires LastWithKey(l, key, n)
    ensures key(l[n]) != "" ==> key(l[n]) in Fill(l, key, down) && Fill(l, key, down)[key(l[n])] == down(l[n])
    ensures "" !in Fill(l, key, down)
    decreases |l|
  {
    var m := |l| - 1;
    if n < m {
      FillHoldsLast(l[..m], key, down, n);
    } else {
      FillHasNoEmptyKey(l[..m], key, down);
    }
  }

  lemma {:induction false} FillHasNoEmptyKey<S, V>(l: seq<S>, key: S -> string, down: S -> V)
    ensures "" !in Fill(l, key, down)
    ensures forall k :: k in Fill(l, key, down) ==> exists i :: 0 <= i < |l| && key(l[i]) == k
  {
    if l != [] {
      FillHasNoEmptyKey(l[..|l| - 1], key, down);
    }
  }

  lemma {:induction false} CountDistinct<S>(l: seq<S>, s: S)
    requires forall i, j :: 0 <= i < j < |l| ==> l[i] != l[j]
    ensures multiset(l)[s] == if s in l then 1 else 0
  {
    if l != [] {
      var n := |l| - 1;
      assert l == l[..n] + [l[n]];
      CountDistinct(l[..n], s);
    }
  }

  lemma SameElements<S>(a: seq<S>, b: seq<S>)
    requires forall i, j :: 0 <= i < j < |a| ==> a[i] != a[j]
    requires forall i, j :: 0 <= i < j < |b| ==> b[i] != b[j]
    requires forall s :: s in a <==> s in b
    ensures multiset(a) == multiset(b)
  {
    forall s ensures multiset(a)[s] == multiset(b)[s] {
      CountDistinct(a, s);
      CountDistinct(b, s);
    }
  }

  /** A list with distinct names whose entries lose nothing on the way down comes back as a
      permutation of itself. */
  lemma ListTripPermutes<V(!new), S(!new)>(l: seq<S>, order: seq<string>, up: (string, V) -> Option<S>,
                                           key: S -> string, down: S -> V)
    requires DistinctKeys(l, key)
    requires forall i :: 0 <= i < |l| ==> key(l[i]) != "" && up(key(l[i]), down(l[i])) == Some(l[i])
    requires KeepsKey(up, key)
    requires Enumerates(order, Fill(l, key, down))
    ensures multiset(Collect(Fill(l, key, down), order, up)) == multiset(l)
  {
    var m := Fill(l, key, down);
    var back := Collect(m, order, up);
    FillKeys(l, key, down);
    CollectDistinct(m, order, up, key);
    forall s ensures s in back <==> s in l {
      CollectMembers(m, order, up, s);
      if s in l {
        var i :| 0 <= i < |l| && l[i] == s;
        assert key(s) in order && up(key(s), m[key(s)]) == Some(s);
      }
    }
    SameElements(back, l);
  }

  // ---- The three kinds of entry ----

  datatype ResourceReference = ResourceReference(id: Option<string>, controllerCreated: Option<bool>)

  datatype BalancerStatusV2 = BalancerStatusV2(id: Option<string>, state: string, hostname: Option<string>,
                                               controllerCreated: Option<bool>)

  datatype GroupStatusV2 = GroupStatusV2(id: Option<string>, ruleIDs: Slice<Option<string>>, controllerCreated: Option<bool>)

  datatype SubnetStatus = SubnetStatus(id: string, name: string, zone: string)

  datatype BalancerStatus = BalancerStatus(name: string, id: string, state: string, hostname: string)

  datatype GroupStatus = GroupStatus(id: string, name: string, rules: Slice<string>)

  function SubnetUp(name: string, r: ResourceReference): Option<SubnetStatus> {
    if !Has(r.id) || name == "" then None else Some(SubnetStatus(r.id.value, name, ""))
  }

  function SubnetKey(s: SubnetStatus): string { if s.name != "" then s.name else s.id }

  function SubnetDown(s: SubnetStatus): ResourceReference { ResourceReference(Ptr(s.id), None) }

  function BalancerUp(name: string, b: BalancerStatusV2): Option<BalancerStatus> {
    if name == "" then None else Some(BalancerStatus(name, Deref(b.id), b.state, Deref(b.hostname)))
  }

  function BalancerKey(b: BalancerStatus): string { if b.name != "" then b.name else b.id }

  function BalancerDown(b: BalancerStatus): BalancerStatusV2 {
    BalancerStatusV2(Ptr(b.id), b.state, Ptr(b.hostname), None)
  }

  function GroupUp(name: string, g: GroupStatusV2): Option<GroupStatus> {
    if name == "" then None else Some(GroupStatus(Deref(g.id), name, Appended(NonNil(Elems(g.ruleIDs)))))
  }

  function GroupKey(g: GroupStatus): string { if g.name != "" then g.name else g.id }

  /** Rule IDs that are empty strings are dropped on the way down. */
  function RuleIdsDown(ids: seq<string>): seq<Option<string>> {
    if ids == [] then [] else (if ids[0] == "" then [] else [Some(ids[0])]) + RuleIdsDown(ids[1..])
  }

  function GroupDown(g: GroupStatus): GroupStatusV2 {
    GroupStatusV2(Ptr(g.id), Appended(RuleIdsDown(Elems(g.rules))), None)
  }

  /** Down: an entry goes under its name, or without one under its ID. */
  lemma KeysExactly(s: SubnetStatus, b: BalancerStatus, g: GroupStatus)
    ensures s.name != "" ==> SubnetKey(s) == s.name
    ensures s.name == "" ==> SubnetKey(s) == s.id
    ensures b.name != "" ==> BalancerKey(b) == b.name
    ensures b.name == "" ==> BalancerKey(b) == b.id
    ensures g.name != "" ==> GroupKey(g) == g.name
    ensures g.name == "" ==> GroupKey(g) == g.id
  {
  }

  /** Up: what an entry holds. */
  lemma UpFields(name: string, r: ResourceReference, b: BalancerStatusV2, g: GroupStatusV2)
    ensures SubnetUp(name, r).Some? <==> name != "" && Has(r.id)
    ensures SubnetUp(name, r).Some? ==> SubnetUp(name, r).value.name == name && Some(SubnetUp(name, r).value.id) == r.id && SubnetUp(name, r).value.zone == ""
    ensures BalancerUp(name, b).Some? <==> name != ""
    ensures BalancerUp(name, b).Some? ==>
              var h := BalancerUp(name, b).value;
              h.name == name && h.id == Deref(b.id) && h.state == b.state && h.hostname == Deref(b.hostname)
    ensures GroupUp(name, g).Some? <==> name != ""
    ensures GroupUp(name, g).Some? ==> GroupUp(name, g).value.name == name && GroupUp(name, g).value.id == Deref(g.id)
  {
  }

  // ---- What a v1beta2 status keeps ----

  function Normal(p: Option<string>): Option<string> { if Has(p) then p else None }

  function NormalReference(r: ResourceReference): ResourceReference { ResourceReference(r.id, None) }

  function NormalBalancer(b: BalancerStatusV2): BalancerStatusV2 {
    BalancerStatusV2(Normal(b.id), b.state, Normal(b.hostname), None)
  }

  /** The rule IDs that are neither nil nor empty, in order. */
  function RealIds(ids: seq<Option<string>>): seq<Option<string>> {
    if ids == [] then [] else (if Has(ids[0]) then [ids[0]] else []) + RealIds(ids[1..])
  }

  function NormalGroup(g: GroupStatusV2): GroupStatusV2 {
    GroupStatusV2(Normal(g.id), Appended(RealIds(Elems(g.ruleIDs))), None)
  }

  lemma {:induction false} RuleIdsTrip(ids: seq<Option<string>>)
    ensures RuleIdsDown(NonNil(ids)) == RealIds(ids)
  {
    if ids != [] {
      RuleIdsTrip(ids[1..]);
      if ids[0].Some? {
        assert NonNil(ids)[1..] == NonNil(ids[1..]);
      } else {
        assert NonNil(ids) == NonNil(ids[1..]);
      }
    }
  }

  lemma GroupEntryTrip(name: string, g: GroupStatusV2)
    requires name != ""
    ensures GroupDown(GroupUp(name, g).value) == NormalGroup(g)
  {
    RuleIdsTrip(Elems(g.ruleIDs));
    var u := NonNil(Elems(g.ruleIDs));
    assert Elems(Appended(u)) == u;
  }

  /** The nil handling around the loops only replaces an empty result by nil. */
  lemma NilTrip<V, S>(m: map<string, V>, order: seq<string>, up: (string, V) -> Option<S>, key: S -> string, down: S -> V)
    requires forall k :: k in order ==> k in m
    ensures MapDown(ListUp(Some(m), order, up), key, down) == NonEmptyMap(Fill(Collect(m, order, up), key, down))
  {
    var l := Collect(m, order, up);
    assert Elems(Appended(l)) == l;
  }

  // For every iteration order, the map comes back with exactly these entries, nil when there is none.

  function SubnetsKept(m: map<string, ResourceReference>): map<string, ResourceReference> {
    map k | k in m && k != "" && Has(m[k].id) :: NormalReference(m[k])
  }

  function BalancersKept(m: map<string, BalancerStatusV2>): map<string, BalancerStatusV2> {
    map k | k in m && k != "" :: NormalBalancer(m[k])
  }

  function GroupsKept(m: map<string, GroupStatusV2>): map<string, GroupStatusV2> {
    map k | k in m && k != "" :: NormalGroup(m[k])
  }

  lemma SubnetEntriesKept(m: map<string, ResourceReference>, order: seq<string>)
    requires Enumerates(order, m)
    ensures Fill(Collect(m, order, SubnetUp), SubnetKey, SubnetDown) == SubnetsKept(m)
  {
    FillOfCollect(m, order, SubnetUp, SubnetKey, SubnetDown);
  }

  lemma BalancerEntriesKept(m: map<string, BalancerStatusV2>, order: seq<string>)
    requires Enumerates(order, m)
    ensures Fill(Collect(m, order, BalancerUp), BalancerKey, BalancerDown) == BalancersKept(m)
  {
    FillOfCollect(m, order, BalancerUp, BalancerKey, BalancerDown);
  }

  lemma GroupEntriesKept(m: map<string, GroupStatusV2>, order: seq<string>)
    requires Enumerates(order, m)
    ensures Fill(Collect(m, order, GroupUp), GroupKey, GroupDown) == GroupsKept(m)
  {
    FillOfCollect(m, order, GroupUp, GroupKey, GroupDown);
    forall k | k in m && k != "" { GroupEntryTrip(k, m[k]); }
  }

  lemma SubnetStatusRoundTrip(m: Option<map<string, ResourceReference>>, order: seq<string>)
    requires m.Some? ==> Enumerates(order, m.value)
    ensures MapDown(ListUp(m, order, SubnetUp), SubnetKey, SubnetDown)
            == if m.None? then None else NonEmptyMap(SubnetsKept(m.value))
  {
    if m.Some? {
      NilTrip(m.value, order, SubnetUp, SubnetKey, SubnetDown);
      SubnetEntriesKept(m.value, order);
    }
  }

  lemma BalancerStatusRoundTrip(m: Option<map<string, BalancerStatusV2>>, order: seq<string>)
    requires m.Some? ==> Enumerates(order, m.value)
    ensures MapDown(ListUp(m, order, BalancerUp), BalancerKey, BalancerDown)
            == if m.None? then None else NonEmptyMap(BalancersKept(m.value))
  {
    if m.Some? {
      NilTrip(m.value, order, BalancerUp, BalancerKey, BalancerDown);
      BalancerEntriesKept(m.value, order);
    }
  }

  lemma GroupStatusRoundTrip(m: Option<map<string, GroupStatusV2>>, order: seq<string>)
    requires m.Some? ==> Enumerates(order, m.value)
    ensures MapDown(ListUp(m, order, GroupUp), GroupKey, GroupDown)
            == if m.None? then None else NonEmptyMap(GroupsKept(m.value))
  {
    if m.Some? {
      NilTrip(m.value, order, GroupUp, GroupKey, GroupDown);
      GroupEntriesKept(m.value, order);
    }
  }

  // The loops themselves, up and down again, for each kind of entry.

  method SubnetStatusesThereAndBack(m: Option<map<string, ResourceReference>>) returns (back: Option<map<string, ResourceReference>>)
    ensures back == if m.None? then None else NonEmptyMap(SubnetsKept(m.value))
  {
    var l, order := ListFromMap(m, SubnetUp);
    back := MapFromList(l, SubnetKey, SubnetDown);
    SubnetStatusRoundTrip(m, order);
  }

  method BalancerStatusesThereAndBack(m: Option<map<string, BalancerStatusV2>>) returns (back: Option<map<string, BalancerStatusV2>>)
    ensures back == if m.None? then None else NonEmptyMap(BalancersKept(m.value))
  {
    var l, order := ListFromMap(m, BalancerUp);
    back := MapFromList(l, BalancerKey, BalancerDown);
    BalancerStatusRoundTrip(m, order);
  }

  method GroupStatusesThereAndBack(m: Option<map<string, GroupStatusV2>>) returns (back: Option<map<string, GroupStatusV2>>)
    ensures back == if m.None? then None else NonEmptyMap(GroupsKept(m.value))
  {
    var l, order := ListFromMap(m, GroupUp);
    back := MapFromList(l, GroupKey, GroupDown);
    GroupStatusRoundTrip(m, order);
  }

  /** Hub load balancer statuses with distinct names come back permuted, none lost or changed. */
  lemma HubBalancerStatusRoundTrip(l: seq<BalancerStatus>, order: seq<string>)
    requires forall i, j :: 0 <= i < j < |l| ==> l[i].name != l[j].name
    requires forall i :: 0 <= i < |l| ==> l[i].name != ""
    requires Enumerates(order, Fill(l, BalancerKey, BalancerDown))
    ensures multiset(Collect(Fill(l, BalancerKey, BalancerDown), order, BalancerUp)) == multiset(l)
  {
    ListTripPermutes(l, order, BalancerUp, BalancerKey, BalancerDown);
  }

  /** The converted lists never name an entry twice, as their listMapKey markers demand. */
  lemma SubnetNamesDistinct(m: map<string, ResourceReference>, order: seq<string>)
    requires Enumerates(order, m)
    ensures var l := Collect(m, order, SubnetUp); forall i, j :: 0 <= i < j < |l| ==> l[i].name != l[j].name
  {
    CollectDistinct(m, order, SubnetUp, SubnetKey);
    forall s | s in Collect(m, order, SubnetUp) ensures s.name != "" {
      CollectMembers(m, order, SubnetUp, s);
    }
  }

  lemma BalancerNamesDistinct(m: map<string, BalancerStatusV2>, order: seq<string>)
    requires Enumerates(order, m)
    ensures var l := Collect(m, order, BalancerUp); forall i, j :: 0 <= i < j < |l| ==> l[i].name != l[j].name
  {
    CollectDistinct(m, order, BalancerUp, BalancerKey);
    forall s | s in Collect(m, order, BalancerUp) ensures s.name != "" {
      CollectMembers(m, order, BalancerUp, s);
    }
  }

  lemma GroupNamesDistinct(m: map<string, GroupStatusV2>, order: seq<string>)
    requires Enumerates(order, m)
    ensures var l := Collect(m, order, GroupUp); forall i, j :: 0 <= i < j < |l| ==> l[i].name != l[j].name
  {
    CollectDistinct(m, order, GroupUp, GroupKey);
    forall s | s in Collect(m, order, GroupUp) ensures s.name != "" {
      CollectMembers(m, order, GroupUp, s);
    }
  }
}
