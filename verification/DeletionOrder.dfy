/** The order in which a cluster is taken down, with every component named: what a delete pass touches,
    what it answers, and in which order it makes its calls, over whole runs too. */
module DeletionOrder {
  import opened Common
  import opened ApiShared
  import opened ClusterModel
  import opened ClusterPass
  import opened DeletionLaws
  import opened ProvisioningLaws
  import opened ClusterRuns

  /** What has to be gone, or at least asked to go without being pending, before a component. */
  function GoesBefore(c: Component): set<Component> {
    match c
    case TransitGateway => {}
    case LoadBalancers => {TransitGateway}
    case SecurityGroups => {TransitGateway, LoadBalancers}
    case Subnets => {TransitGateway, LoadBalancers, SecurityGroups}
    case VPC => {TransitGateway, LoadBalancers, SecurityGroups, Subnets}
    case Network => {TransitGateway, LoadBalancers, SecurityGroups, Subnets, VPC}
    case Workspace => {TransitGateway, LoadBalancers, SecurityGroups, Subnets, VPC, Network}
    case COS => {TransitGateway, LoadBalancers, SecurityGroups, Subnets, VPC, Network, Workspace}
  }

  /** Nothing that goes before `c` is pending. */
  predicate Unblocked(a: Answers, c: Component) {
    forall d :: d in GoesBefore(c) ==> DeleteOutcome(a, d) != Pending
  }

  // ---- Positions in the chain ----

  function Rank(c: Component): nat {
    match c
    case TransitGateway => 0
    case LoadBalancers => 1
    case SecurityGroups => 2
    case Subnets => 3
    case VPC => 4
    case Network => 5
    case Workspace => 6
    case COS => 7
  }

  lemma RankIsPosition(s: Spec, c: Component)
    ensures |DeleteOrder(s)| == (if s.HasCOS() then 8 else 7)
    ensures Rank(c) < |DeleteOrder(s)| ==> DeleteOrder(s)[Rank(c)] == c
    ensures Rank(c) < |DeleteOrder(s)| <==> c != COS || s.HasCOS()
  {
    assert DeleteOrder(s) == [TransitGateway, LoadBalancers, SecurityGroups, Subnets, VPC, Network, Workspace]
                             + (if s.HasCOS() then [COS] else []);
  }

  lemma RankOfPosition(s: Spec, k: nat)
    requires k < |DeleteOrder(s)|
    ensures Rank(DeleteOrder(s)[k]) == k
  {
    assert DeleteOrder(s) == [TransitGateway, LoadBalancers, SecurityGroups, Subnets, VPC, Network, Workspace]
                             + (if s.HasCOS() then [COS] else []);
  }

  lemma GoesBeforeIsRank(c: Component, d: Component)
    ensures d in GoesBefore(c) <==> Rank(d) < Rank(c)
  {
  }

  // ---- What a pass touches ----

  function ConditionOf(m: map<Component, Condition>, c: Component): Option<Condition> {
    if c in m then Some(m[c]) else None
  }

  /** Condition, resources and record of `c` are as they were. */
  ghost predicate Untouched(w: World, after: World, c: Component) {
    && ConditionOf(after.obj.conditions, c) == ConditionOf(w.obj.conditions, c)
    && (forall r: Resource :: r.kind == c ==> (r in after.cloud <==> r in w.cloud))
    && (forall r: Resource :: r.kind == c ==> (r in after.obj.recorded <==> r in w.obj.recorded))
  }

  lemma StepUntouched(w: World, d: Component, i: DeleteInput, c: Component)
    requires d != c && (c == Network ==> d != Workspace)
    ensures Untouched(w, AfterDelete(w, d, i), c)
  {
  }

  lemma UntouchedTwice(w: World, v: World, u: World, c: Component)
    requires Untouched(w, v, c) && Untouched(v, u, c)
    ensures Untouched(w, u, c)
  {
  }

  /** A chain that stops at position `p`, or runs to its end, touches only what it has called. */
  lemma {:induction false} ChainUntouched(w: World, todo: seq<Component>, errs: seq<Error>, i: DeleteInput, c: Component, p: nat)
    requires p <= |todo| && (p < |todo| ==> DeleteOutcome(i.answers, todo[p]) == Pending)
    requires forall j :: 0 <= j <= p && j < |todo| ==> todo[j] != c && (c == Network ==> todo[j] != Workspace)
    ensures Untouched(w, DeleteChain(w, todo, errs, i).0, c)
    decreases |todo|
  {
    if todo != [] {
      var d := todo[0];
      var next := AfterDelete(w, d, i);
      StepUntouched(w, d, i, c);
      match DeleteOutcome(i.answers, d)
      case Failed(m) =>
        ChainUntouched(next, todo[1..], errs + [DeleteError(d, m)], i, c, p - 1);
        UntouchedTwice(w, next, DeleteChain(w, todo, errs, i).0, c);
      case Pending =>
      case Done =>
        ChainUntouched(next, todo[1..], errs, i, c, p - 1);
        UntouchedTwice(w, next, DeleteChain(w, todo, errs, i).0, c);
    }
  }

  /** A delete pass leaves a component alone as long as anything that goes before it is pending: its
      resources stay, its condition stays. */
  lemma BlockedIsUntouched(w: World, i: DeleteInput, c: Component)
    requires !Unblocked(i.answers, c)
    ensures Untouched(w, DeletePass(w, i).0, c)
  {
    if ImageStage(i.listing) == OK && w.spec.topology == LoadBalancerTopology {
      var d :| d in GoesBefore(c) && DeleteOutcome(i.answers, d) == Pending;
      GoesBeforeIsRank(c, d);
      RankIsPosition(w.spec, d);
      var todo := DeleteOrder(w.spec);
      assert d != COS;
      forall j | 0 <= j <= Rank(d) ensures todo[j] != c && (c == Network ==> todo[j] != Workspace) {
        RankOfPosition(w.spec, j);
      }
      ChainUntouched(w, todo, [], i, c, Rank(d));
    }
  }

  /** A COS instance is left alone when the spec has no COS section; everything is, while images are
      left or outside LoadBalancer topology. */
  lemma SkippedIsUntouched(w: World, i: DeleteInput, c: Component)
    requires (c == COS && !w.spec.HasCOS()) || i.listing != Images([]) || w.spec.topology != LoadBalancerTopology
    ensures Untouched(w, DeletePass(w, i).0, c)
  {
    ImagesGone(i.listing);
    if i.listing == Images([]) && w.spec.topology == LoadBalancerTopology {
      var todo := DeleteOrder(w.spec);
      forall j | 0 <= j < |todo| ensures todo[j] != COS {
        RankOfPosition(w.spec, j);
        RankIsPosition(w.spec, COS);
      }
      if p :| 0 <= p < |todo| && DeleteOutcome(i.answers, todo[p]) == Pending {
        ChainUntouched(w, todo, [], i, c, p);
      } else {
        ChainUntouched(w, todo, [], i, c, |todo|);
      }
    }
  }

  const DELETING := Condition(false, DeletingReason, "")

  lemma {:induction false} MarkStays(w: World, todo: seq<Component>, errs: seq<Error>, i: DeleteInput, c: Component)
    requires ConditionOf(w.obj.conditions, c) == Some(DELETING)
    ensures ConditionOf(DeleteChain(w, todo, errs, i).0.obj.conditions, c) == Some(DELETING)
    decreases |todo|
  {
    if todo != [] {
      var d := todo[0];
      var next := AfterDelete(w, d, i);
      assert ConditionOf(next.obj.conditions, c) == Some(DELETING);
      match DeleteOutcome(i.answers, d)
      case Failed(m) => MarkStays(next, todo[1..], errs + [DeleteError(d, m)], i, c);
      case Pending =>
      case Done => MarkStays(next, todo[1..], errs, i, c);
    }
  }

  lemma {:induction false} ChainMarks(w: World, todo: seq<Component>, errs: seq<Error>, i: DeleteInput, p: nat)
    requires p < |todo| && forall j :: 0 <= j < p ==> DeleteOutcome(i.answers, todo[j]) != Pending
    ensures ConditionOf(DeleteChain(w, todo, errs, i).0.obj.conditions, todo[p]) == Some(DELETING)
    decreases |todo|
  {
    var d := todo[0];
    var next := AfterDelete(w, d, i);
    var errs' := if DeleteOutcome(i.answers, d).Failed? then errs + [DeleteError(d, DeleteOutcome(i.answers, d).message)] else errs;
    if DeleteOutcome(i.answers, d) != Pending {
      assert DeleteChain(w, todo, errs, i) == DeleteChain(next, todo[1..], errs', i);
      if p == 0 {
        MarkStays(next, todo[1..], errs', i, d);
      } else {
        assert todo[1..][p - 1] == todo[p];
        ChainMarks(next, todo[1..], errs', i, p - 1);
      }
    }
  }

  /** A component that nothing before it holds up is marked as being deleted. */
  lemma UnblockedIsMarked(w: World, i: DeleteInput, c: Component)
    requires w.spec.topology == LoadBalancerTopology && i.listing == Images([]) && (c == COS ==> w.spec.HasCOS())
    requires Unblocked(i.answers, c)
    ensures ConditionOf(DeletePass(w, i).0.obj.conditions, c) == Some(DELETING)
  {
    ImagesGone(i.listing);
    var todo := DeleteOrder(w.spec);
    RankIsPosition(w.spec, c);
    forall j | 0 <= j < Rank(c) ensures DeleteOutcome(i.answers, todo[j]) != Pending {
      RankOfPosition(w.spec, j);
      GoesBeforeIsRank(c, todo[j]);
    }
    ChainMarks(w, todo, [], i, Rank(c));
  }

  // ---- What a pass answers ----

  function ErrorOf(a: Answers, c: Component): seq<Error> {
    match DeleteOutcome(a, c)
    case Failed(m) => [DeleteError(c, m)]
    case _ => []
  }

  /** The answer of a delete pass over a LoadBalancer cluster without images: the first pending component
      decides how long to wait; otherwise all failures are reported. */
  function DeleteAnswer(s: Spec, a: Answers): Result {
    if DeleteOutcome(a, TransitGateway) == Pending then Requeue(60)
    else if DeleteOutcome(a, LoadBalancers) == Pending then Requeue(60)
    else if DeleteOutcome(a, Subnets) == Pending then Requeue(15)
    else if DeleteOutcome(a, VPC) == Pending then Requeue(15)
    else if DeleteOutcome(a, Workspace) == Pending then Requeue(60)
    else
      Result(0, Failures([TransitGateway, LoadBalancers, SecurityGroups, Subnets, VPC, Network, Workspace]
                         + (if s.HasCOS() then [COS] else []), a))
  }

  lemma ChainAnswerStep(w: World, c: Component, rest: seq<Component>, errs: seq<Error>, i: DeleteInput)
    ensures DeleteOutcome(i.answers, c) == Pending ==> DeleteChain(w, [c] + rest, errs, i).1 == Requeue(DeleteDelay(c))
    ensures DeleteOutcome(i.answers, c) != Pending ==>
              DeleteChain(w, [c] + rest, errs, i).1 == DeleteChain(AfterDelete(w, c, i), rest, errs + ErrorOf(i.answers, c), i).1
  {
    assert ([c] + rest)[1..] == rest;
    assert errs + [] == errs;
  }

  lemma {:induction false} ChainAnswer(w: World, todo: seq<Component>, errs: seq<Error>, i: DeleteInput)
    requires forall c :: c in todo ==> DeleteOutcome(i.answers, c) != Pending
    ensures DeleteChain(w, todo, errs, i).1 == Result(0, errs + Failures(todo, i.answers))
  {
    ChainResult(w, todo, errs, i);
  }

  lemma {:induction false} FirstPending(w: World, todo: seq<Component>, errs: seq<Error>, i: DeleteInput, p: nat)
    requires p < |todo| && DeleteOutcome(i.answers, todo[p]) == Pending
    requires forall j :: 0 <= j < p ==> DeleteOutcome(i.answers, todo[j]) != Pending
    ensures DeleteChain(w, todo, errs, i).1 == Requeue(DeleteDelay(todo[p]))
    decreases |todo|
  {
    assert todo == [todo[0]] + todo[1..];
    ChainAnswerStep(w, todo[0], todo[1..], errs, i);
    if p > 0 {
      FirstPending(AfterDelete(w, todo[0], i), todo[1..], errs + ErrorOf(i.answers, todo[0]), i, p - 1);
    }
  }

  /** The result of such a pass, exactly. */
  lemma DeleteAnswerExactly(w: World, i: DeleteInput)
    requires w.spec.topology == LoadBalancerTopology && i.listing == Images([])
    ensures DeletePass(w, i).1 == DeleteAnswer(w.spec, i.answers)
  {
    ImagesGone(i.listing);
    var todo := DeleteOrder(w.spec);
    if c :| c in todo && DeleteOutcome(i.answers, c) == Pending {
      var first := FirstPendingComponent(i.answers);
      RankIsPosition(w.spec, first);
      forall j | 0 <= j < Rank(first) ensures DeleteOutcome(i.answers, todo[j]) != Pending {
        RankOfPosition(w.spec, j);
      }
      FirstPending(w, todo, [], i, Rank(first));
    } else {
      forall c ensures c in todo ==> DeleteOutcome(i.answers, c) != Pending {
      }
      ChainAnswer(w, todo, [], i);
      assert todo == [TransitGateway, LoadBalancers, SecurityGroups, Subnets, VPC, Network, Workspace]
                     + (if w.spec.HasCOS() then [COS] else []);
      DeleteOrderMembers(w.spec, TransitGateway);
      DeleteOrderMembers(w.spec, LoadBalancers);
      DeleteOrderMembers(w.spec, Subnets);
      DeleteOrderMembers(w.spec, VPC);
      DeleteOrderMembers(w.spec, Workspace);
    }
  }

  function FirstPendingComponent(a: Answers): (c: Component)
    requires exists d :: DeleteOutcome(a, d) == Pending
    ensures DeleteOutcome(a, c) == Pending && c != COS
    ensures forall d :: Rank(d) < Rank(c) ==> DeleteOutcome(a, d) != Pending
  {
    if DeleteOutcome(a, TransitGateway) == Pending then TransitGateway
    else if DeleteOutcome(a, LoadBalancers) == Pending then LoadBalancers
    else if DeleteOutcome(a, Subnets) == Pending then Subnets
    else if DeleteOutcome(a, VPC) == Pending then VPC
    else Workspace
  }

  /** The image stage, exactly: a failed listing, the failures to delete, a wait of five seconds, or on. */
  lemma ImageAnswerExactly(w: World, i: DeleteInput)
    requires i.listing != Images([])
    ensures DeletePass(w, i).0 == w
    ensures i.listing.ListFailed? ==> DeletePass(w, i).1 == Fail(ListError(i.listing.message))
    ensures i.listing.Images? && (forall k :: 0 <= k < |i.listing.items| ==> !FailsToDelete(i.listing.items[k])) ==>
              DeletePass(w, i).1 == Requeue(5)
    ensures i.listing.Images? && (exists k :: 0 <= k < |i.listing.items| && FailsToDelete(i.listing.items[k])) ==>
              DeletePass(w, i).1.requeueAfter == 0 && DeletePass(w, i).1.errors == ChildErrors(Owned(i.listing.items)) != []
  {
    ImagesGone(i.listing);
    if i.listing.Images? {
      var items := i.listing.items;
      var errs := ChildErrors(Owned(items));
      if errs != [] {
        assert errs[0] in errs;
        ChildErrorsExactly(items, errs[0]);
      }
      if k :| 0 <= k < |items| && FailsToDelete(items[k]) {
        ChildErrorsExactly(items, ChildError(items[k].name, items[k].deleteErr.value));
      }
    }
  }

  // ---- The order of delete calls, over runs ----

  /** The outcome of the last call for `c`. */
  function LastOutcome(calls: seq<Call>, c: Component): Option<Outcome>
    decreases |calls|
  {
    if calls == [] then None
    else if calls[|calls| - 1].component == c then Some(calls[|calls| - 1].outcome)
    else LastOutcome(calls[..|calls| - 1], c)
  }

  /** `d` was called, and its last call was not pending. */
  predicate Passed(calls: seq<Call>, d: Component) {
    LastOutcome(calls, d).Some? && LastOutcome(calls, d).value != Pending
  }

  /** Every delete call comes after calls for all that goes before it, none of them pending. */
  ghost predicate TakenDownInOrder(calls: seq<Call>) {
    forall k :: 0 <= k < |calls| ==> MayFollow(calls[..k], calls[k].component)
  }

  ghost predicate MayFollow(calls: seq<Call>, c: Component) {
    forall d :: d in GoesBefore(c) ==> Passed(calls, d)
  }

  lemma LastOutcomeOne(calls: seq<Call>, k: Call, c: Component)
    ensures LastOutcome(calls + [k], c) == if k.component == c then Some(k.outcome) else LastOutcome(calls, c)
  {
    assert (calls + [k])[..|calls|] == calls;
  }

  lemma InOrderOne(calls: seq<Call>, k: Call)
    requires TakenDownInOrder(calls) && MayFollow(calls, k.component)
    ensures TakenDownInOrder(calls + [k])
  {
    var more := calls + [k];
    forall n | 0 <= n < |more| ensures MayFollow(more[..n], more[n].component) {
      assert more[..n] == calls[..n];
      if n == |calls| {
        assert calls[..n] == calls;
      }
    }
  }

  /** What is left of the chain: each link needs only links before it, or calls already passed. */
  ghost predicate MayGoOn(calls: seq<Call>, todo: seq<Component>) {
    forall k, d :: 0 <= k < |todo| && d in GoesBefore(todo[k]) ==> d in todo[..k] || Passed(calls, d)
  }

  lemma GoOn(calls: seq<Call>, todo: seq<Component>, o: Outcome)
    requires todo != [] && MayGoOn(calls, todo) && o != Pending
    ensures MayGoOn(calls + [Call(todo[0], o)], todo[1..])
  {
    var c, rest := todo[0], todo[1..];
    var more := calls + [Call(c, o)];
    forall k, d | 0 <= k < |rest| && d in GoesBefore(rest[k]) ensures d in rest[..k] || Passed(more, d) {
      assert todo[k + 1] == rest[k] && todo[..k + 1] == [c] + rest[..k];
      assert d in GoesBefore(todo[k + 1]);
      assert d in todo[..k + 1] || Passed(calls, d);
      LastOutcomeOne(calls, Call(c, o), d);
    }
  }

  lemma {:induction false} ChainTakesDownInOrder(w: World, todo: seq<Component>, errs: seq<Error>, i: DeleteInput)
    requires TakenDownInOrder(w.deletions) && MayGoOn(w.deletions, todo)
    ensures TakenDownInOrder(DeleteChain(w, todo, errs, i).0.deletions)
    decreases |todo|
  {
    if todo != [] {
      var c := todo[0];
      var o := DeleteOutcome(i.answers, c);
      assert todo[..0] == [];
      forall d | d in GoesBefore(c) ensures Passed(w.deletions, d) {
        assert d in GoesBefore(todo[0]);
      }
      InOrderOne(w.deletions, Call(c, o));
      if o != Pending {
        GoOn(w.deletions, todo, o);
      }
      match o
      case Failed(m) => ChainTakesDownInOrder(AfterDelete(w, c, i), todo[1..], errs + [DeleteError(c, m)], i);
      case Pending =>
      case Done => ChainTakesDownInOrder(AfterDelete(w, c, i), todo[1..], errs, i);
    }
  }

  /** Every delete pass makes its calls in order. */
  lemma DeleteTakesDownInOrder(w: World, i: DeleteInput)
    requires TakenDownInOrder(w.deletions)
    ensures TakenDownInOrder(DeletePass(w, i).0.deletions)
  {
    var todo := DeleteOrder(w.spec);
    forall k, d | 0 <= k < |todo| && d in GoesBefore(todo[k]) ensures d in todo[..k] || Passed(w.deletions, d) {
      RankOfPosition(w.spec, k);
      GoesBeforeIsRank(todo[k], d);
      RankIsPosition(w.spec, d);
      assert todo[..k][Rank(d)] == d;
    }
    ChainTakesDownInOrder(w, todo, [], i);
  }

  lemma CreateMakesNoDeletions(w: World, i: CreateInput)
    ensures CreatePass(w, i).0.deletions == w.deletions
  {
    if w.spec.topology == LoadBalancerTopology && i.perErr.None? && i.groupErr.None? {
      GatewayReached(w, i);
      GatewayMakesNoDeletions(AfterChains(w, i), i);
    }
  }

  lemma GatewayMakesNoDeletions(w: World, i: CreateInput)
    ensures GatewayStage(w, i).0.deletions == w.deletions
  {
  }

  /** Over every run: each delete call ever made comes after calls for all that goes before it, the last of
      which were not pending. */
  lemma {:induction false} RunsTakeDownInOrder(s: Spec, events: seq<Event>)
    ensures TakenDownInOrder(RunEvents(Fresh(s), events).deletions)
    decreases |events|
  {
    if events != [] {
      var n := |events| - 1;
      RunsTakeDownInOrder(s, events[..n]);
      if events[n].Reconcile? {
        var w := RunEvents(Fresh(s), events[..n]);
        DeleteTakesDownInOrder(w, events[n].input.delete);
        CreateMakesNoDeletions(w, events[n].input.create);
      }
    }
  }
}
