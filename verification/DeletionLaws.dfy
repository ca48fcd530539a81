/** What the delete passes of the cluster reconciler guarantee. */
module DeletionLaws {
  import opened Common
  import opened ApiShared
  import opened ClusterModel
  import opened ClusterPass

  // ---- What a pass answers ----

  predicate SomePending(todo: seq<Component>, a: Answers) {
    exists c :: c in todo && DeleteOutcome(a, c) == Pending
  }

  /** The failures among `todo`, in order. */
  function Failures(todo: seq<Component>, a: Answers): seq<Error> {
    if todo == [] then []
    else
      (match DeleteOutcome(a, todo[0])
       case Failed(m) => [DeleteError(todo[0], m)]
       case _ => []) + Failures(todo[1..], a)
  }

  /** A pending deletion hides every failure collected before it; without one, every component is
      tried and the pass reports exactly the failures. */
  lemma {:induction false} ChainResult(w: World, todo: seq<Component>, errs: seq<Error>, i: DeleteInput)
    ensures var r := DeleteChain(w, todo, errs, i).1;
            if SomePending(todo, i.answers) then r.errors == [] && r.requeueAfter in {15, 60}
            else r == Result(0, errs + Failures(todo, i.answers))
    decreases |todo|
  {
    if todo != [] {
      var c, rest := todo[0], todo[1..];
      assert todo == [c] + rest;
      var next := AfterDelete(w, c, i);
      match DeleteOutcome(i.answers, c)
      case Failed(m) =>
        ChainResult(next, rest, errs + [DeleteError(c, m)], i);
        assert errs + [DeleteError(c, m)] + Failures(rest, i.answers) == errs + Failures(todo, i.answers);
      case Pending =>
        assert c in todo;
      case Done =>
        ChainResult(next, rest, errs, i);
        assert [] + Failures(rest, i.answers) == Failures(rest, i.answers);
    }
  }

  predicate AllDone(todo: seq<Component>, a: Answers) {
    forall c :: c in todo ==> DeleteOutcome(a, c) == Done
  }

  lemma {:induction false} NoFailures(todo: seq<Component>, a: Answers)
    ensures Failures(todo, a) == [] && !SomePending(todo, a) <==> AllDone(todo, a)
  {
    if todo != [] {
      assert todo == [todo[0]] + todo[1..];
      NoFailures(todo[1..], a);
      assert todo[0] in todo;
    }
  }

  // ---- The finalizer ----

  lemma {:induction false} ChainRelease(w: World, todo: seq<Component>, errs: seq<Error>, i: DeleteInput)
    requires w.obj.finalizer
    ensures var (after, r) := DeleteChain(w, todo, errs, i);
            !after.obj.finalizer <==> r == OK
    decreases |todo|
  {
    if todo != [] {
      var c := todo[0];
      match DeleteOutcome(i.answers, c)
      case Failed(m) => ChainRelease(AfterDelete(w, c, i), todo[1..], errs + [DeleteError(c, m)], i);
      case Pending =>
      case Done => ChainRelease(AfterDelete(w, c, i), todo[1..], errs, i);
    }
  }

  /** Everything the deletion of this cluster has to wait for has been answered. */
  predicate Clear(s: Spec, i: DeleteInput) {
    && i.listing == Images([])
    && (s.topology == LoadBalancerTopology ==> AllDone(DeleteOrder(s), i.answers))
  }

  /** A delete pass ends with no error and no requeue exactly when it removed the finalizer, and that
      is exactly when no image is left and every delete call it makes answers Done. */
  lemma ReleasesExactly(w: World, i: DeleteInput)
    requires w.obj.finalizer
    ensures var (after, r) := DeletePass(w, i);
            && (!after.obj.finalizer <==> r == OK)
            && (r == OK <==> Clear(w.spec, i))
  {
    ImagesGone(i.listing);
    if ImageStage(i.listing) == OK && w.spec.topology == LoadBalancerTopology {
      var todo := DeleteOrder(w.spec);
      ChainRelease(w, todo, [], i);
      ChainResult(w, todo, [], i);
      NoFailures(todo, i.answers);
    }
  }

  /** The pass goes on to the cloud only when the list of images is empty; owned or not, being deleted
      or not, every image is waited for. */
  lemma ImagesGone(l: Listing)
    ensures ImageStage(l) == OK <==> l == Images([])
  {
    if l == Images([]) {
      assert Owned([]) == [] && ChildErrors([]) == [];
    }
  }

  /** An image whose deletion this pass has to try, and that fails. */
  predicate FailsToDelete(m: Image) { m.owned && !m.deleting && m.deleteErr.Some? }

  /** The errors of the image stage: exactly one for every owned image that is not yet being deleted and
      cannot be deleted; images of other owners are never touched. */
  lemma {:induction false} ChildErrorsExactly(items: seq<Image>, e: Error)
    ensures e in ChildErrors(Owned(items)) <==>
            exists k :: 0 <= k < |items| && FailsToDelete(items[k]) && e == ChildError(items[k].name, items[k].deleteErr.value)
  {
    if items != [] {
      var first, rest := items[0], items[1..];
      ChildErrorsExactly(rest, e);
      if first.owned {
        assert ([first] + Owned(rest))[1..] == Owned(rest);
      } else {
        assert [] + Owned(rest) == Owned(rest);
      }
      assert forall k :: 0 < k < |items| ==> items[k] == rest[k - 1];
      if k :| 0 <= k < |rest| && FailsToDelete(rest[k]) && e == ChildError(rest[k].name, rest[k].deleteErr.value) {
        assert items[k + 1] == rest[k];
      }
    }
  }

  // ---- What is left in the cloud ----

  /** The deletion of a cluster with this spec and this status removes `r`: the call for its component
      does, or the deletion of the workspace takes it along. */
  predicate Disposed(s: Spec, recorded: set<Resource>, r: Resource) {
    Removes(s, recorded, r.kind, r) || (r.kind == Network && Removes(s, recorded, Workspace, r))
  }

  lemma DisposedExactly(s: Spec, recorded: set<Resource>, r: Resource)
    ensures Disposed(s, recorded, r) <==> exists c :: c in DeleteOrder(s) && Removes(s, recorded, c, r)
  {
    DeleteOrderMembers(s, r.kind);
    DeleteOrderMembers(s, Workspace);
    if c :| c in DeleteOrder(s) && Removes(s, recorded, c, r) {
      assert c == r.kind || c == Workspace;
    }
  }

  lemma DeleteOrderMembers(s: Spec, c: Component)
    ensures c in DeleteOrder(s) <==> c != COS || s.HasCOS()
  {
    assert DeleteOrder(s) == [TransitGateway, LoadBalancers, SecurityGroups, Subnets, VPC, Network, Workspace]
                             + (if s.HasCOS() then [COS] else []);
  }

  /** A call that removes `r` belongs to its component, or is that for the workspace. */
  lemma RemovesIsDisposal(s: Spec, recorded: set<Resource>, c: Component, r: Resource)
    requires Removes(s, recorded, c, r)
    ensures Disposed(s, recorded, r)
  {
  }

  /** What a call drops from the status does not matter for a resource that still exists. */
  lemma DisposalKept(s: Spec, recorded: set<Resource>, cloud: set<Resource>, c: Component, o: Outcome,
                     removed: set<Resource>, r: Resource)
    ensures var after := CloudAfterDelete(s, recorded, cloud, c, o, removed);
            r in after ==> (Disposed(s, RecordedAfterDelete(s, recorded, after, c, o), r) <==> Disposed(s, recorded, r))
  {
    var after := CloudAfterDelete(s, recorded, cloud, c, o, removed);
    var left := RecordedAfterDelete(s, recorded, after, c, o);
    if r in after {
      assert THE_WORKSPACE in left <==> THE_WORKSPACE in recorded;
      if c != r.kind {
        assert r in left <==> r in recorded;
        assert r.kind == TransitGateway ==> (GATEWAY in left <==> GATEWAY in recorded);
      }
    }
  }

  /** One delete call, whatever it answers, touches only what the deletion disposes of, and does not
      change what that is among the resources that still exist. */
  lemma StepDisposed(w: World, c: Component, i: DeleteInput, r: Resource)
    ensures var n := AfterDelete(w, c, i);
            && n.spec == w.spec
            && (r in n.cloud ==> r in w.cloud && (Disposed(w.spec, n.obj.recorded, r) <==> Disposed(w.spec, w.obj.recorded, r)))
            && (r in w.cloud && !Disposed(w.spec, w.obj.recorded, r) ==> r in n.cloud)
  {
    DisposalKept(w.spec, w.obj.recorded, w.cloud, c, DeleteOutcome(i.answers, c), i.removed, r);
    if Removes(w.spec, w.obj.recorded, c, r) {
      RemovesIsDisposal(w.spec, w.obj.recorded, c, r);
    }
  }

  lemma {:induction false} ChainDisposed(w: World, todo: seq<Component>, errs: seq<Error>, i: DeleteInput, r: Resource)
    ensures var after := DeleteChain(w, todo, errs, i).0;
            && (r in after.cloud ==> r in w.cloud && (Disposed(w.spec, after.obj.recorded, r) <==> Disposed(w.spec, w.obj.recorded, r)))
            && (r in w.cloud && !Disposed(w.spec, w.obj.recorded, r) ==> r in after.cloud)
    decreases |todo|
  {
    if todo != [] {
      var c := todo[0];
      StepDisposed(w, c, i, r);
      match DeleteOutcome(i.answers, c)
      case Failed(m) => ChainDisposed(AfterDelete(w, c, i), todo[1..], errs + [DeleteError(c, m)], i, r);
      case Pending =>
      case Done => ChainDisposed(AfterDelete(w, c, i), todo[1..], errs, i, r);
    }
  }

  /** A call leaves the record of other components alone. */
  lemma OtherRecordsKept(w: World, c: Component, i: DeleteInput, d: Component, r: Resource)
    requires c != d
    ensures Removes(w.spec, AfterDelete(w, c, i).obj.recorded, d, r) <==> Removes(w.spec, w.obj.recorded, d, r)
  {
  }

  predicate Distinct(todo: seq<Component>) {
    forall j, k :: 0 <= j < k < |todo| ==> todo[j] != todo[k]
  }

  /** A chain of calls that all answer Done removes what any of them removes. */
  lemma {:induction false} ChainSweeps(w: World, todo: seq<Component>, errs: seq<Error>, i: DeleteInput, d: Component, r: Resource)
    requires Distinct(todo) && d in todo && Removes(w.spec, w.obj.recorded, d, r)
    requires AllDone(todo, i.answers)
    ensures r !in DeleteChain(w, todo, errs, i).0.cloud
    decreases |todo|
  {
    var c, rest := todo[0], todo[1..];
    assert todo == [c] + rest;
    var next := AfterDelete(w, c, i);
    assert DeleteChain(w, todo, errs, i) == DeleteChain(next, rest, errs, i);
    if c == d {
      ChainDisposed(next, rest, errs, i, r);
    } else {
      OtherRecordsKept(w, c, i, d, r);
      ChainSweeps(next, rest, errs, i, d, r);
    }
  }

  lemma DeleteOrderDistinct(s: Spec)
    ensures Distinct(DeleteOrder(s))
  {
    assert DeleteOrder(s) == [TransitGateway, LoadBalancers, SecurityGroups, Subnets, VPC, Network, Workspace]
                             + (if s.HasCOS() then [COS] else []);
  }

  /** What the deletion leaves behind. */
  function Leftovers(w: World): set<Resource> {
    set r | r in w.cloud && !Disposed(w.spec, w.obj.recorded, r)
  }

  lemma DoneRemoves(w: World, i: DeleteInput, r: Resource)
    requires AllDone(DeleteOrder(w.spec), i.answers) && Disposed(w.spec, w.obj.recorded, r)
    ensures r !in DeleteChain(w, DeleteOrder(w.spec), [], i).0.cloud
  {
    DisposedExactly(w.spec, w.obj.recorded, r);
    DeleteOrderDistinct(w.spec);
    var d :| d in DeleteOrder(w.spec) && Removes(w.spec, w.obj.recorded, d, r);
    ChainSweeps(w, DeleteOrder(w.spec), [], i, d, r);
  }

  /** A pass that removes the finalizer in LoadBalancer topology leaves exactly the resources that the
      spec no longer asks for or the status does not hold. In any other topology it leaves the cloud as
      it is. */
  lemma ReleaseLeaves(w: World, i: DeleteInput)
    requires w.obj.finalizer && !DeletePass(w, i).0.obj.finalizer
    ensures DeletePass(w, i).0.cloud == if w.spec.topology == LoadBalancerTopology then Leftovers(w) else w.cloud
  {
    ReleasesExactly(w, i);
    ImagesGone(i.listing);
    if w.spec.topology == LoadBalancerTopology {
      var after := DeletePass(w, i).0;
      forall r: Resource ensures r in after.cloud <==> r in Leftovers(w) {
        ChainDisposed(w, DeleteOrder(w.spec), [], i, r);
        if Disposed(w.spec, w.obj.recorded, r) {
          DoneRemoves(w, i, r);
        }
      }
    }
  }

  /** No delete pass creates anything, and none changes what the deletion will leave behind. */
  lemma DeleteKeepsLeftovers(w: World, i: DeleteInput)
    ensures DeletePass(w, i).0.cloud <= w.cloud
    ensures Leftovers(DeletePass(w, i).0) == Leftovers(w)
  {
    var after := DeletePass(w, i).0;
    DeleteKeepsSpec(w, i);
    forall r: Resource
      ensures r in after.cloud ==> r in w.cloud
      ensures r in Leftovers(after) <==> r in Leftovers(w)
    {
      ChainDisposed(w, DeleteOrder(w.spec), [], i, r);
    }
  }

  // ---- Progress ----

  /** The answers other than Done that the chain consumes: all up to the first pending one. */
  function ChainObstacles(todo: seq<Component>, a: Answers): nat {
    if todo == [] then 0
    else
      match DeleteOutcome(a, todo[0])
      case Failed(_) => 1 + ChainObstacles(todo[1..], a)
      case Pending => 1
      case Done => ChainObstacles(todo[1..], a)
  }

  /** What stood in the way of one delete pass: a failed listing or deletion of images, images to wait
      for, pending or failed delete calls. */
  function Obstacles(s: Spec, i: DeleteInput): nat {
    match i.listing
    case ListFailed(_) => 1
    case Images(items) =>
      if items != [] then (if |ChildErrors(Owned(items))| > 0 then |ChildErrors(Owned(items))| else 1)
      else if s.topology == LoadBalancerTopology then ChainObstacles(DeleteOrder(s), i.answers)
      else 0
  }

  lemma {:induction false} ObstaclesAreNotDone(todo: seq<Component>, a: Answers)
    ensures ChainObstacles(todo, a) == 0 <==> AllDone(todo, a)
  {
    if todo != [] {
      assert todo == [todo[0]] + todo[1..];
      ObstaclesAreNotDone(todo[1..], a);
      assert todo[0] in todo;
    }
  }

  /** Deletion fails to end in a pass exactly when something stood in its way. */
  lemma StuckMeansObstacle(w: World, i: DeleteInput)
    requires w.obj.finalizer
    ensures DeletePass(w, i).0.obj.finalizer <==> Obstacles(w.spec, i) >= 1
  {
    ReleasesExactly(w, i);
    ObstaclesAreNotDone(DeleteOrder(w.spec), i.answers);
  }

  /** The end of deletion and the passes and obstacles it took; it stops when the finalizer is gone. */
  datatype Deletion = Deletion(world: World, passes: nat, obstacles: nat)

  function Delete(w: World, inputs: seq<DeleteInput>): Deletion
    decreases |inputs|
  {
    if inputs == [] || !w.obj.finalizer then Deletion(w, 0, 0)
    else
      var rest := Delete(DeletePass(w, inputs[0]).0, inputs[1..]);
      Deletion(rest.world, rest.passes + 1, rest.obstacles + Obstacles(w.spec, inputs[0]))
  }

  lemma DeleteKeepsSpec(w: World, i: DeleteInput)
    ensures DeletePass(w, i).0.spec == w.spec
  {
    ChainKeepsSpec(w, DeleteOrder(w.spec), [], i);
  }

  lemma {:induction false} ChainKeepsSpec(w: World, todo: seq<Component>, errs: seq<Error>, i: DeleteInput)
    ensures var after := DeleteChain(w, todo, errs, i).0;
            && after.spec == w.spec && after.calls == w.calls && after.obj.deleting == w.obj.deleting
            && after.obj.legacy == w.obj.legacy && after.obj.provisioned == w.obj.provisioned
            && after.obj.endpoint == w.obj.endpoint
    decreases |todo|
  {
    if todo != [] {
      var c := todo[0];
      match DeleteOutcome(i.answers, c)
      case Failed(m) => ChainKeepsSpec(AfterDelete(w, c, i), todo[1..], errs + [DeleteError(c, m)], i);
      case Pending =>
      case Done => ChainKeepsSpec(AfterDelete(w, c, i), todo[1..], errs, i);
    }
  }

  /** Deletion takes at most one pass more than there were obstacles, and while it has not ended every
      pass has met one. With finitely many obstacles it therefore ends. */
  lemma {:induction false} DeletionEnds(w: World, inputs: seq<DeleteInput>)
    ensures var d := Delete(w, inputs);
            && d.passes <= d.obstacles + 1
            && (d.world.obj.finalizer ==> d.passes == |inputs| <= d.obstacles)
    decreases |inputs|
  {
    if inputs != [] && w.obj.finalizer {
      StuckMeansObstacle(w, inputs[0]);
      DeletionEnds(DeletePass(w, inputs[0]).0, inputs[1..]);
    }
  }

  /** However many passes it took, the end of the deletion of a LoadBalancer cluster leaves exactly what
      was fixed at its beginning. */
  lemma {:induction false} DeletionLeaves(w: World, inputs: seq<DeleteInput>)
    requires w.spec.topology == LoadBalancerTopology && w.obj.finalizer
    ensures var d := Delete(w, inputs);
            !d.world.obj.finalizer ==> d.world.cloud == Leftovers(w)
    decreases |inputs|
  {
    if inputs != [] {
      var after := DeletePass(w, inputs[0]).0;
      DeleteKeepsSpec(w, inputs[0]);
      if after.obj.finalizer {
        DeleteKeepsLeftovers(w, inputs[0]);
        DeletionLeaves(after, inputs[1..]);
      } else {
        ReleaseLeaves(w, inputs[0]);
      }
    }
  }
}
