/** Safety of the cluster reconciler over whole runs: reconcile passes interleaved with the user's
    changes to the object. Every pass's status is assumed to be persisted. */
module ClusterRuns {
  import opened Common
  import opened ApiShared
  import opened ClusterModel
  import opened ClusterChains
  import opened ClusterPass
  import opened ProvisioningLaws
  import opened DeletionLaws

  datatype Event = Reconcile(input: PassInput) | RequestDeletion | Edit(spec: Spec, endpoint: APIEndpoint)

  /** An edit also writes the control plane endpoint, which is part of the spec although the reconciler
      sets it. An edit that the API server does not admit changes nothing. */
  function Next(w: World, e: Event): World {
    match e
    case Reconcile(i) => Pass(w, i).0
    case RequestDeletion => w.(obj := w.obj.(deleting := true))
    case Edit(s, e) => if Admits(w.spec, s) then w.(spec := s, obj := w.obj.(endpoint := e)) else w
  }

  function RunEvents(w: World, events: seq<Event>): World
    decreases |events|
  {
    if events == [] then w else Next(RunEvents(w, events[..|events| - 1]), events[|events| - 1])
  }

  /** An object as the user creates it. */
  function Fresh(s: Spec): World {
    World(s, Object(false, false, map[], map[], false, APIEndpoint("", 0), {}), {}, [], [])
  }

  // ---- The invariant of all runs ----

  ghost predicate Inv(w: World) {
    && (w.cloud != {} ==> w.spec.topology == LoadBalancerTopology)
    && (!w.obj.finalizer && !w.obj.deleting ==> w.cloud == {} && w.calls == [])
    && Ordered(w.calls)
    && (!w.obj.deleting ==> History(w))
    && (forall c: Component :: Trusted(w, c))
  }

  /** Deletion marks the modern condition false and leaves the legacy one, so after it only the legacy
      condition is the history; a true modern condition still never lies. */
  ghost predicate Trusted(w: World, c: Component) {
    && LegacyStatus(w.obj.legacy, c) == LastDecisive(w.calls, c)
    && ModernStatus(w.obj.conditions, c) in {LastDecisive(w.calls, c), Some(false)}
  }

  lemma FreshInv(s: Spec)
    ensures Inv(Fresh(s)) && History(Fresh(s))
  {
    assert Ordered([]);
    forall c: Component ensures Faithful(Fresh(s), c) && Trusted(Fresh(s), c) {
    }
  }

  /** A step of a create pass keeps the spec, the finalizer and what exists, and creates only what the
      spec asks for. */
  ghost predicate CreateStep(w: World, after: World, fx: Effects) {
    && after.spec == w.spec
    && after.obj.finalizer == w.obj.finalizer && after.obj.deleting == w.obj.deleting
    && w.cloud <= after.cloud
    && (forall r :: r in after.cloud ==> r in w.cloud || (r in fx.created && Asked(w.spec, r)))
  }

  lemma ChainsStep(w: World, i: CreateInput)
    ensures CreateStep(w, AfterChains(w, i), i.fx)
  {
    ChainsKeepRest(w, i);
    BothFinish(w.spec, w.cloud, w.obj.recorded, i.schedule, i.answers, i.fx);
  }

  lemma CosStep(w: World, i: CreateInput)
    ensures CreateStep(w, CosStage(w, i).0, i.fx)
  {
  }

  lemma GatewayStep(w: World, i: CreateInput)
    ensures CreateStep(w, GatewayStage(w, i).0, i.fx)
  {
    var marked := Mark(RecordCall(w, TransitGateway, i), TransitGateway, ReadyConditions());
    assert CreateStep(w, marked, i.fx);
    if CreateOutcome(i.answers, TransitGateway) == Done {
      CosStep(marked, i);
      assert GatewayStage(w, i) == CosStage(marked, i);
    }
  }

  lemma ComponentsStep(w: World, i: CreateInput)
    ensures CreateStep(w, ComponentStage(w, i).0, i.fx)
  {
    var after := AfterChains(w, i);
    ChainsStep(w, i);
    GatewayStep(after, i);
    GatewayReached(w, i);
    assert ComponentStage(w, i).0 in {after, GatewayStage(after, i).0};
  }

  /** Moreover the cloud changes only in LoadBalancer topology. */
  lemma CreateCloud(w: World, i: CreateInput)
    ensures CreateStep(w, CreatePass(w, i).0, i.fx)
    ensures w.spec.topology != LoadBalancerTopology ==> CreatePass(w, i).0.cloud == w.cloud
  {
    if w.spec.topology == LoadBalancerTopology && i.perErr.None? && i.groupErr.None? {
      ComponentsStep(w, i);
      assert CreatePass(w, i) == ComponentStage(w, i);
    }
  }

  lemma {:induction false} ChainTrusted(w: World, todo: seq<Component>, errs: seq<Error>, i: DeleteInput, c: Component)
    requires Trusted(w, c)
    ensures Trusted(DeleteChain(w, todo, errs, i).0, c)
    decreases |todo|
  {
    if todo != [] {
      var d := todo[0];
      var next := AfterDelete(w, d, i);
      match DeleteOutcome(i.answers, d)
      case Failed(m) => ChainTrusted(next, todo[1..], errs + [DeleteError(d, m)], i, c);
      case Pending =>
      case Done => ChainTrusted(next, todo[1..], errs, i, c);
    }
  }

  lemma DeleteKeepsTrust(w: World, i: DeleteInput)
    requires forall c: Component :: Trusted(w, c)
    ensures forall c: Component :: Trusted(DeletePass(w, i).0, c)
  {
    forall c: Component ensures Trusted(DeletePass(w, i).0, c) {
      assert Trusted(w, c);
      ChainTrusted(w, DeleteOrder(w.spec), [], i, c);
    }
  }

  lemma DeleteKeepsInv(w: World, i: DeleteInput)
    requires Inv(w) && w.obj.deleting
    ensures Inv(DeletePass(w, i).0)
  {
    DeleteKeepsTrust(w, i);
    DeleteKeepsLeftovers(w, i);
    ChainKeepsSpec(w, DeleteOrder(w.spec), [], i);
  }

  lemma CreateKeepsInv(w: World, i: CreateInput)
    requires Inv(w) && !w.obj.deleting && w.obj.finalizer
    ensures Inv(CreatePass(w, i).0)
  {
    CreateCloud(w, i);
    CreateKeepsHistory(w, i);
    CreateKeepsOrder(w, i);
    var after := CreatePass(w, i).0;
    forall c: Component ensures Trusted(after, c) {
      assert Faithful(after, c);
    }
  }

  lemma NextKeepsInv(w: World, e: Event)
    requires Inv(w)
    ensures Inv(Next(w, e))
  {
    if e.Reconcile? && Pass(w, e.input).0 != w {
      var i := e.input;
      if !w.obj.deleting && w.obj.finalizer {
        CreateKeepsInv(w, i.create);
      } else if w.obj.deleting {
        DeleteKeepsInv(w, i.delete);
      } else {
        SameHistory(w, Pass(w, i).0);
      }
    } else if !e.Reconcile? {
      SameHistory(w, Next(w, e));
    }
  }

  lemma SameHistory(w: World, v: World)
    requires Inv(w)
    requires v.calls == w.calls && v.obj.conditions == w.obj.conditions && v.obj.legacy == w.obj.legacy
    ensures (forall c: Component :: Trusted(v, c)) && (!w.obj.deleting ==> History(v))
  {
    forall c: Component ensures Trusted(v, c) && (!w.obj.deleting ==> Faithful(v, c)) {
      assert Trusted(w, c) && (!w.obj.deleting ==> Faithful(w, c));
    }
  }

  lemma {:induction false} RunKeepsInv(w: World, events: seq<Event>)
    requires Inv(w)
    ensures Inv(RunEvents(w, events))
    decreases |events|
  {
    if events != [] {
      RunKeepsInv(w, events[..|events| - 1]);
      NextKeepsInv(RunEvents(w, events[..|events| - 1]), events[|events| - 1]);
    }
  }

  lemma ReachableInv(s: Spec, events: seq<Event>)
    ensures Inv(RunEvents(Fresh(s), events))
  {
    FreshInv(s);
    RunKeepsInv(Fresh(s), events);
  }

  lemma PassKeepsSpec(w: World, i: PassInput)
    ensures Pass(w, i).0.spec == w.spec
  {
    DeleteKeepsSpec(w, i.delete);
    CreateCloud(w, i.create);
  }

  lemma {:induction false} TopologyKept(w: World, events: seq<Event>)
    ensures RunEvents(w, events).spec.topology == w.spec.topology
    decreases |events|
  {
    if events != [] {
      var n := |events| - 1;
      TopologyKept(w, events[..n]);
      if events[n].Reconcile? {
        PassKeepsSpec(RunEvents(w, events[..n]), events[n].input);
      }
    }
  }

  /** Over all runs, whatever is edited: nothing is created outside LoadBalancer topology, no scope call
      is made before the finalizer is there, and every call comes after the calls it depends on,
      however the goroutines of each pass interleaved. */
  lemma EveryRunIsSafe(s: Spec, events: seq<Event>)
    ensures var w := RunEvents(Fresh(s), events);
            && (s.topology != LoadBalancerTopology ==> w.cloud == {})
            && (!w.obj.finalizer && !w.obj.deleting ==> w.calls == [] && w.cloud == {})
            && Ordered(w.calls)
  {
    ReachableInv(s, events);
    TopologyKept(Fresh(s), events);
  }

  // ---- No leak ----

  /** The scope calls of a create pass record what they create: a created resource, the workspace in
      which a DHCP server is created, the gateway on which a connection is created, and, when the list of
      security groups is written anew, those that exist. */
  predicate Records(w: World, i: CreateInput) {
    && (forall r :: r in i.fx.created ==> r in i.fx.recorded)
    && (CreateOutcome(i.answers, SecurityGroups) == Done ==>
          forall r :: r in w.cloud && r.kind == SecurityGroups ==> r in i.fx.recorded)
    && (DHCP_SERVER in i.fx.created ==> THE_WORKSPACE in w.obj.recorded + i.fx.recorded)
    && ((exists r :: r in i.fx.created && r.kind == TransitGateway) ==> GATEWAY in w.obj.recorded + i.fx.recorded)
  }

  /** No edit stops asking for a resource that exists, and every create pass records what it creates. */
  predicate Careful(w: World, e: Event) {
    match e
    case Reconcile(i) => Records(w, i.create)
    case RequestDeletion => true
    case Edit(s, _) => forall r :: r in w.cloud ==> Asked(s, r)
  }

  ghost predicate CarefulRun(w: World, events: seq<Event>) {
    forall k :: 0 <= k < |events| ==> Careful(RunEvents(w, events[..k]), events[k])
  }

  /** `r` is asked for and on record, with what it hangs on. */
  predicate Held(s: Spec, recorded: set<Resource>, r: Resource) {
    && Asked(s, r) && r in recorded
    && (r.kind == Network ==> THE_WORKSPACE in recorded)
    && (r.kind == TransitGateway ==> GATEWAY in recorded)
  }

  ghost predicate AllHeld(w: World) {
    forall r :: r in w.cloud ==> Held(w.spec, w.obj.recorded, r)
  }

  lemma HeldIsDisposed(s: Spec, recorded: set<Resource>, r: Resource)
    requires Held(s, recorded, r)
    ensures Disposed(s, recorded, r)
  {
  }

  lemma StepHeld(w: World, c: Component, i: DeleteInput)
    requires AllHeld(w)
    ensures AllHeld(AfterDelete(w, c, i))
  {
    var n := AfterDelete(w, c, i);
    forall r | r in n.cloud ensures Held(n.spec, n.obj.recorded, r) {
      assert Held(w.spec, w.obj.recorded, r);
      HeldIsDisposed(w.spec, w.obj.recorded, r);
    }
  }

  lemma {:induction false} ChainHeld(w: World, todo: seq<Component>, errs: seq<Error>, i: DeleteInput)
    requires AllHeld(w)
    ensures AllHeld(DeleteChain(w, todo, errs, i).0)
    decreases |todo|
  {
    if todo != [] {
      var c := todo[0];
      StepHeld(w, c, i);
      match DeleteOutcome(i.answers, c)
      case Failed(m) => ChainHeld(AfterDelete(w, c, i), todo[1..], errs + [DeleteError(c, m)], i);
      case Pending =>
      case Done => ChainHeld(AfterDelete(w, c, i), todo[1..], errs, i);
    }
  }

  /** Calls that record what they create keep everything held, when the workspace is among them
      whenever the network is. */
  lemma CallsHeld(w: World, called: set<Component>, i: CreateInput, after: World)
    requires AllHeld(w) && Records(w, i)
    requires Network in called ==> Workspace in called
    requires after.spec == w.spec && after.cloud == CloudAfter(w.spec, w.cloud, called, i.fx)
    requires after.obj.recorded == RecordedAfter(w.obj.recorded, called, i.answers, i.fx)
    ensures AllHeld(after)
  {
    forall r | r in after.cloud ensures Held(after.spec, after.obj.recorded, r) {
      if r in w.cloud {
        assert Held(w.spec, w.obj.recorded, r);
      }
    }
  }

  lemma {:induction false} CallsGrow(t: Thread, a: Answers, c: Component)
    requires c in Called(t.calls)
    ensures c in Called(Run(t, a).calls)
    decreases |t.todo|
  {
    if t.todo != [] {
      StepCalls(t, a);
      CallsGrow(Step(t, a), a, c);
    }
  }

  /** A goroutine makes at least the first call of its chain. */
  lemma FirstIsCalled(chain: seq<Component>, a: Answers)
    requires chain != []
    ensures chain[0] in Called(Run(Start(chain), a).calls)
  {
    StepCalls(Start(chain), a);
    RunStep(Start(chain), a);
    CallsGrow(Step(Start(chain), a), a, chain[0]);
  }

  lemma ChainsHeld(w: World, i: CreateInput)
    requires AllHeld(w) && Records(w, i)
    ensures AllHeld(AfterChains(w, i)) && Records(AfterChains(w, i), i)
  {
    var p, v := Run(Start(POWER_CHAIN), i.answers), Run(Start(VPC_CHAIN), i.answers);
    var after := AfterChains(w, i);
    BothFinish(w.spec, w.cloud, w.obj.recorded, i.schedule, i.answers, i.fx);
    FirstIsCalled(POWER_CHAIN, i.answers);
    var called := Called(p.calls) + Called(v.calls);
    CallsHeld(w, called, i, after);
  }

  lemma CosHeld(w: World, i: CreateInput)
    requires AllHeld(w) && Records(w, i)
    ensures AllHeld(CosStage(w, i).0)
  {
    var called := RecordCall(w, COS, i);
    CallsHeld(w, {COS}, i, called);
    var after := CosStage(w, i).0;
    assert after.spec == w.spec;
    if w.spec.HasCOS() {
      assert after.cloud == called.cloud && after.obj.recorded == called.obj.recorded;
    } else {
      assert after.cloud == w.cloud && after.obj.recorded == w.obj.recorded;
    }
  }

  lemma GatewayHeld(w: World, i: CreateInput)
    requires AllHeld(w) && Records(w, i)
    ensures AllHeld(GatewayStage(w, i).0)
  {
    var called := RecordCall(w, TransitGateway, i);
    CallsHeld(w, {TransitGateway}, i, called);
    if CreateOutcome(i.answers, TransitGateway) == Done {
      CosHeld(Mark(called, TransitGateway, ReadyConditions()), i);
    }
  }

  lemma CreateHeld(w: World, i: CreateInput)
    requires AllHeld(w) && Records(w, i)
    ensures AllHeld(CreatePass(w, i).0)
  {
    if w.spec.topology == LoadBalancerTopology && i.perErr.None? && i.groupErr.None? {
      ChainsHeld(w, i);
      GatewayReached(w, i);
      GatewayHeld(AfterChains(w, i), i);
      assert CreatePass(w, i) == ComponentStage(w, i);
    }
  }

  lemma NextHeld(w: World, e: Event)
    requires AllHeld(w) && Careful(w, e)
    ensures AllHeld(Next(w, e))
  {
    if e.Reconcile? {
      CreateHeld(w, e.input.create);
      ChainHeld(w, DeleteOrder(w.spec), [], e.input.delete);
    }
  }

  lemma CarefulPrefix(w: World, events: seq<Event>)
    requires events != [] && CarefulRun(w, events)
    ensures CarefulRun(w, events[..|events| - 1])
    ensures Careful(RunEvents(w, events[..|events| - 1]), events[|events| - 1])
  {
    var before := events[..|events| - 1];
    forall k | 0 <= k < |before| ensures Careful(RunEvents(w, before[..k]), before[k]) {
      assert before[..k] == events[..k];
      assert Careful(RunEvents(w, events[..k]), events[k]);
    }
  }

  /** A release leaves nothing when everything is held. */
  lemma ReleaseIsClean(w: World, i: PassInput)
    requires Inv(w) && AllHeld(w) && (!w.obj.finalizer ==> w.cloud == {})
    ensures !Pass(w, i).0.obj.finalizer ==> Pass(w, i).0.cloud == {}
  {
    CreateCloud(w, i.create);
    DeleteKeepsLeftovers(w, i.delete);
    if w.obj.finalizer && !DeletePass(w, i.delete).0.obj.finalizer {
      ReleaseLeaves(w, i.delete);
      forall r | r in w.cloud ensures Disposed(w.spec, w.obj.recorded, r) {
        HeldIsDisposed(w.spec, w.obj.recorded, r);
      }
      assert Leftovers(w) == {};
    }
  }

  /** No leak: in every run in which no edit stops asking for what exists and every create pass records
      what it creates, once the finalizer is gone, everything the controller created is gone. */
  lemma {:induction false} NoLeak(s: Spec, events: seq<Event>)
    requires CarefulRun(Fresh(s), events)
    ensures var w := RunEvents(Fresh(s), events);
            AllHeld(w) && (!w.obj.finalizer ==> w.cloud == {})
    decreases |events|
  {
    if events != [] {
      var n := |events| - 1;
      CarefulPrefix(Fresh(s), events);
      NoLeak(s, events[..n]);
      var w := RunEvents(Fresh(s), events[..n]);
      ReachableInv(s, events[..n]);
      NextHeld(w, events[n]);
      if events[n].Reconcile? {
        ReleaseIsClean(w, events[n].input);
      }
    }
  }

  /** Exactly what a reachable pass that removes the finalizer leaves behind, in any run: what the spec
      no longer asks for or the status does not hold. */
  lemma ReleaseLeaksExactly(s: Spec, events: seq<Event>, i: PassInput)
    requires RunEvents(Fresh(s), events).obj.finalizer
    requires !Pass(RunEvents(Fresh(s), events), i).0.obj.finalizer
    ensures var w := RunEvents(Fresh(s), events);
            && Pass(w, i).0.cloud == Leftovers(w)
            && (Pass(w, i).0.cloud == {} <==> forall r :: r in w.cloud ==> Disposed(w.spec, w.obj.recorded, r))
  {
    var w := RunEvents(Fresh(s), events);
    ReachableInv(s, events);
    CreateCloud(w, i.create);
    ReleaseLeaves(w, i.delete);
    forall r | r in w.cloud && !Disposed(w.spec, w.obj.recorded, r) ensures r in Leftovers(w) {
    }
  }

  // ---- How things leak ----

  /** Every delete call of this pass answers Done, and nothing holds it up. */
  ghost predicate AllDeleted(i: PassInput) {
    && i.fetch == Found && i.gate == Proceed && i.delete.listing == Images([])
    && forall c: Component :: DeleteOutcome(i.delete.answers, c) == Done
  }

  /** An edit, the request to delete, and a pass in which every call succeeds: the finalizer is gone, and
      exactly what the edited spec does not cover is left. */
  lemma EditThenDelete(w: World, s: Spec, p: APIEndpoint, i: PassInput)
    requires w.spec.topology == LoadBalancerTopology && w.obj.finalizer
    requires Admits(w.spec, s) && AllDeleted(i)
    ensures var after := RunEvents(w, [Edit(s, p), RequestDeletion, Reconcile(i)]);
            && !after.obj.finalizer
            && after.cloud == set r | r in w.cloud && !Disposed(s, w.obj.recorded, r)
  {
    var e := [Edit(s, p), RequestDeletion, Reconcile(i)];
    var e1, e2 := [Edit(s, p)], [Edit(s, p), RequestDeletion];
    assert e[..2] == e2 && e2[..1] == e1 && e1[..0] == [];
    assert RunEvents(w, []) == w;
    assert RunEvents(w, e1) == Next(w, Edit(s, p));
    var v := RunEvents(w, e2);
    assert v == w.(spec := s, obj := w.obj.(deleting := true, endpoint := p));
    ReleasesExactly(v, i.delete);
    ReleaseLeaves(v, i.delete);
  }

  /** The spec with the section or the list entry for `r` taken out. The gateway, which has no immutable
      type, is turned into a reference; a subnet entry is turned into a reference; a load balancer entry is
      replaced by a public one named `other`; ignition goes with COS. */
  function Without(s: Spec, r: Resource, other: string): Spec {
    match r.kind
    case Workspace => s.(workspace := NoType)
    case Network => s.(network := NoType)
    case VPC => s.(vpc := NoType)
    case Subnets => s.(subnets := Listed(false, s.subnets.names - {r.name}))
    case SecurityGroups => s.(securityGroups := Listed(s.securityGroups.isEmpty, s.securityGroups.names - {r.name}))
    case LoadBalancers =>
      s.(loadBalancers := Listed(false, s.loadBalancers.names - {r.name} + {other}),
         publicBalancers := s.publicBalancers - {r.name} + {other})
    case TransitGateway =>
      if r == GATEWAY then s.(transitGateway := Reference)
      else if r == VPC_CONNECTION then s.(vpcConnection := NoType)
      else s.(powerVSConnection := NoType)
    case COS => s.(cos := NoType, ignition := false)
  }

  /** What is still deleted although the spec no longer asks for it: a DHCP server that goes with its
      workspace, and a connection that goes with its gateway. */
  predicate GoesWithOwner(s: Spec, recorded: set<Resource>, r: Resource) {
    || (r.kind == Network && s.workspace == Provision && THE_WORKSPACE in recorded)
    || (r.kind == TransitGateway && r != GATEWAY && s.transitGateway != Reference && GATEWAY in recorded)
  }

  lemma WithoutIsAdmitted(s: Spec, r: Resource, other: string)
    requires Acceptable(s) && Asked(s, r) && other != r.name
    ensures Admits(s, Without(s, r, other)) && !Asked(Without(s, r, other), r)
  {
    if r.kind == LoadBalancers {
      var t := Without(s, r, other);
      assert other in t.publicBalancers * t.loadBalancers.names;
    }
  }

  /** Taking `r` out of the spec before deleting the cluster leaves it behind exactly when it does not go
      with its owner, although every edit is admitted and every call succeeds. */
  lemma TakingAwayLeaks(w: World, r: Resource, other: string, i: PassInput)
    requires w.spec.topology == LoadBalancerTopology && w.obj.finalizer && AllDeleted(i)
    requires Acceptable(w.spec) && r in w.cloud && Asked(w.spec, r) && other != r.name
    ensures var s := Without(w.spec, r, other);
            var after := RunEvents(w, [Edit(s, w.obj.endpoint), RequestDeletion, Reconcile(i)]);
            && Admits(w.spec, s) && !Asked(s, r)
            && !after.obj.finalizer
            && (r in after.cloud <==> !GoesWithOwner(w.spec, w.obj.recorded, r))
  {
    WithoutIsAdmitted(w.spec, r, other);
    EditThenDelete(w, Without(w.spec, r, other), w.obj.endpoint, i);
  }

  /** A spec that was acceptable when the object was created stays so. */
  lemma {:induction false} StaysAcceptable(w: World, events: seq<Event>)
    requires Acceptable(w.spec)
    ensures Acceptable(RunEvents(w, events).spec)
    decreases |events|
  {
    if events != [] {
      var n := |events| - 1;
      StaysAcceptable(w, events[..n]);
      if events[n].Reconcile? {
        PassKeepsSpec(RunEvents(w, events[..n]), events[n].input);
      }
    }
  }

  /** A goroutine calls a link of its chain when everything before it is done. */
  lemma {:induction false} CalledWhenReached(t: Thread, a: Answers, k: nat)
    requires k < |t.todo| && forall j :: 0 <= j < k ==> CreateOutcome(a, t.todo[j]) == Done
    ensures t.todo[k] in Called(Run(t, a).calls)
    decreases |t.todo|
  {
    StepCalls(t, a);
    RunStep(t, a);
    if k == 0 {
      CallsGrow(Step(t, a), a, t.todo[0]);
    } else {
      assert CreateOutcome(a, t.todo[0]) == Done;
      assert Step(t, a).todo == t.todo[1..];
      CalledWhenReached(Step(t, a), a, k - 1);
    }
  }

  /** Everything that comes before component `c` in a pass is done. */
  predicate Reached(a: Answers, c: Component) {
    if c in {TransitGateway, COS} then forall d: Component :: d != COS ==> CreateOutcome(a, d) == Done
    else forall d :: d in Needs(c) ==> CreateOutcome(a, d) == Done
  }

  lemma ReachedIsCalled(a: Answers, c: Component)
    requires c !in {TransitGateway, COS} && Reached(a, c)
    ensures c in Called(Run(Start(POWER_CHAIN), a).calls) + Called(Run(Start(VPC_CHAIN), a).calls)
  {
    match c
    case Workspace => CalledWhenReached(Start(POWER_CHAIN), a, 0);
    case Network => CalledWhenReached(Start(POWER_CHAIN), a, 1);
    case VPC => CalledWhenReached(Start(VPC_CHAIN), a, 0);
    case Subnets => CalledWhenReached(Start(VPC_CHAIN), a, 1);
    case SecurityGroups => CalledWhenReached(Start(VPC_CHAIN), a, 2);
    case LoadBalancers => CalledWhenReached(Start(VPC_CHAIN), a, 3);
  }

  lemma ChainsCreate(w: World, i: CreateInput, r: Resource)
    requires Reached(i.answers, r.kind)
    requires r.kind !in {TransitGateway, COS} && r in i.fx.created && Asked(w.spec, r)
    ensures r in AfterChains(w, i).cloud
  {
    BothFinish(w.spec, w.cloud, w.obj.recorded, i.schedule, i.answers, i.fx);
    ReachedIsCalled(i.answers, r.kind);
  }

  lemma GatewayCreates(w: World, i: CreateInput, r: Resource)
    requires CreateOutcome(i.answers, TransitGateway) == Done
    requires r.kind in {TransitGateway, COS} && r in i.fx.created && Asked(w.spec, r)
    ensures r in GatewayStage(w, i).0.cloud
  {
  }

  /** A pass that goes on to the component calls. */
  predicate Goes(i: PassInput) {
    && i.fetch == Found && i.finalizerErr.None? && i.gate == Proceed
    && i.create.perErr.None? && i.create.groupErr.None?
  }

  /** Every resource the spec asks for can be there: two passes create it when they reach its component,
      whatever that call answers. What is then on record was recorded by those passes. */
  lemma ResourceIsCreated(s: Spec, i: PassInput, r: Resource)
    requires s.topology == LoadBalancerTopology && Goes(i) && Reached(i.create.answers, r.kind)
    requires r in i.create.fx.created && Asked(s, r)
    ensures var w := RunEvents(Fresh(s), [Reconcile(i), Reconcile(i)]);
            && w.spec == s && w.obj.finalizer && !w.obj.deleting && r in w.cloud
            && w.obj.recorded <= i.create.fx.recorded
  {
    var e1, e2 := [Reconcile(i)], [Reconcile(i), Reconcile(i)];
    assert e2[..1] == e1 && e1[..0] == [];
    assert RunEvents(Fresh(s), []) == Fresh(s);
    var v := Fresh(s).(obj := Fresh(s).obj.(finalizer := true));
    assert RunEvents(Fresh(s), e1) == v;
    assert RunEvents(Fresh(s), e2) == CreatePass(v, i.create).0 == ComponentStage(v, i.create).0;
    CreateCloud(v, i.create);
    PassCreates(v, i.create, r);
    RecordOfPass(v, i.create);
  }

  lemma PassCreates(w: World, i: CreateInput, r: Resource)
    requires Reached(i.answers, r.kind) && r in i.fx.created && Asked(w.spec, r)
    ensures r in ComponentStage(w, i).0.cloud
  {
    var mid := AfterChains(w, i);
    ChainsStep(w, i);
    GatewayStep(mid, i);
    GatewayReached(w, i);
    if r.kind in {TransitGateway, COS} {
      GatewayCreates(mid, i, r);
    } else {
      ChainsCreate(w, i, r);
    }
  }

  lemma RecordOfPass(w: World, i: CreateInput)
    ensures ComponentStage(w, i).0.obj.recorded <= w.obj.recorded + i.fx.recorded
  {
    BothFinish(w.spec, w.cloud, w.obj.recorded, i.schedule, i.answers, i.fx);
    GatewayReached(w, i);
    GatewayRecords(AfterChains(w, i), i);
  }

  lemma CosRecords(w: World, i: CreateInput)
    ensures CosStage(w, i).0.obj.recorded <= w.obj.recorded + i.fx.recorded
  {
  }

  lemma GatewayRecords(w: World, i: CreateInput)
    ensures GatewayStage(w, i).0.obj.recorded <= w.obj.recorded + i.fx.recorded
  {
    var marked := Mark(RecordCall(w, TransitGateway, i), TransitGateway, ReadyConditions());
    if CreateOutcome(i.answers, TransitGateway) == Done {
      CosRecords(marked, i);
      assert GatewayStage(w, i) == CosStage(marked, i);
    }
  }

  lemma ThenDelete(w: World, i: PassInput)
    requires w.spec.topology == LoadBalancerTopology && w.obj.finalizer && AllDeleted(i)
    ensures var after := RunEvents(w, [RequestDeletion, Reconcile(i)]);
            !after.obj.finalizer && after.cloud == Leftovers(w)
  {
    var e1, e2 := [RequestDeletion], [RequestDeletion, Reconcile(i)];
    assert e2[..1] == e1 && e1[..0] == [];
    assert RunEvents(w, []) == w;
    var v := RunEvents(w, e1);
    assert v == w.(obj := w.obj.(deleting := true));
    ReleasesExactly(v, i.delete);
    ReleaseLeaves(v, i.delete);
  }

  /** Without any edit, and with every delete call succeeding, a resource that was created but never
      recorded is left behind; only load balancers are found by name. */
  lemma UnrecordedLeaks(s: Spec, i: PassInput, d: PassInput, r: Resource)
    requires s.topology == LoadBalancerTopology && Goes(i) && Reached(i.create.answers, r.kind) && AllDeleted(d)
    requires r in i.create.fx.created && Asked(s, r) && r !in i.create.fx.recorded
    requires r.kind in {VPC, Subnets, SecurityGroups, COS}
    ensures var w := RunEvents(Fresh(s), [Reconcile(i), Reconcile(i)]);
            var after := RunEvents(w, [RequestDeletion, Reconcile(d)]);
            !after.obj.finalizer && r in after.cloud
  {
    ResourceIsCreated(s, i, r);
    ThenDelete(RunEvents(Fresh(s), [Reconcile(i), Reconcile(i)]), d);
  }

  /** In particular: a call for the security groups that creates a first group and fails on a later one
      returns before it writes the list. Such a group is in the cloud and not on record. */
  lemma HalfDoneGroupsLeak(s: Spec, i: PassInput, d: PassInput, r: Resource)
    requires s.topology == LoadBalancerTopology && Goes(i) && AllDeleted(d)
    requires CreateOutcome(i.create.answers, VPC) == CreateOutcome(i.create.answers, Subnets) == Done
    requires CreateOutcome(i.create.answers, SecurityGroups).Failed?
    requires r.kind == SecurityGroups && Asked(s, r) && r in i.create.fx.created
    requires forall g :: g in i.create.fx.recorded ==> g.kind != SecurityGroups
    ensures var w := RunEvents(Fresh(s), [Reconcile(i), Reconcile(i)]);
            var after := RunEvents(w, [RequestDeletion, Reconcile(d)]);
            !after.obj.finalizer && r in after.cloud
  {
    UnrecordedLeaks(s, i, d, r);
  }

  // ---- Conditions over runs ----

  /** Condition history over every run without deletion: each component's modern and legacy conditions
      have the status of its last decisive outcome. */
  lemma RunHistory(s: Spec, events: seq<Event>, c: Component)
    requires RequestDeletion !in events
    ensures Faithful(RunEvents(Fresh(s), events), c)
  {
    ReachableInv(s, events);
    NotDeleting(s, events);
  }

  lemma {:induction false} NotDeleting(s: Spec, events: seq<Event>)
    requires RequestDeletion !in events
    ensures !RunEvents(Fresh(s), events).obj.deleting
    decreases |events|
  {
    if events != [] {
      var before := events[..|events| - 1];
      NotDeleting(s, before);
      if events[|events| - 1].Reconcile? {
        CreateCloud(RunEvents(Fresh(s), before), events[|events| - 1].input.create);
      }
    }
  }

  /** In every run, deletions included: the legacy condition is the last decisive outcome, and a true
      modern condition means that outcome was a success. */
  lemma ConditionsNeverOverstate(s: Spec, events: seq<Event>, c: Component)
    ensures var w := RunEvents(Fresh(s), events);
            && LegacyStatus(w.obj.legacy, c) == LastDecisive(w.calls, c)
            && (IsTrue(w.obj, c) ==> LastDecisive(w.calls, c) == Some(true))
  {
    ReachableInv(s, events);
    assert Trusted(RunEvents(Fresh(s), events), c);
  }

  /** A pass that provisions a reachable cluster does so on the evidence of its history: the last
      decisive outcome of every component is a success. */
  lemma ProvisionedOnEvidence(s: Spec, events: seq<Event>, i: CreateInput, c: Component)
    requires s.topology == LoadBalancerTopology && RequestDeletion !in events
    requires CreatePass(RunEvents(Fresh(s), events), i).1 == OK
    requires c in CHAINED || (c == COS && RunEvents(Fresh(s), events).spec.HasCOS())
    ensures LastDecisive(CreatePass(RunEvents(Fresh(s), events), i).0.calls, c) == Some(true)
  {
    var w := RunEvents(Fresh(s), events);
    TopologyKept(Fresh(s), events);
    RunHistory(s, events, c);
    PassKeepsFaithful(w, i, c);
    ProvisionsExactly(w, i);
  }

  // ---- The control plane endpoint ----

  /** A pass that provisions: it ends a create pass with no error and no requeue. */
  predicate Provisions(w: World, i: PassInput) {
    && i.fetch == Found && i.gate == Proceed && w.obj.finalizer && !w.obj.deleting
    && CreatePass(w, i.create).1 == OK
  }

  /** The last event that wrote the endpoint was an edit that left the host empty. */
  predicate HostDropped(w: World, events: seq<Event>)
    decreases |events|
  {
    if events == [] then false
    else
      var n := |events| - 1;
      var v := RunEvents(w, events[..n]);
      match events[n]
      case Edit(s, e) => if Admits(v.spec, s) then e.host == "" else HostDropped(w, events[..n])
      case Reconcile(i) => !Provisions(v, i) && HostDropped(w, events[..n])
      case RequestDeletion => HostDropped(w, events[..n])
  }

  /** What one pass does to endpoint and mark in LoadBalancer topology. */
  lemma EndpointAfterPass(w: World, i: PassInput)
    requires w.spec.topology == LoadBalancerTopology
    ensures var after := Pass(w, i).0.obj;
            if Provisions(w, i) then after.provisioned && after.endpoint.host != ""
            else after.provisioned == w.obj.provisioned && after.endpoint == w.obj.endpoint
  {
    if i.fetch == Found && i.gate == Proceed && w.obj.finalizer && !w.obj.deleting {
      ProvisionsExactly(w, i.create);
      assert Pass(w, i) == CreatePass(w, i.create);
    } else {
      ChainKeepsSpec(w, DeleteOrder(w.spec), [], i.delete);
    }
  }

  /** In every reachable state a provisioned LoadBalancer cluster has an endpoint host, exactly unless an
      edit has emptied it and no pass has provisioned since. */
  lemma {:induction false} ProvisionedHasEndpoint(s: Spec, events: seq<Event>)
    requires s.topology == LoadBalancerTopology
    ensures var w := RunEvents(Fresh(s), events);
            w.obj.provisioned ==> (w.obj.endpoint.host != "" <==> !HostDropped(Fresh(s), events))
    decreases |events|
  {
    if events != [] {
      var n := |events| - 1;
      ProvisionedHasEndpoint(s, events[..n]);
      TopologyKept(Fresh(s), events[..n]);
      if events[n].Reconcile? {
        EndpointAfterPass(RunEvents(Fresh(s), events[..n]), events[n].input);
      }
    }
  }

  /** No edit empties a host that is set. */
  ghost predicate HostKept(w: World, events: seq<Event>) {
    forall k :: 0 <= k < |events| && events[k].Edit? ==>
      (RunEvents(w, events[..k]).obj.endpoint.host != "" ==> events[k].endpoint.host != "")
  }

  /** So it always has one in runs whose edits keep a host that is set. */
  lemma {:induction false} KeptHostStays(s: Spec, events: seq<Event>)
    requires s.topology == LoadBalancerTopology && HostKept(Fresh(s), events)
    ensures var w := RunEvents(Fresh(s), events);
            w.obj.provisioned ==> w.obj.endpoint.host != ""
    decreases |events|
  {
    if events != [] {
      var n := |events| - 1;
      var before := events[..n];
      forall k | 0 <= k < |before| && before[k].Edit?
        ensures RunEvents(Fresh(s), before[..k]).obj.endpoint.host != "" ==> before[k].endpoint.host != ""
      {
        assert before[..k] == events[..k];
      }
      KeptHostStays(s, before);
      TopologyKept(Fresh(s), before);
      if events[n].Reconcile? {
        EndpointAfterPass(RunEvents(Fresh(s), before), events[n].input);
      }
    }
  }

  // ---- Conditions during deletion ----

  /** A delete chain reaches `c` when nothing before it is pending. */
  predicate Reaches(todo: seq<Component>, a: Answers, c: Component) {
    todo != [] && (todo[0] == c || (DeleteOutcome(a, todo[0]) != Pending && Reaches(todo[1..], a, c)))
  }

  lemma {:induction false} StaysFalse(w: World, todo: seq<Component>, errs: seq<Error>, i: DeleteInput, c: Component)
    requires ModernStatus(w.obj.conditions, c) == Some(false)
    ensures ModernStatus(DeleteChain(w, todo, errs, i).0.obj.conditions, c) == Some(false)
    decreases |todo|
  {
    if todo != [] {
      var d := todo[0];
      var next := AfterDelete(w, d, i);
      assert ModernStatus(next.obj.conditions, c) == Some(false);
      match DeleteOutcome(i.answers, d)
      case Failed(m) => StaysFalse(next, todo[1..], errs + [DeleteError(d, m)], i, c);
      case Pending =>
      case Done => StaysFalse(next, todo[1..], errs, i, c);
    }
  }

  /** The modern condition of a component the chain reaches is false, of any other unchanged. */
  lemma {:induction false} ModernAfterDelete(w: World, todo: seq<Component>, errs: seq<Error>, i: DeleteInput, c: Component)
    ensures ModernStatus(DeleteChain(w, todo, errs, i).0.obj.conditions, c)
            == if Reaches(todo, i.answers, c) then Some(false) else ModernStatus(w.obj.conditions, c)
    decreases |todo|
  {
    if todo != [] {
      var d := todo[0];
      var next := AfterDelete(w, d, i);
      if d == c {
        match DeleteOutcome(i.answers, d)
        case Failed(m) => StaysFalse(next, todo[1..], errs + [DeleteError(d, m)], i, c);
        case Pending =>
        case Done => StaysFalse(next, todo[1..], errs, i, c);
      } else {
        match DeleteOutcome(i.answers, d)
        case Failed(m) => ModernAfterDelete(next, todo[1..], errs + [DeleteError(d, m)], i, c);
        case Pending =>
        case Done => ModernAfterDelete(next, todo[1..], errs, i, c);
      }
    }
  }

  /** Modern and legacy conditions do not stay in step during deletion. For a component that a delete pass
      reaches, the pair agrees afterwards exactly when its last decisive outcome was a failure; for any
      other component exactly when it agreed before. */
  lemma DeletionSplitsConditions(w: World, i: DeleteInput, c: Component)
    requires w.spec.topology == LoadBalancerTopology && i.listing == Images([])
    requires Trusted(w, c)
    ensures Reaches(DeleteOrder(w.spec), i.answers, c) ==>
              (Faithful(DeletePass(w, i).0, c) <==> LastDecisive(w.calls, c) == Some(false))
    ensures !Reaches(DeleteOrder(w.spec), i.answers, c) ==> (Faithful(DeletePass(w, i).0, c) <==> Faithful(w, c))
  {
    ImagesGone(i.listing);
    ChainKeepsSpec(w, DeleteOrder(w.spec), [], i);
    ModernAfterDelete(w, DeleteOrder(w.spec), [], i, c);
  }

  // ---- The end of deletion, in runs ----

  /** A pass that works on the deletion of an object that still has its finalizer. */
  predicate WorksOnDeletion(w: World, e: Event) {
    e.Reconcile? && e.input.fetch == Found && e.input.gate == Proceed && w.obj.finalizer && w.obj.deleting
  }

  /** How many passes of a run worked on the deletion. */
  function DeletePasses(w: World, events: seq<Event>): nat
    decreases |events|
  {
    if events == [] then 0
    else
      var n := |events| - 1;
      DeletePasses(w, events[..n]) + (if WorksOnDeletion(RunEvents(w, events[..n]), events[n]) then 1 else 0)
  }

  /** How many obstacles they met. */
  function ObstaclesMet(w: World, events: seq<Event>): nat
    decreases |events|
  {
    if events == [] then 0
    else
      var n := |events| - 1;
      var v := RunEvents(w, events[..n]);
      ObstaclesMet(w, events[..n])
      + (if WorksOnDeletion(v, events[n]) then Obstacles(v.spec, events[n].input.delete) else 0)
  }

  lemma {:induction false} StaysDeleting(w: World, events: seq<Event>)
    requires w.obj.deleting
    ensures RunEvents(w, events).obj.deleting
    decreases |events|
  {
    if events != [] {
      var n := |events| - 1;
      StaysDeleting(w, events[..n]);
      if events[n].Reconcile? {
        ChainKeepsSpec(RunEvents(w, events[..n]), DeleteOrder(RunEvents(w, events[..n]).spec), [], events[n].input.delete);
      }
    }
  }

  lemma {:induction false} NeverReadds(w: World, todo: seq<Component>, errs: seq<Error>, i: DeleteInput)
    requires !w.obj.finalizer
    ensures !DeleteChain(w, todo, errs, i).0.obj.finalizer
    decreases |todo|
  {
    if todo != [] {
      var d := todo[0];
      match DeleteOutcome(i.answers, d)
      case Failed(m) => NeverReadds(AfterDelete(w, d, i), todo[1..], errs + [DeleteError(d, m)], i);
      case Pending =>
      case Done => NeverReadds(AfterDelete(w, d, i), todo[1..], errs, i);
    }
  }

  /** An event of the deletion: the finalizer goes exactly in a pass that meets no obstacle, and does not
      come back. */
  lemma DeletionEvent(w: World, e: Event)
    requires w.obj.deleting
    ensures Next(w, e).obj.finalizer <==>
            w.obj.finalizer && (WorksOnDeletion(w, e) ==> Obstacles(w.spec, e.input.delete) >= 1)
  {
    if e.Reconcile? {
      if w.obj.finalizer {
        StuckMeansObstacle(w, e.input.delete);
      } else {
        NeverReadds(w, DeleteOrder(w.spec), [], e.input.delete);
      }
    }
  }

  /** Once deletion is requested, whatever is edited and however many passes are held up in between: as
      long as the finalizer is there, every pass that worked on the deletion has met an obstacle, and
      there is at most one such pass more than obstacles. */
  lemma {:induction false} DeletionEndsInRuns(w: World, events: seq<Event>)
    requires w.obj.deleting
    ensures DeletePasses(w, events) <= ObstaclesMet(w, events) + 1
    ensures RunEvents(w, events).obj.finalizer ==> DeletePasses(w, events) <= ObstaclesMet(w, events)
    decreases |events|
  {
    if events != [] {
      var n := |events| - 1;
      DeletionEndsInRuns(w, events[..n]);
      StaysDeleting(w, events[..n]);
      DeletionEvent(RunEvents(w, events[..n]), events[n]);
    }
  }
}
