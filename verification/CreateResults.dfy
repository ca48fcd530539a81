/** What a create pass answers and writes, in terms of the answers it got, with every component named. */
module CreateResults {
  import opened Common
  import opened ApiShared
  import opened ClusterModel
  import opened ClusterChains
  import opened ClusterPass
  import opened ProvisioningLaws
  import opened DeletionLaws
  import opened ClusterRuns

  predicate IsDone(a: Answers, c: Component) { CreateOutcome(a, c) == Done }

  /** A call for `c` never answers pending when its method returns only an error; otherwise an error
      comes first, then the requeue flag. */
  lemma OutcomesExactly(a: Answers, c: Component)
    ensures a.Of(c).err.Some? ==> CreateOutcome(a, c) == DeleteOutcome(a, c) == Failed(a.Of(c).err.value)
    ensures a.Of(c).err.None? ==>
              && (CreateOutcome(a, c) == Pending <==> a.Of(c).requeue && c !in {SecurityGroups, COS})
              && (DeleteOutcome(a, c) == Pending <==> a.Of(c).requeue && c !in {SecurityGroups, COS, Network})
              && !CreateOutcome(a, c).Failed? && !DeleteOutcome(a, c).Failed?
  {
  }

  // ---- Which components a pass calls ----

  predicate GatewayIsCalled(a: Answers) {
    && IsDone(a, Workspace) && !CreateOutcome(a, Network).Failed?
    && IsDone(a, VPC) && IsDone(a, Subnets) && IsDone(a, SecurityGroups) && !CreateOutcome(a, LoadBalancers).Failed?
  }

  /** A pass over a LoadBalancer cluster that passes its prerequisites calls `c`. */
  predicate IsCalled(s: Spec, a: Answers, c: Component) {
    match c
    case Workspace => true
    case Network => IsDone(a, Workspace)
    case VPC => true
    case Subnets => IsDone(a, VPC)
    case SecurityGroups => IsDone(a, VPC) && IsDone(a, Subnets)
    case LoadBalancers => IsDone(a, VPC) && IsDone(a, Subnets) && IsDone(a, SecurityGroups)
    case TransitGateway => GatewayIsCalled(a)
    case COS => GatewayIsCalled(a) && IsDone(a, TransitGateway) && s.HasCOS()
  }

  /** Only the last link of a chain may stay pending, and no link occurs twice. */
  ghost predicate IsChain(todo: seq<Component>) {
    && (forall j :: 0 <= j < |todo| - 1 ==> Blocks(todo[j]))
    && (forall j, k :: 0 <= j < k < |todo| ==> todo[j] != todo[k])
  }

  /** A goroutine does not call a link once an earlier one is not done. */
  lemma {:induction false} NotCalledWhenStopped(t: Thread, a: Answers, k: nat, j: nat)
    requires IsChain(t.todo) && j < k < |t.todo| && !IsDone(a, t.todo[j])
    requires t.todo[k] !in Called(t.calls)
    ensures t.todo[k] !in Called(Run(t, a).calls)
    decreases |t.todo|
  {
    StepCalls(t, a);
    RunStep(t, a);
    var n := Step(t, a);
    if IsDone(a, t.todo[0]) {
      assert n.todo == t.todo[1..] && n.todo[k - 1] == t.todo[k] && n.todo[j - 1] == t.todo[j];
      NotCalledWhenStopped(n, a, k - 1, j - 1);
    } else {
      assert Run(n, a) == n;
    }
  }

  lemma LinkCalled(chain: seq<Component>, a: Answers, k: nat)
    requires IsChain(chain) && k < |chain|
    ensures chain[k] in Called(Run(Start(chain), a).calls) <==> forall j :: 0 <= j < k ==> IsDone(a, chain[j])
  {
    if forall j :: 0 <= j < k ==> IsDone(a, chain[j]) {
      CalledWhenReached(Start(chain), a, k);
    } else {
      var j :| 0 <= j < k && !IsDone(a, chain[j]);
      NotCalledWhenStopped(Start(chain), a, k, j);
    }
  }

  lemma ChainsAreChains()
    ensures IsChain(POWER_CHAIN) && IsChain(VPC_CHAIN)
  {
  }

  lemma PowerCalls(a: Answers, c: Component)
    ensures c in Called(Run(Start(POWER_CHAIN), a).calls) <==> c == Workspace || (c == Network && IsDone(a, Workspace))
  {
    ChainsAreChains();
    ChainsDisjoint(a);
    LinkCalled(POWER_CHAIN, a, 0);
    LinkCalled(POWER_CHAIN, a, 1);
    assert POWER_CHAIN[0] == Workspace && POWER_CHAIN[1] == Network;
  }

  lemma VpcCalls(a: Answers, c: Component)
    ensures c in Called(Run(Start(VPC_CHAIN), a).calls) <==>
            || c == VPC || (c == Subnets && IsDone(a, VPC)) || (c == SecurityGroups && IsDone(a, VPC) && IsDone(a, Subnets))
            || (c == LoadBalancers && IsDone(a, VPC) && IsDone(a, Subnets) && IsDone(a, SecurityGroups))
  {
    ChainsAreChains();
    ChainsDisjoint(a);
    LinkCalled(VPC_CHAIN, a, 0);
    LinkCalled(VPC_CHAIN, a, 1);
    LinkCalled(VPC_CHAIN, a, 2);
    LinkCalled(VPC_CHAIN, a, 3);
    assert VPC_CHAIN[0] == VPC && VPC_CHAIN[1] == Subnets && VPC_CHAIN[2] == SecurityGroups && VPC_CHAIN[3] == LoadBalancers;
  }

  // ---- What it writes ----

  /** What is written about a component: nothing while it is pending. */
  function Note(c: Component, o: Outcome): Option<(Condition, LegacyCondition)> {
    match o
    case Done => Some((Condition(true, ReadyReason, ""), LegacyCondition(true, NoLegacyReason, false, "")))
    case Failed(m) =>
      Some((Condition(false, if c == SecurityGroups then ReconciliationFailedReason else NotReadyReason, m),
            LegacyCondition(false, LegacyReconciliationFailed, true, m)))
    case Pending => None
  }

  function Lookup<T>(m: map<Component, T>, c: Component): Option<T> {
    if c in m then Some(m[c]) else None
  }

  /** The conditions of `c` in `after` are those in `before`, overwritten by what was noted. */
  ghost predicate Wrote(before: Object, after: Object, c: Component, note: Option<(Condition, LegacyCondition)>) {
    && Lookup(after.conditions, c) == (if note.Some? then Some(note.value.0) else Lookup(before.conditions, c))
    && Lookup(after.legacy, c) == (if note.Some? then Some(note.value.1) else Lookup(before.legacy, c))
  }

  /** What the calls of a goroutine note about `c`. */
  function Noted(calls: seq<Call>, a: Answers, c: Component): Option<(Condition, LegacyCondition)> {
    if c in Called(calls) then Note(c, CreateOutcome(a, c)) else None
  }

  lemma NotesAreRecorded(c: Component, o: Outcome)
    ensures o != Pending ==> Note(c, o) == Some(Recorded(c, o))
  {
  }

  /** One more entry in both arrays, or in none. */
  lemma OneMoreWritten(o: Object, r: ComponentResult, n: ComponentResult, d: Component, out: Outcome, c: Component,
                       note: Option<(Condition, LegacyCondition)>)
    requires Wrote(o, Drain(o, r), c, note)
    requires out == Pending ==> n.conditions == r.conditions && n.legacy == r.legacy
    requires out != Pending ==> n.conditions == r.conditions + [(d, Recorded(d, out).0)] && n.legacy == r.legacy + [(d, Recorded(d, out).1)]
    ensures Wrote(o, Drain(o, n), c, if d == c && out != Pending then Note(c, out) else note)
  {
    NotesAreRecorded(d, out);
    ApplyOne(o.conditions, r.conditions, d, Recorded(d, out).0);
    ApplyOne(o.legacy, r.legacy, d, Recorded(d, out).1);
  }

  lemma StepWrites(o: Object, t: Thread, a: Answers, c: Component)
    requires t.todo != [] && Wrote(o, Drain(o, t.res), c, Noted(t.calls, a, c))
    ensures Wrote(o, Drain(o, Step(t, a).res), c, Noted(Step(t, a).calls, a, c))
  {
    var d := t.todo[0];
    var out := CreateOutcome(a, d);
    StepShape(t, a);
    StepCalls(t, a);
    OneMoreWritten(o, t.res, Step(t, a).res, d, out, c, Noted(t.calls, a, c));
  }

  lemma {:induction false} RunWrites(o: Object, t: Thread, a: Answers, c: Component)
    requires Wrote(o, Drain(o, t.res), c, Noted(t.calls, a, c))
    ensures Wrote(o, Drain(o, Run(t, a).res), c, Noted(Run(t, a).calls, a, c))
    decreases |t.todo|
  {
    if t.todo != [] {
      StepWrites(o, t, a, c);
      RunWrites(o, Step(t, a), a, c);
    }
  }

  lemma ChainWrites(o: Object, chain: seq<Component>, a: Answers, c: Component)
    ensures var t := Run(Start(chain), a); Wrote(o, Drain(o, t.res), c, Noted(t.calls, a, c))
  {
    RunWrites(o, Start(chain), a, c);
  }

  lemma WrittenTwice(o: Object, p: Object, q: Object, c: Component, first: Option<(Condition, LegacyCondition)>,
                     second: Option<(Condition, LegacyCondition)>)
    requires Wrote(o, p, c, first) && Wrote(p, q, c, second)
    ensures Wrote(o, q, c, if second.Some? then second else first)
  {
  }

  /** The chains write about exactly the components they call. */
  lemma ChainsWrite(w: World, i: CreateInput, c: Component)
    ensures Wrote(w.obj, AfterChains(w, i).obj, c,
                  if c != TransitGateway && c != COS && IsCalled(w.spec, i.answers, c) then Note(c, CreateOutcome(i.answers, c)) else None)
  {
    var a := i.answers;
    var p, v := Run(Start(POWER_CHAIN), a), Run(Start(VPC_CHAIN), a);
    var mid := Drain(w.obj, p.res);
    ChainWrites(w.obj, POWER_CHAIN, a, c);
    ChainWrites(mid, VPC_CHAIN, a, c);
    WrittenTwice(w.obj, mid, Drain(mid, v.res), c, Noted(p.calls, a, c), Noted(v.calls, a, c));
    PowerCalls(a, c);
    VpcCalls(a, c);
    ObjectAfterChains(w, i);
  }

  lemma EndpointWrites(w: World, i: CreateInput, c: Component)
    ensures Wrote(w.obj, EndpointStage(w, i).0.obj, c, None)
  {
  }

  lemma CosMarkWrites(w: World, i: CreateInput, c: Component)
    ensures var marked := Mark(RecordCall(w, COS, i), COS, Recorded(COS, CreateOutcome(i.answers, COS)));
            Wrote(w.obj, marked.obj, c, if c == COS then Note(COS, CreateOutcome(i.answers, COS)) else None)
  {
    NotesAreRecorded(COS, CreateOutcome(i.answers, COS));
  }

  lemma CosWrites(w: World, i: CreateInput, c: Component)
    ensures Wrote(w.obj, CosStage(w, i).0.obj, c, if c == COS && w.spec.HasCOS() then Note(COS, CreateOutcome(i.answers, COS)) else None)
  {
    if w.spec.HasCOS() {
      var marked := Mark(RecordCall(w, COS, i), COS, Recorded(COS, CreateOutcome(i.answers, COS)));
      CosMarkWrites(w, i, c);
      EndpointWrites(marked, i, c);
      assert CosStage(w, i).0 in {marked, EndpointStage(marked, i).0};
    } else {
      EndpointWrites(w, i, c);
    }
  }

  lemma GatewayWrites(w: World, i: CreateInput, c: Component)
    ensures var o := CreateOutcome(i.answers, TransitGateway);
            Wrote(w.obj, GatewayStage(w, i).0.obj, c,
                  if c == TransitGateway then Note(TransitGateway, o)
                  else if c == COS && o == Done && w.spec.HasCOS() then Note(COS, CreateOutcome(i.answers, COS)) else None)
  {
    if CreateOutcome(i.answers, TransitGateway) == Done {
      var marked := Mark(RecordCall(w, TransitGateway, i), TransitGateway, ReadyConditions());
      CosWrites(marked, i, c);
      assert GatewayStage(w, i) == CosStage(marked, i);
    }
  }

  lemma PassingMeansCalled(s: Spec, i: CreateInput)
    ensures ChainsPass(i) <==> IsCalled(s, i.answers, TransitGateway)
  {
    var a := i.answers;
    assert CreateOutcome(a, SecurityGroups) != Pending;
    if ChainsPass(i) {
      assert Workspace in POWER_CHAIN && Network in POWER_CHAIN;
      assert VPC in VPC_CHAIN && Subnets in VPC_CHAIN && SecurityGroups in VPC_CHAIN && LoadBalancers in VPC_CHAIN;
    }
  }

  /** After a create pass, the conditions of every component are what its answer in this pass says, with
      the reason and message that go with it, if the pass called it and it was not pending; otherwise
      they are as before. */
  lemma ConditionsExactly(w: World, i: CreateInput, c: Component)
    requires w.spec.topology == LoadBalancerTopology && i.perErr.None? && i.groupErr.None?
    ensures Wrote(w.obj, CreatePass(w, i).0.obj, c,
                  if IsCalled(w.spec, i.answers, c) then Note(c, CreateOutcome(i.answers, c)) else None)
  {
    var mid := AfterChains(w, i);
    ChainsWrite(w, i, c);
    GatewayReached(w, i);
    PassingMeansCalled(w.spec, i);
    assert CreatePass(w, i) == ComponentStage(w, i);
    if ChainsPass(i) {
      GatewayWrites(mid, i, c);
      ChainsKeepRest(w, i);
    }
  }

  // ---- What it answers ----

  /** The first failure of the workspace and network chain. */
  function PowerError(a: Answers): seq<Error> {
    if CreateOutcome(a, Workspace).Failed? then [ReconcileError(Workspace, CreateOutcome(a, Workspace).message)]
    else if IsDone(a, Workspace) && CreateOutcome(a, Network).Failed? then [ReconcileError(Network, CreateOutcome(a, Network).message)]
    else []
  }

  /** The first failure of the VPC chain. */
  function VpcError(a: Answers): seq<Error> {
    if CreateOutcome(a, VPC).Failed? then [ReconcileError(VPC, CreateOutcome(a, VPC).message)]
    else if !IsDone(a, VPC) then []
    else if CreateOutcome(a, Subnets).Failed? then [ReconcileError(Subnets, CreateOutcome(a, Subnets).message)]
    else if !IsDone(a, Subnets) then []
    else if CreateOutcome(a, SecurityGroups).Failed? then [ReconcileError(SecurityGroups, CreateOutcome(a, SecurityGroups).message)]
    else if CreateOutcome(a, LoadBalancers).Failed? then [ReconcileError(LoadBalancers, CreateOutcome(a, LoadBalancers).message)]
    else []
  }

  /** A chain is held up by a pending component that it cannot go on without. */
  predicate HeldUp(a: Answers) {
    CreateOutcome(a, Workspace) == Pending || CreateOutcome(a, VPC) == Pending || (IsDone(a, VPC) && CreateOutcome(a, Subnets) == Pending)
  }

  /** The answer of a create pass over a LoadBalancer cluster. */
  function CreateAnswer(w: World, i: CreateInput): Result {
    var a := i.answers;
    var errs := if i.powerFirst then PowerError(a) + VpcError(a) else VpcError(a) + PowerError(a);
    if i.perErr.Some? then Fail(PERError(i.perErr.value))
    else if i.groupErr.Some? then Fail(ResourceGroupError(i.groupErr.value))
    else if errs != [] then Result(0, errs)
    else if HeldUp(a) then Requeue(30)
    else if CreateOutcome(a, TransitGateway).Failed? then Fail(ReconcileError(TransitGateway, CreateOutcome(a, TransitGateway).message))
    else if CreateOutcome(a, TransitGateway) == Pending then Requeue(60)
    else if w.spec.HasCOS() && CreateOutcome(a, COS).Failed? then Fail(ReconcileError(COS, CreateOutcome(a, COS).message))
    else if !DoneOrStillReady(w.obj, a, Network) || !DoneOrStillReady(w.obj, a, LoadBalancers) then Requeue(30)
    else if i.host.HostFailed? then Fail(HostNameError(i.host.message))
    else if !Has(i.host.name) then Requeue(60)
    else OK
  }

  /** Where a goroutine stops, and with what. */
  lemma {:induction false} StopsAt(t: Thread, a: Answers, k: nat)
    requires k < |t.todo| && forall j :: 0 <= j < k ==> IsDone(a, t.todo[j])
    ensures var r := Run(t, a).res;
            match CreateOutcome(a, t.todo[k])
            case Failed(m) => r.err == Some(ReconcileError(t.todo[k], m)) && r.requeue == t.res.requeue
            case Pending => Blocks(t.todo[k]) ==> r.err == t.res.err && r.requeue
            case Done => true
    decreases |t.todo|
  {
    RunStep(t, a);
    var n := Step(t, a);
    if k == 0 {
      if n.todo == [] {
        assert Run(n, a) == n;
      }
    } else {
      assert IsDone(a, t.todo[0]) && n.todo == t.todo[1..];
      StopsAt(n, a, k - 1);
    }
  }

  lemma {:induction false} RunsToEnd(t: Thread, a: Answers)
    requires Passes(t.todo, a)
    ensures Run(t, a).res.err == t.res.err && Run(t, a).res.requeue == t.res.requeue
    decreases |t.todo|
  {
    if t.todo != [] {
      assert t.todo[0] in t.todo;
      var n := Step(t, a);
      assert n.todo == t.todo[1..];
      forall c | c in n.todo ensures c in t.todo {
      }
      RunsToEnd(n, a);
    }
  }

  lemma PowerResult(a: Answers)
    ensures var r := Run(Start(POWER_CHAIN), a).res;
            ErrorsOf(r) == PowerError(a) && (r.requeue <==> CreateOutcome(a, Workspace) == Pending)
  {
    var t := Start(POWER_CHAIN);
    assert t.todo[0] == Workspace && t.todo[1] == Network;
    StopsAt(t, a, 0);
    if IsDone(a, Workspace) {
      StopsAt(t, a, 1);
      if !CreateOutcome(a, Network).Failed? {
        RunsToEnd(t, a);
      }
    }
  }

  lemma VpcResult(a: Answers)
    ensures var r := Run(Start(VPC_CHAIN), a).res;
            && ErrorsOf(r) == VpcError(a)
            && (r.requeue <==> CreateOutcome(a, VPC) == Pending || (IsDone(a, VPC) && CreateOutcome(a, Subnets) == Pending))
  {
    var t := Start(VPC_CHAIN);
    assert t.todo[0] == VPC && t.todo[1] == Subnets && t.todo[2] == SecurityGroups && t.todo[3] == LoadBalancers;
    assert CreateOutcome(a, SecurityGroups) != Pending;
    StopsAt(t, a, 0);
    if IsDone(a, VPC) {
      StopsAt(t, a, 1);
      if IsDone(a, Subnets) {
        StopsAt(t, a, 2);
        if IsDone(a, SecurityGroups) {
          StopsAt(t, a, 3);
          if !CreateOutcome(a, LoadBalancers).Failed? {
            RunsToEnd(t, a);
          }
        }
      }
    }
  }

  lemma DrainedNamed(w: World, i: CreateInput)
    ensures var d := Drained(w.obj, Both(w, i), i.powerFirst);
            && d.1 == (if i.powerFirst then PowerError(i.answers) + VpcError(i.answers) else VpcError(i.answers) + PowerError(i.answers))
            && (d.2 <==> HeldUp(i.answers))
  {
    ResultsOfBoth(w.spec, w.cloud, w.obj.recorded, i.schedule, i.answers, i.fx);
    PowerResult(i.answers);
    VpcResult(i.answers);
  }

  lemma GatewayAnswer(w: World, i: CreateInput)
    ensures var a := i.answers;
            GatewayStage(w, i).1 ==
              if CreateOutcome(a, TransitGateway).Failed? then Fail(ReconcileError(TransitGateway, CreateOutcome(a, TransitGateway).message))
              else if CreateOutcome(a, TransitGateway) == Pending then Requeue(60)
              else if w.spec.HasCOS() && CreateOutcome(a, COS).Failed? then Fail(ReconcileError(COS, CreateOutcome(a, COS).message))
              else if !IsTrue(w.obj, Network) || !IsTrue(w.obj, LoadBalancers) then Requeue(30)
              else if i.host.HostFailed? then Fail(HostNameError(i.host.message))
              else if !Has(i.host.name) then Requeue(60)
              else OK
  {
  }

  /** Past the chains, a network or load balancer counts as ready when it is done or still ready. */
  lemma ReadinessCarries(w: World, i: CreateInput, c: Component)
    requires ChainsPass(i) && c in {Network, LoadBalancers}
    ensures IsTrue(AfterChains(w, i).obj, c) <==> DoneOrStillReady(w.obj, i.answers, c)
  {
    StatusWhenPassing(w, i, c);
    assert Network in POWER_CHAIN && LoadBalancers in VPC_CHAIN;
  }

  lemma NoErrorWhenPassing(i: CreateInput)
    ensures ChainsPass(i) <==> PowerError(i.answers) == [] && VpcError(i.answers) == [] && !HeldUp(i.answers)
  {
    PassingMeansCalled(Spec(NoTopology, NoType, NoType, NoType, NoType, NoType, NoType, NoType, false,
                            Listed(true, {}), Listed(true, {}), Listed(true, {}), {}), i);
    assert CreateOutcome(i.answers, SecurityGroups) != Pending;
  }

  lemma PassedAnswer(w: World, i: CreateInput)
    requires w.spec.topology == LoadBalancerTopology && i.perErr.None? && i.groupErr.None? && ChainsPass(i)
    ensures GatewayStage(AfterChains(w, i), i).1 == CreateAnswer(w, i)
  {
    NoErrorWhenPassing(i);
    GatewayAnswer(AfterChains(w, i), i);
    ChainsKeepRest(w, i);
    ReadinessCarries(w, i, Network);
    ReadinessCarries(w, i, LoadBalancers);
  }

  lemma StoppedAnswer(w: World, i: CreateInput)
    requires i.perErr.None? && i.groupErr.None? && !ChainsPass(i)
    ensures ComponentStage(w, i).1 == CreateAnswer(w, i)
  {
    NoErrorWhenPassing(i);
    StoppedResult(w, i);
    DrainedNamed(w, i);
  }

  /** The result of a create pass over a LoadBalancer cluster, exactly. */
  lemma CreateAnswerExactly(w: World, i: CreateInput)
    requires w.spec.topology == LoadBalancerTopology
    ensures CreatePass(w, i).1 == CreateAnswer(w, i)
  {
    if i.perErr.None? && i.groupErr.None? {
      assert CreatePass(w, i) == ComponentStage(w, i);
      if ChainsPass(i) {
        GatewayReached(w, i);
        PassedAnswer(w, i);
      } else {
        StoppedAnswer(w, i);
      }
    }
  }

  // ---- The calls it makes ----

  lemma {:induction false} CalledMembers(calls: seq<Call>, c: Component)
    ensures c in Called(calls) <==> exists k: Call :: k in multiset(calls) && k.component == c
  {
    if c in Called(calls) {
      var n :| 0 <= n < |calls| && calls[n].component == c;
      assert calls[n] in multiset(calls);
    }
    if k: Call :| k in multiset(calls) && k.component == c {
      assert k in calls;
      var n :| 0 <= n < |calls| && calls[n] == k;
      assert calls[n].component == c;
    }
  }

  /** A log with the calls of both goroutines holds the components of both. */
  lemma MergedComponents(log: seq<Call>, p: seq<Call>, v: seq<Call>, c: Component)
    requires multiset(log) == multiset(p) + multiset(v)
    ensures c in Called(log) <==> c in Called(p) || c in Called(v)
  {
    CalledMembers(log, c);
    CalledMembers(p, c);
    CalledMembers(v, c);
    if k: Call :| k in multiset(p) && k.component == c {
      assert k in multiset(log);
    }
    if k: Call :| k in multiset(v) && k.component == c {
      assert k in multiset(log);
    }
  }

  lemma LogComponents(w: World, i: CreateInput, c: Component)
    ensures c in Called(Both(w, i).log) <==> c != TransitGateway && c != COS && IsCalled(w.spec, i.answers, c)
  {
    BothFinish(w.spec, w.cloud, w.obj.recorded, i.schedule, i.answers, i.fx);
    MergedComponents(Both(w, i).log, Both(w, i).power.calls, Both(w, i).vpc.calls, c);
    PowerCalls(i.answers, c);
    VpcCalls(i.answers, c);
  }

  lemma ChainCalls(w: World, i: CreateInput)
    ensures AfterChains(w, i).calls == w.calls + Both(w, i).log && AfterChains(w, i).spec == w.spec
  {
  }

  /** The calls after the log of the chains. */
  lemma CallsAfterChains(w: World, i: CreateInput)
    ensures ComponentStage(w, i).0.calls
            == w.calls + (Both(w, i).log + (if ChainsPass(i) then FinalCalls(w.spec, i) else []))
  {
    var mid, log := AfterChains(w, i), Both(w, i).log;
    GatewayReached(w, i);
    ChainCalls(w, i);
    if ChainsPass(i) {
      FinalCallsMade(mid, i);
      assert mid.calls + FinalCalls(w.spec, i) == w.calls + (log + FinalCalls(w.spec, i));
    } else {
      assert log + [] == log;
    }
  }

  /** The components that a pass calls, whatever the interleaving. */
  lemma CallsExactly(w: World, i: CreateInput, c: Component)
    requires w.spec.topology == LoadBalancerTopology && i.perErr.None? && i.groupErr.None?
    ensures var after := CreatePass(w, i).0.calls;
            && w.calls <= after
            && (c in Called(after[|w.calls|..]) <==> IsCalled(w.spec, i.answers, c))
  {
    var log := Both(w, i).log;
    var more := if ChainsPass(i) then FinalCalls(w.spec, i) else [];
    assert CreatePass(w, i) == ComponentStage(w, i);
    CallsAfterChains(w, i);
    assert (w.calls + (log + more))[|w.calls|..] == log + more;
    CalledAppend(log, more);
    LogComponents(w, i, c);
    FinalComponents(w.spec, i, c);
    PassingMeansCalled(w.spec, i);
  }

  lemma FinalComponents(s: Spec, i: CreateInput, c: Component)
    ensures c in Called(FinalCalls(s, i)) <==> c == TransitGateway || (c == COS && IsDone(i.answers, TransitGateway) && s.HasCOS())
  {
    var calls := FinalCalls(s, i);
    assert calls[0].component == TransitGateway;
    if IsDone(i.answers, TransitGateway) && s.HasCOS() {
      assert calls[1].component == COS;
    }
  }

  /** The ways in which a pass ends before any of this. */
  lemma PassGates(w: World, i: PassInput)
    ensures i.fetch.NotFound? ==> Pass(w, i) == (w, OK)
    ensures i.fetch.FetchFailed? ==> Pass(w, i) == (w, Fail(FetchError(i.fetch.message)))
    ensures i.fetch == Found && !w.obj.finalizer && !w.obj.deleting ==>
              if i.finalizerErr.Some? then Pass(w, i) == (w, Fail(FinalizerError(i.finalizerErr.value)))
              else Pass(w, i) == (w.(obj := w.obj.(finalizer := true)), OK)
    ensures i.fetch == Found && (w.obj.finalizer || w.obj.deleting) && i.gate.Stop? ==> Pass(w, i) == (w, i.gate.result)
  {
  }

  // ---- The other topologies ----

  /** In VirtualIP topology a create pass ends clean, marks the cluster provisioned and does nothing else;
      in an unknown one it ends with an error and does nothing. */
  lemma OtherTopologies(w: World, i: CreateInput)
    requires w.spec.topology != LoadBalancerTopology
    ensures var (after, r) := CreatePass(w, i);
            && after.obj.provisioned == (w.spec.topology == VirtualIP || w.obj.provisioned)
            && after == w.(obj := w.obj.(provisioned := after.obj.provisioned))
            && r.requeueAfter == 0
            && r.errors == (if w.spec.topology == VirtualIP then [] else [UnknownTopology(w.spec.topology)])
  {
  }

  lemma {:induction false} StaysProvisioned(w: World, events: seq<Event>)
    requires w.obj.provisioned
    ensures RunEvents(w, events).obj.provisioned
    decreases |events|
  {
    if events != [] {
      var n := |events| - 1;
      StaysProvisioned(w, events[..n]);
      if events[n].Reconcile? {
        MarkIsKept(RunEvents(w, events[..n]), events[n].input);
      }
    }
  }

  /** No pass takes the mark away. */
  lemma MarkIsKept(w: World, i: PassInput)
    requires w.obj.provisioned
    ensures Pass(w, i).0.obj.provisioned
  {
    if w.spec.topology == LoadBalancerTopology {
      EndpointAfterPass(w, i);
    } else {
      OtherTopologies(w, i.create);
      ChainKeepsSpec(w, DeleteOrder(w.spec), [], i.delete);
    }
  }

  /** Over runs: a VirtualIP cluster is provisioned by the first pass that proceeds after the one that set
      its finalizer, without a single call, and stays so. */
  lemma VirtualIPIsProvisioned(s: Spec, before: seq<Event>, i: PassInput, later: seq<Event>)
    requires s.topology == VirtualIP
    requires var w := RunEvents(Fresh(s), before); w.obj.finalizer && !w.obj.deleting
    requires i.fetch == Found && i.gate == Proceed
    ensures var w := RunEvents(Fresh(s), before);
            Pass(w, i).1 == OK && RunEvents(Pass(w, i).0, later).obj.provisioned && Pass(w, i).0.cloud == {}
  {
    var w := RunEvents(Fresh(s), before);
    TopologyKept(Fresh(s), before);
    ReachableInv(s, before);
    OtherTopologies(w, i.create);
    StaysProvisioned(Pass(w, i).0, later);
  }
}
