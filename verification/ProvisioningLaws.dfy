/** What the create passes of the cluster reconciler guarantee, pass by pass and over whole runs. */
module ProvisioningLaws {
  import opened Common
  import opened ApiShared
  import opened ClusterModel
  import opened ClusterChains
  import opened ClusterPass

  // ---- Condition history ----

  /** Whether the last call of `c` that was not pending succeeded; None when there is none. */
  function LastDecisive(calls: seq<Call>, c: Component): Option<bool>
    decreases |calls|
  {
    if calls == [] then None
    else
      var k := calls[|calls| - 1];
      if k.component == c && k.outcome != Pending then Some(k.outcome == Done)
      else LastDecisive(calls[..|calls| - 1], c)
  }

  function Override(newer: Option<bool>, older: Option<bool>): Option<bool> {
    if newer.Some? then newer else older
  }

  lemma {:induction false} LastDecisiveAppend(a: seq<Call>, b: seq<Call>, c: Component)
    ensures LastDecisive(a + b, c) == Override(LastDecisive(b, c), LastDecisive(a, c))
    decreases |b|
  {
    if b == [] {
      assert a + b == a;
    } else {
      assert (a + b)[..|a + b| - 1] == a + b[..|b| - 1];
      LastDecisiveAppend(a, b[..|b| - 1], c);
    }
  }

  lemma LastDecisiveOne(calls: seq<Call>, k: Call, c: Component)
    ensures LastDecisive(calls + [k], c)
            == if k.component == c && k.outcome != Pending then Some(k.outcome == Done) else LastDecisive(calls, c)
  {
    assert (calls + [k])[..|calls|] == calls;
  }

  function ModernStatus(m: map<Component, Condition>, c: Component): Option<bool> {
    if c in m then Some(m[c].status) else None
  }

  function LegacyStatus(m: map<Component, LegacyCondition>, c: Component): Option<bool> {
    if c in m then Some(m[c].status) else None
  }

  /** Both conditions of `c` report its last decisive outcome. */
  ghost predicate Faithful(w: World, c: Component) {
    ModernStatus(w.obj.conditions, c) == LegacyStatus(w.obj.legacy, c) == LastDecisive(w.calls, c)
  }

  ghost predicate History(w: World) { forall c: Component :: Faithful(w, c) }

  /** Applying the result of a goroutine updates the status of `c` by its own calls only. */
  ghost predicate Reports(o: Object, t: Thread, c: Component) {
    && ModernStatus(Apply(o.conditions, t.res.conditions), c)
       == Override(LastDecisive(t.calls, c), ModernStatus(o.conditions, c))
    && LegacyStatus(Apply(o.legacy, t.res.legacy), c)
       == Override(LastDecisive(t.calls, c), LegacyStatus(o.legacy, c))
  }

  lemma ApplyOne<T>(m: map<Component, T>, u: seq<(Component, T)>, c: Component, v: T)
    ensures Apply(m, u + [(c, v)]) == Apply(m, u)[c := v]
  {
    assert (u + [(c, v)])[..|u|] == u;
  }

  /** What the reconciler records for a decisive outcome. */
  function Recorded(c: Component, o: Outcome): (Condition, LegacyCondition) {
    if o.Failed? then FailedConditions(c, o.message) else ReadyConditions()
  }

  lemma StepShape(t: Thread, a: Answers)
    requires t.todo != []
    ensures var d := t.todo[0];
            var o := CreateOutcome(a, d);
            var n := Step(t, a);
            && n.calls == t.calls + [Call(d, o)]
            && n.res.conditions == (if o == Pending then t.res.conditions else t.res.conditions + [(d, Recorded(d, o).0)])
            && n.res.legacy == (if o == Pending then t.res.legacy else t.res.legacy + [(d, Recorded(d, o).1)])
  {
  }

  lemma StepReports(o: Object, t: Thread, a: Answers, c: Component)
    requires t.todo != [] && Reports(o, t, c)
    ensures Reports(o, Step(t, a), c)
  {
    var d := t.todo[0];
    var out := CreateOutcome(a, d);
    StepShape(t, a);
    ReportsOne(o, t, Step(t, a), Call(d, out), c);
  }

  lemma ReportsOne(o: Object, t: Thread, n: Thread, k: Call, c: Component)
    requires Reports(o, t, c)
    requires n.calls == t.calls + [k]
    requires k.outcome == Pending ==> n.res.conditions == t.res.conditions && n.res.legacy == t.res.legacy
    requires k.outcome != Pending ==>
               var b := Recorded(k.component, k.outcome);
               && n.res.conditions == t.res.conditions + [(k.component, b.0)]
               && n.res.legacy == t.res.legacy + [(k.component, b.1)]
    ensures Reports(o, n, c)
  {
    var b := Recorded(k.component, k.outcome);
    LastDecisiveOne(t.calls, k, c);
    ApplyOne(o.conditions, t.res.conditions, k.component, b.0);
    ApplyOne(o.legacy, t.res.legacy, k.component, b.1);
  }

  lemma {:induction false} RunReports(o: Object, t: Thread, a: Answers, c: Component)
    requires Reports(o, t, c)
    ensures Reports(o, Run(t, a), c)
    decreases |t.todo|
  {
    if t.todo != [] {
      StepReports(o, t, a, c);
      RunReports(o, Step(t, a), a, c);
    }
  }

  // ---- The log of two interleaved goroutines ----

  lemma {:induction false} NeverCalled(calls: seq<Call>, c: Component)
    requires c !in Called(calls)
    ensures LastDecisive(calls, c) == None
    decreases |calls|
  {
    if calls != [] {
      var n := |calls| - 1;
      assert calls[n].component in Called(calls);
      forall d | d in Called(calls[..n]) ensures d in Called(calls) {
        var i :| 0 <= i < n && calls[..n][i].component == d;
        assert calls[i].component == d;
      }
      NeverCalled(calls[..n], c);
    }
  }

  /** A goroutine keeps to its own chain. */
  ghost predicate Within(t: Thread, chain: set<Component>) {
    Called(t.calls) <= chain && forall c :: c in t.todo ==> c in chain
  }

  lemma StepWithin(t: Thread, a: Answers, chain: set<Component>)
    requires t.todo != [] && Within(t, chain)
    ensures Within(Step(t, a), chain)
  {
    StepCalls(t, a);
  }

  /** The log, read after `before`, tells for `c` what the calls of the two goroutines tell. */
  ghost predicate LogTracks(before: seq<Call>, m: Machine, c: Component) {
    LastDecisive(before + m.log, c)
    == Override(LastDecisive(m.vpc.calls, c), Override(LastDecisive(m.power.calls, c), LastDecisive(before, c)))
  }

  lemma AdvanceWithin(s: Spec, m: Machine, turn: Turn, a: Answers, fx: Effects)
    requires Within(m.power, POWER_SET) && Within(m.vpc, VPC_SET)
    ensures var n := Advance(s, m, turn, a, fx); Within(n.power, POWER_SET) && Within(n.vpc, VPC_SET)
  {
    var t := m.Next(turn);
    if t.todo != [] {
      StepWithin(t, a, if turn.PowerTurn? then POWER_SET else VPC_SET);
    }
  }

  /** One more call, on sequences of calls: of the first goroutine, if the second never calls `c`; or of
      the second. */
  lemma TracksOne(before: seq<Call>, log: seq<Call>, p: seq<Call>, v: seq<Call>, k: Call, c: Component)
    requires LastDecisive(before + log, c) == Override(LastDecisive(v, c), Override(LastDecisive(p, c), LastDecisive(before, c)))
    ensures (k.component == c ==> LastDecisive(v, c).None?) ==>
              LastDecisive(before + (log + [k]), c)
              == Override(LastDecisive(v, c), Override(LastDecisive(p + [k], c), LastDecisive(before, c)))
    ensures LastDecisive(before + (log + [k]), c)
            == Override(LastDecisive(v + [k], c), Override(LastDecisive(p, c), LastDecisive(before, c)))
  {
    assert before + (log + [k]) == before + log + [k];
    LastDecisiveOne(before + log, k, c);
    LastDecisiveOne(p, k, c);
    LastDecisiveOne(v, k, c);
  }

  lemma AdvanceTracks(before: seq<Call>, s: Spec, m: Machine, turn: Turn, a: Answers, fx: Effects, c: Component)
    requires Within(m.power, POWER_SET) && Within(m.vpc, VPC_SET) && LogTracks(before, m, c)
    ensures LogTracks(before, Advance(s, m, turn, a, fx), c)
  {
    var t := m.Next(turn);
    if t.todo != [] {
      var k := Call(t.todo[0], CreateOutcome(a, t.todo[0]));
      StepCalls(t, a);
      TracksOne(before, m.log, m.power.calls, m.vpc.calls, k, c);
      if turn.PowerTurn? && k.component == c {
        assert c in m.power.todo && c in POWER_SET && c !in VPC_SET;
        NeverCalled(m.vpc.calls, c);
      }
    }
  }

  lemma {:induction false} ScheduleTracks(before: seq<Call>, s: Spec, start: Machine, schedule: seq<Turn>, a: Answers,
                                          fx: Effects, c: Component)
    requires start.power == Start(POWER_CHAIN) && start.vpc == Start(VPC_CHAIN) && start.log == []
    ensures var m := RunSchedule(s, start, schedule, a, fx);
            Within(m.power, POWER_SET) && Within(m.vpc, VPC_SET) && LogTracks(before, m, c)
    decreases |schedule|
  {
    if schedule == [] {
      assert before + [] == before;
    } else {
      var n := |schedule| - 1;
      ScheduleTracks(before, s, start, schedule[..n], a, fx, c);
      AdvanceWithin(s, RunSchedule(s, start, schedule[..n], a, fx), schedule[n], a, fx);
      AdvanceTracks(before, s, RunSchedule(s, start, schedule[..n], a, fx), schedule[n], a, fx, c);
    }
  }

  /** Whatever the interleaving, the log of both goroutines tells what their own calls tell. */
  lemma LogOfBoth(w: World, i: CreateInput, c: Component)
    ensures var p, v := Run(Start(POWER_CHAIN), i.answers), Run(Start(VPC_CHAIN), i.answers);
            LastDecisive(AfterChains(w, i).calls, c)
            == Override(LastDecisive(v.calls, c), Override(LastDecisive(p.calls, c), LastDecisive(w.calls, c)))
  {
    ScheduleTracks(w.calls, w.spec, StartBoth(w.cloud, w.obj.recorded), i.schedule + ALL_TURNS, i.answers, i.fx, c);
    BothFinish(w.spec, w.cloud, w.obj.recorded, i.schedule, i.answers, i.fx);
  }

  /** What the drain leaves in the object, in terms of the goroutines' own runs. */
  lemma ObjectAfterChains(w: World, i: CreateInput)
    ensures var p, v := Run(Start(POWER_CHAIN), i.answers), Run(Start(VPC_CHAIN), i.answers);
            var o := AfterChains(w, i).obj;
            && o == Drain(Drain(w.obj, p.res), v.res).(recorded := o.recorded)
            && o.recorded == Both(w, i).recorded
  {
    BothFinish(w.spec, w.cloud, w.obj.recorded, i.schedule, i.answers, i.fx);
    DrainOrderIrrelevant(w.obj, i.answers);
  }

  /** The drained object and the calls of both goroutines tell the same story, in either order. */
  lemma ChainsKeepHistory(w: World, i: CreateInput, c: Component)
    requires Faithful(w, c)
    ensures Faithful(AfterChains(w, i), c)
  {
    var p := Run(Start(POWER_CHAIN), i.answers);
    RunReports(w.obj, Start(POWER_CHAIN), i.answers, c);
    RunReports(Drain(w.obj, p.res), Start(VPC_CHAIN), i.answers, c);
    ObjectAfterChains(w, i);
    LogOfBoth(w, i, c);
  }

  lemma DecisiveKeepsHistory(w: World, i: CreateInput, d: Component, c: Component, b: (Condition, LegacyCondition))
    requires Faithful(w, c) && CreateOutcome(i.answers, d) != Pending
    requires b.0.status == b.1.status == (CreateOutcome(i.answers, d) == Done)
    ensures Faithful(Mark(RecordCall(w, d, i), d, b), c)
  {
    LastDecisiveOne(w.calls, Call(d, CreateOutcome(i.answers, d)), c);
  }

  lemma PendingKeepsHistory(w: World, i: CreateInput, d: Component, c: Component)
    requires Faithful(w, c) && CreateOutcome(i.answers, d) == Pending
    ensures Faithful(RecordCall(w, d, i), c)
  {
    LastDecisiveOne(w.calls, Call(d, CreateOutcome(i.answers, d)), c);
  }

  lemma EndpointKeepsHistory(w: World, i: CreateInput, c: Component)
    requires Faithful(w, c)
    ensures Faithful(EndpointStage(w, i).0, c)
  {
  }

  lemma CosKeepsHistory(w: World, i: CreateInput, c: Component)
    requires Faithful(w, c)
    ensures Faithful(CosStage(w, i).0, c)
  {
    if w.spec.HasCOS() {
      var o := CreateOutcome(i.answers, COS);
      var marked := Mark(RecordCall(w, COS, i), COS, Recorded(COS, o));
      DecisiveKeepsHistory(w, i, COS, c, Recorded(COS, o));
      EndpointKeepsHistory(marked, i, c);
      assert CosStage(w, i).0 in {marked, EndpointStage(marked, i).0};
    } else {
      EndpointKeepsHistory(w, i, c);
    }
  }

  lemma GatewayKeepsHistory(w: World, i: CreateInput, c: Component)
    requires Faithful(w, c)
    ensures Faithful(GatewayStage(w, i).0, c)
  {
    var o := CreateOutcome(i.answers, TransitGateway);
    if o == Pending {
      PendingKeepsHistory(w, i, TransitGateway, c);
    } else {
      var marked := Mark(RecordCall(w, TransitGateway, i), TransitGateway, Recorded(TransitGateway, o));
      DecisiveKeepsHistory(w, i, TransitGateway, c, Recorded(TransitGateway, o));
      if o == Done {
        CosKeepsHistory(marked, i, c);
        assert GatewayStage(w, i) == CosStage(marked, i);
      } else {
        assert GatewayStage(w, i).0 == marked;
      }
    }
  }

  lemma PassKeepsFaithful(w: World, i: CreateInput, c: Component)
    requires Faithful(w, c)
    ensures Faithful(CreatePass(w, i).0, c)
  {
    if w.spec.topology == LoadBalancerTopology && i.perErr.None? && i.groupErr.None? {
      ChainsKeepHistory(w, i, c);
      var after := AfterChains(w, i);
      GatewayKeepsHistory(after, i, c);
      assert CreatePass(w, i).0 in {after, GatewayStage(after, i).0};
    }
  }

  /** One create pass keeps the history invariant, even when one chain or a later stage failed. */
  lemma CreateKeepsHistory(w: World, i: CreateInput)
    requires History(w)
    ensures History(CreatePass(w, i).0)
  {
    forall c: Component ensures Faithful(CreatePass(w, i).0, c) {
      assert Faithful(w, c);
      PassKeepsFaithful(w, i, c);
    }
  }

  // ---- Provisioning ----

  const CHAINED := {Workspace, Network, VPC, Subnets, SecurityGroups, LoadBalancers, TransitGateway}

  /** A link that may stay pending: it then counts as ready if an earlier pass found it ready. */
  predicate DoneOrStillReady(o: Object, a: Answers, c: Component) {
    CreateOutcome(a, c) == Done || (CreateOutcome(a, c) == Pending && IsTrue(o, c))
  }

  /** What has to be answered for the pass to mark the cluster provisioned. */
  predicate Ready(w: World, i: CreateInput) {
    && i.perErr.None? && i.groupErr.None?
    && (forall c :: c in {Workspace, VPC, Subnets, SecurityGroups, TransitGateway} ==> CreateOutcome(i.answers, c) == Done)
    && DoneOrStillReady(w.obj, i.answers, Network)
    && DoneOrStillReady(w.obj, i.answers, LoadBalancers)
    && (w.spec.HasCOS() ==> CreateOutcome(i.answers, COS) == Done)
    && i.host.Host? && Has(i.host.name)
  }

  /** All answers of a chain that do not stop it. */
  predicate Passes(todo: seq<Component>, a: Answers) {
    forall c :: c in todo ==> CreateOutcome(a, c) == Done || (CreateOutcome(a, c) == Pending && !Blocks(c))
  }

  /** A goroutine runs to the end of its chain exactly when no answer stops it; then every component
      of the chain that answered Done is reported Done. */
  lemma {:induction false} RunOutcome(t: Thread, a: Answers, c: Component)
    requires t.res.err.None? && !t.res.requeue
    ensures var e := Run(t, a);
            && (e.res.err.None? && !e.res.requeue <==> Passes(t.todo, a))
            && (Passes(t.todo, a) ==>
                LastDecisive(e.calls, c) == (if c in t.todo && CreateOutcome(a, c) == Done then Some(true)
                                             else LastDecisive(t.calls, c)))
    decreases |t.todo|
  {
    if t.todo != [] {
      var d := t.todo[0];
      assert t.todo == [d] + t.todo[1..];
      LastDecisiveOne(t.calls, Call(d, CreateOutcome(a, d)), c);
      var n := Step(t, a);
      if n.res.err.None? && !n.res.requeue {
        RunOutcome(n, a, c);
      } else {
        assert d in t.todo && !Passes(t.todo, a);
        assert Run(n, a) == n;
      }
    }
  }

  /** The status of `c` after both chains: what this pass decided, else what was there. */
  lemma StatusAfterChains(w: World, i: CreateInput, c: Component)
    ensures var p, v := Run(Start(POWER_CHAIN), i.answers), Run(Start(VPC_CHAIN), i.answers);
            ModernStatus(AfterChains(w, i).obj.conditions, c)
            == Override(LastDecisive(v.calls, c), Override(LastDecisive(p.calls, c), ModernStatus(w.obj.conditions, c)))
  {
    var p := Run(Start(POWER_CHAIN), i.answers);
    RunReports(w.obj, Start(POWER_CHAIN), i.answers, c);
    RunReports(Drain(w.obj, p.res), Start(VPC_CHAIN), i.answers, c);
    ObjectAfterChains(w, i);
  }

  predicate ChainsPass(i: CreateInput) {
    Passes(POWER_CHAIN, i.answers) && Passes(VPC_CHAIN, i.answers)
  }

  /** The status of a component of the chains when neither chain was stopped. */
  lemma StatusWhenPassing(w: World, i: CreateInput, c: Component)
    requires ChainsPass(i)
    ensures var chained := c in POWER_CHAIN || c in VPC_CHAIN;
            ModernStatus(AfterChains(w, i).obj.conditions, c)
            == if chained && CreateOutcome(i.answers, c) == Done then Some(true) else ModernStatus(w.obj.conditions, c)
  {
    StatusAfterChains(w, i, c);
    RunOutcome(Start(POWER_CHAIN), i.answers, c);
    RunOutcome(Start(VPC_CHAIN), i.answers, c);
  }

  /** The pass goes on to the transit gateway exactly when no answer stopped either chain. */
  lemma GatewayReached(w: World, i: CreateInput)
    ensures ChainsPass(i) ==> ComponentStage(w, i) == GatewayStage(AfterChains(w, i), i)
    ensures !ChainsPass(i) ==> ComponentStage(w, i).0 == AfterChains(w, i) && ComponentStage(w, i).1 != OK
  {
    BothFinish(w.spec, w.cloud, w.obj.recorded, i.schedule, i.answers, i.fx);
    RunOutcome(Start(POWER_CHAIN), i.answers, COS);
    RunOutcome(Start(VPC_CHAIN), i.answers, COS);
  }

  /** The chains touch conditions and the record of resources only. */
  lemma ChainsKeepRest(w: World, i: CreateInput)
    ensures var o := AfterChains(w, i).obj;
            && o == w.obj.(conditions := o.conditions, legacy := o.legacy, recorded := o.recorded)
            && AfterChains(w, i).spec == w.spec
  {
  }

  lemma CosOutcome(w: World, i: CreateInput)
    ensures var (after, r) := CosStage(w, i);
            && after.spec == w.spec
            && (r == OK <==>
                && (w.spec.HasCOS() ==> CreateOutcome(i.answers, COS) == Done)
                && IsTrue(w.obj, Network) && IsTrue(w.obj, LoadBalancers)
                && i.host.Host? && Has(i.host.name))
            && (r != OK ==> after.obj.provisioned == w.obj.provisioned && after.obj.endpoint == w.obj.endpoint)
            && (r == OK ==>
                && after.obj.provisioned
                && after.obj.endpoint == APIEndpoint(i.host.name.value, i.apiServerPort)
                && (w.spec.HasCOS() ==> IsTrue(after.obj, COS))
                && (forall c :: c in CHAINED && IsTrue(w.obj, c) ==> IsTrue(after.obj, c)))
  {
    assert CreateOutcome(i.answers, COS) != Pending;
  }

  lemma GatewayOutcome(w: World, i: CreateInput)
    ensures var (after, r) := GatewayStage(w, i);
            && after.spec == w.spec
            && (r == OK <==> FinalAnswers(w, i))
            && (r != OK ==> after.obj.provisioned == w.obj.provisioned && after.obj.endpoint == w.obj.endpoint)
            && (r == OK ==>
                && after.obj.provisioned
                && after.obj.endpoint == APIEndpoint(i.host.name.value, i.apiServerPort)
                && IsTrue(after.obj, TransitGateway)
                && (w.spec.HasCOS() ==> IsTrue(after.obj, COS))
                && (forall c :: c in CHAINED && IsTrue(w.obj, c) ==> IsTrue(after.obj, c)))
  {
    var marked := Mark(RecordCall(w, TransitGateway, i), TransitGateway, ReadyConditions());
    if CreateOutcome(i.answers, TransitGateway) == Done {
      assert GatewayStage(w, i) == CosStage(marked, i);
      assert forall c :: c != TransitGateway ==> (IsTrue(marked.obj, c) <==> IsTrue(w.obj, c));
      CosOutcome(marked, i);
    }
  }

  /** What is left to ask once both chains have passed. */
  predicate FinalAnswers(w: World, i: CreateInput) {
    && CreateOutcome(i.answers, TransitGateway) == Done
    && (w.spec.HasCOS() ==> CreateOutcome(i.answers, COS) == Done)
    && IsTrue(w.obj, Network) && IsTrue(w.obj, LoadBalancers)
    && i.host.Host? && Has(i.host.name)
  }

  lemma ReadySplits(w: World, o: Object, i: CreateInput)
    requires ChainsPass(i) ==> (IsTrue(o, Network) <==> CreateOutcome(i.answers, Network) == Done || IsTrue(w.obj, Network))
    requires ChainsPass(i) ==>
               (IsTrue(o, LoadBalancers) <==> CreateOutcome(i.answers, LoadBalancers) == Done || IsTrue(w.obj, LoadBalancers))
    ensures Ready(w, i) <==> i.perErr.None? && i.groupErr.None? && ChainsPass(i) && FinalAnswers(w.(obj := o), i)
  {
    if ChainsPass(i) {
      assert Workspace in POWER_CHAIN && VPC in VPC_CHAIN && Subnets in VPC_CHAIN && SecurityGroups in VPC_CHAIN;
      assert Network in POWER_CHAIN && LoadBalancers in VPC_CHAIN;
    }
  }

  lemma ReadyMeans(w: World, i: CreateInput)
    ensures Ready(w, i) <==> i.perErr.None? && i.groupErr.None? && ChainsPass(i) && FinalAnswers(AfterChains(w, i), i)
  {
    var after := AfterChains(w, i);
    if ChainsPass(i) {
      StatusWhenPassing(w, i, Network);
      StatusWhenPassing(w, i, LoadBalancers);
    }
    ReadySplits(w, after.obj, i);
    ChainsKeepRest(w, i);
  }

  lemma ChainsTrue(w: World, i: CreateInput)
    requires Ready(w, i) && ChainsPass(i)
    ensures forall c :: c in CHAINED - {TransitGateway} ==> IsTrue(AfterChains(w, i).obj, c)
  {
    forall c | c in CHAINED - {TransitGateway} ensures IsTrue(AfterChains(w, i).obj, c) {
      StatusWhenPassing(w, i, c);
      assert c in POWER_CHAIN || c in VPC_CHAIN;
    }
  }

  /** In LoadBalancer topology a create pass ends with no error and no requeue exactly when every
      answer it needs is there; exactly then it marks the cluster provisioned. All conditions are then
      true and the endpoint has a host; otherwise neither endpoint nor mark has changed. */
  lemma ProvisionsExactly(w: World, i: CreateInput)
    requires w.spec.topology == LoadBalancerTopology
    ensures var (after, r) := CreatePass(w, i);
            && (r == OK <==> Ready(w, i))
            && (!w.obj.provisioned ==> (after.obj.provisioned <==> r == OK))
            && (r != OK ==> after.obj.provisioned == w.obj.provisioned && after.obj.endpoint == w.obj.endpoint)
            && (r == OK ==>
                && after.obj.provisioned
                && (forall c :: c in CHAINED ==> IsTrue(after.obj, c))
                && (w.spec.HasCOS() ==> IsTrue(after.obj, COS))
                && after.obj.endpoint.host != "" && after.obj.endpoint == APIEndpoint(i.host.name.value, i.apiServerPort))
  {
    ReadyMeans(w, i);
    if i.perErr.None? && i.groupErr.None? {
      GatewayReached(w, i);
      ChainsKeepRest(w, i);
      if ChainsPass(i) {
        GatewayOutcome(AfterChains(w, i), i);
        if Ready(w, i) {
          ChainsTrue(w, i);
        }
      }
    }
  }

  /** Two results that differ at most in the order of errors. */
  predicate SameResult(r: Result, q: Result) {
    r.requeueAfter == q.requeueAfter && multiset(r.errors) == multiset(q.errors)
  }

  /** Two worlds that differ at most in the order of their calls. */
  ghost predicate SameWorld(w: World, v: World) {
    && w == v.(calls := w.calls)
    && multiset(w.calls) == multiset(v.calls)
    && forall c: Component :: LastDecisive(w.calls, c) == LastDecisive(v.calls, c)
  }

  /** The calls made after the chains. */
  function FinalCalls(s: Spec, i: CreateInput): seq<Call> {
    [Call(TransitGateway, CreateOutcome(i.answers, TransitGateway))]
    + (if CreateOutcome(i.answers, TransitGateway) == Done && s.HasCOS() then [Call(COS, CreateOutcome(i.answers, COS))] else [])
  }

  lemma FinalCallsMade(w: World, i: CreateInput)
    ensures GatewayStage(w, i).0.calls == w.calls + FinalCalls(w.spec, i)
  {
    assert w.calls + [Call(TransitGateway, CreateOutcome(i.answers, TransitGateway))] + [Call(COS, CreateOutcome(i.answers, COS))]
        == w.calls + ([Call(TransitGateway, CreateOutcome(i.answers, TransitGateway))] + [Call(COS, CreateOutcome(i.answers, COS))]);
  }

  /** Two inputs that differ at most in the order of things. */
  predicate SameInput(i: CreateInput, j: CreateInput) {
    j == i.(schedule := j.schedule, powerFirst := j.powerFirst)
  }

  /** Two outcomes of a stage that differ at most in the calls of the world. */
  predicate SameStage(a: (World, Result), b: (World, Result)) {
    a.1 == b.1 && a.0 == b.0.(calls := a.0.calls)
  }

  lemma CosIgnoresOrder(w: World, v: World, i: CreateInput, j: CreateInput)
    requires v == w.(calls := v.calls) && SameInput(i, j)
    ensures SameStage(CosStage(w, i), CosStage(v, j))
  {
  }

  /** The stages after the chains look neither at the schedule nor at the calls made before. */
  lemma GatewayIgnoresOrder(w: World, v: World, i: CreateInput, j: CreateInput)
    requires v == w.(calls := v.calls) && SameInput(i, j)
    ensures SameStage(GatewayStage(w, i), GatewayStage(v, j))
  {
    var w1, v1 := RecordCall(w, TransitGateway, i), RecordCall(v, TransitGateway, j);
    if CreateOutcome(i.answers, TransitGateway) == Done {
      CosIgnoresOrder(Mark(w1, TransitGateway, ReadyConditions()), Mark(v1, TransitGateway, ReadyConditions()), i, j);
    }
  }

  lemma SameAfterMore(w: World, v: World, more: seq<Call>, w': World, v': World)
    requires SameWorld(w, v)
    requires w' == v'.(calls := w'.calls) && w'.calls == w.calls + more && v'.calls == v.calls + more
    ensures SameWorld(w', v')
  {
    forall c: Component ensures LastDecisive(w'.calls, c) == LastDecisive(v'.calls, c) {
      LastDecisiveAppend(w.calls, more, c);
      LastDecisiveAppend(v.calls, more, c);
    }
  }

  lemma ChainsIgnoreOrder(w: World, i: CreateInput, schedule: seq<Turn>, powerFirst: bool)
    ensures SameWorld(AfterChains(w, i), AfterChains(w, i.(schedule := schedule, powerFirst := powerFirst)))
  {
    var j := i.(schedule := schedule, powerFirst := powerFirst);
    BothFinish(w.spec, w.cloud, w.obj.recorded, i.schedule, i.answers, i.fx);
    BothFinish(w.spec, w.cloud, w.obj.recorded, schedule, i.answers, i.fx);
    ObjectAfterChains(w, i);
    ObjectAfterChains(w, j);
    forall c: Component ensures LastDecisive(AfterChains(w, i).calls, c) == LastDecisive(AfterChains(w, j).calls, c) {
      LogOfBoth(w, i, c);
      LogOfBoth(w, j, c);
    }
  }

  lemma FinishIgnoresOrder(v: World, u: World, i: CreateInput, j: CreateInput)
    requires SameWorld(v, u) && SameInput(i, j)
    ensures SameWorld(GatewayStage(v, i).0, GatewayStage(u, j).0) && GatewayStage(v, i).1 == GatewayStage(u, j).1
  {
    GatewayIgnoresOrder(v, u, i, j);
    FinalCallsMade(v, i);
    FinalCallsMade(u, j);
    SameAfterMore(v, u, FinalCalls(v.spec, i), GatewayStage(v, i).0, GatewayStage(u, j).0);
  }

  lemma ComponentsIgnoreOrder(w: World, i: CreateInput, j: CreateInput)
    requires SameInput(i, j)
    ensures SameWorld(ComponentStage(w, i).0, ComponentStage(w, j).0)
    ensures SameResult(ComponentStage(w, i).1, ComponentStage(w, j).1)
  {
    ChainsIgnoreOrder(w, i, j.schedule, j.powerFirst);
    GatewayReached(w, i);
    GatewayReached(w, j);
    if ChainsPass(i) {
      FinishIgnoresOrder(AfterChains(w, i), AfterChains(w, j), i, j);
    } else {
      StoppedIgnoresOrder(w, i, j);
    }
  }

  lemma StoppedIgnoresOrder(w: World, i: CreateInput, j: CreateInput)
    requires SameInput(i, j) && !ChainsPass(i)
    ensures SameResult(ComponentStage(w, i).1, ComponentStage(w, j).1)
  {
    StoppedResult(w, i);
    StoppedResult(w, j);
    DrainedIgnoresOrder(w, i, j);
  }

  /** What the drain loop makes of a stopped chain. */
  lemma StoppedResult(w: World, i: CreateInput)
    requires !ChainsPass(i)
    ensures var d := Drained(w.obj, Both(w, i), i.powerFirst);
            ComponentStage(w, i).1 == if d.1 != [] then Result(0, d.1) else Requeue(30)
  {
    BothFinish(w.spec, w.cloud, w.obj.recorded, i.schedule, i.answers, i.fx);
    RunOutcome(Start(POWER_CHAIN), i.answers, COS);
    RunOutcome(Start(VPC_CHAIN), i.answers, COS);
  }

  lemma DrainedIgnoresOrder(w: World, i: CreateInput, j: CreateInput)
    requires SameInput(i, j)
    ensures var d, e := Drained(w.obj, Both(w, i), i.powerFirst), Drained(w.obj, Both(w, j), j.powerFirst);
            multiset(d.1) == multiset(e.1) && d.2 == e.2
  {
    BothFinish(w.spec, w.cloud, w.obj.recorded, i.schedule, i.answers, i.fx);
    BothFinish(w.spec, w.cloud, w.obj.recorded, j.schedule, i.answers, i.fx);
    var p, v := Run(Start(POWER_CHAIN), i.answers).res, Run(Start(VPC_CHAIN), i.answers).res;
    assert multiset(ErrorsOf(p) + ErrorsOf(v)) == multiset(ErrorsOf(v) + ErrorsOf(p));
  }

  /** For a whole pass: how the goroutines interleave and in which order their results arrive changes
      nothing but the order of calls and of errors. */
  lemma CreateOrderIrrelevant(w: World, i: CreateInput, schedule: seq<Turn>, powerFirst: bool)
    ensures var (a, r) := CreatePass(w, i);
            var (b, q) := CreatePass(w, i.(schedule := schedule, powerFirst := powerFirst));
            SameWorld(a, b) && SameResult(r, q)
  {
    var j := i.(schedule := schedule, powerFirst := powerFirst);
    if w.spec.topology == LoadBalancerTopology && i.perErr.None? && i.groupErr.None? {
      ComponentsIgnoreOrder(w, i, j);
      assert CreatePass(w, i) == ComponentStage(w, i) && CreatePass(w, j) == ComponentStage(w, j);
    } else {
      assert CreatePass(w, i) == CreatePass(w, j);
    }
  }

  // ---- Dependency order ----

  /** What must be in place before a component is reconciled. */
  function Needs(c: Component): set<Component> {
    match c
    case Workspace => {}
    case Network => {Workspace}
    case VPC => {}
    case Subnets => {VPC}
    case SecurityGroups => {VPC, Subnets}
    case LoadBalancers => {VPC, Subnets, SecurityGroups}
    case TransitGateway => {Workspace, VPC, Subnets, SecurityGroups}
    case COS => {TransitGateway}
  }

  ghost predicate InPlace(calls: seq<Call>, c: Component) {
    forall d :: d in Needs(c) ==> LastDecisive(calls, d) == Some(true)
  }

  /** At every call of the history, everything the component needs was last found done. */
  ghost predicate Ordered(calls: seq<Call>) {
    forall k :: 0 <= k < |calls| ==> InPlace(calls[..k], calls[k].component)
  }

  lemma OrderedOne(calls: seq<Call>, k: Call)
    requires Ordered(calls) && InPlace(calls, k.component)
    ensures Ordered(calls + [k])
  {
    var more := calls + [k];
    forall n | 0 <= n < |more| ensures InPlace(more[..n], more[n].component) {
      assert more[..n] == calls[..n];
      if n == |calls| {
        assert calls[..n] == calls;
      }
    }
  }

  /** Each link needs only earlier links of its own chain, and only the last link may stay pending. */
  ghost predicate WellFounded(chain: seq<Component>) {
    && (forall k :: 0 <= k < |chain| ==> forall d :: d in Needs(chain[k]) ==> d in chain[..k])
    && (forall k :: 0 <= k < |chain| - 1 ==> Blocks(chain[k]))
  }

  lemma ChainsWellFounded()
    ensures WellFounded(POWER_CHAIN) && WellFounded(VPC_CHAIN)
  {
    assert POWER_CHAIN[..1] == [Workspace];
    assert VPC_CHAIN[..1] == [VPC] && VPC_CHAIN[..2] == [VPC, Subnets] && VPC_CHAIN[..3] == [VPC, Subnets, SecurityGroups];
  }

  /** A goroutine that is still under way has passed all links before its next one. */
  ghost predicate Progress(calls: seq<Call>, todo: seq<Component>, chain: seq<Component>) {
    todo == [] ||
    (&& |todo| <= |chain| && todo == chain[|chain| - |todo|..]
     && forall j :: 0 <= j < |chain| - |todo| ==> LastDecisive(calls, chain[j]) == Some(true))
  }

  /** Its next call finds everything it needs in place. */
  lemma StepProgress(calls: seq<Call>, t: Thread, a: Answers, chain: seq<Component>)
    requires WellFounded(chain) && Ordered(calls) && t.todo != [] && Progress(calls, t.todo, chain)
    ensures var k := Call(t.todo[0], CreateOutcome(a, t.todo[0]));
            k.component in chain && Ordered(calls + [k]) && Progress(calls + [k], Step(t, a).todo, chain)
  {
    var n := |chain| - |t.todo|;
    var d := t.todo[0];
    var k := Call(d, CreateOutcome(a, d));
    assert d == chain[n];
    OrderedOne(calls, k);
    if Step(t, a).todo != [] {
      assert k.outcome == Done && t.todo[1..] == chain[n + 1..];
      forall j | 0 <= j < n + 1 ensures LastDecisive(calls + [k], chain[j]) == Some(true) {
        LastDecisiveOne(calls, k, chain[j]);
      }
    }
  }

  /** A call of the other goroutine changes nothing for this one. */
  lemma OtherProgress(calls: seq<Call>, k: Call, todo: seq<Component>, chain: seq<Component>)
    requires Progress(calls, todo, chain) && k.component !in chain
    ensures Progress(calls + [k], todo, chain)
  {
    if todo != [] {
      forall j | 0 <= j < |chain| - |todo| ensures LastDecisive(calls + [k], chain[j]) == Some(true) {
        LastDecisiveOne(calls, k, chain[j]);
      }
    }
  }

  /** The common log is in order, and both goroutines are where their chains say. */
  ghost predicate LogInOrder(before: seq<Call>, m: Machine, first: seq<Component>, second: seq<Component>) {
    Ordered(before + m.log) && Progress(before + m.log, m.power.todo, first) && Progress(before + m.log, m.vpc.todo, second)
  }

  lemma AdvanceInOrder(before: seq<Call>, s: Spec, m: Machine, turn: Turn, a: Answers, fx: Effects,
                       first: seq<Component>, second: seq<Component>)
    requires LogInOrder(before, m, first, second) && WellFounded(first) && WellFounded(second)
    requires forall c :: c in first ==> c !in second
    ensures LogInOrder(before, Advance(s, m, turn, a, fx), first, second)
  {
    var t := m.Next(turn);
    if t.todo != [] {
      var k := Call(t.todo[0], CreateOutcome(a, t.todo[0]));
      assert before + (m.log + [k]) == before + m.log + [k];
      if turn.PowerTurn? {
        StepProgress(before + m.log, t, a, first);
        OtherProgress(before + m.log, k, m.vpc.todo, second);
      } else {
        StepProgress(before + m.log, t, a, second);
        OtherProgress(before + m.log, k, m.power.todo, first);
      }
    }
  }

  lemma {:induction false} ScheduleInOrder(before: seq<Call>, s: Spec, start: Machine, schedule: seq<Turn>, a: Answers,
                                           fx: Effects, first: seq<Component>, second: seq<Component>)
    requires LogInOrder(before, start, first, second) && WellFounded(first) && WellFounded(second)
    requires forall c :: c in first ==> c !in second
    ensures LogInOrder(before, RunSchedule(s, start, schedule, a, fx), first, second)
    decreases |schedule|
  {
    if schedule != [] {
      var n := |schedule| - 1;
      ScheduleInOrder(before, s, start, schedule[..n], a, fx, first, second);
      AdvanceInOrder(before, s, RunSchedule(s, start, schedule[..n], a, fx), schedule[n], a, fx, first, second);
    }
  }

  /** Whatever the interleaving, every call in the log comes after the calls it depends on. */
  lemma ChainsInOrder(w: World, i: CreateInput)
    requires Ordered(w.calls)
    ensures Ordered(AfterChains(w, i).calls)
  {
    ChainsWellFounded();
    var start := StartBoth(w.cloud, w.obj.recorded);
    assert w.calls + start.log == w.calls;
    ScheduleInOrder(w.calls, w.spec, start, i.schedule + ALL_TURNS, i.answers, i.fx, POWER_CHAIN, VPC_CHAIN);
  }

  /** When two chains pass, what answered Done is on record in one of them and not denied in the other. */
  lemma DoneInChains(first: seq<Component>, second: seq<Component>, a: Answers, d: Component, earlier: Option<bool>)
    requires Passes(first, a) && Passes(second, a) && (d in first || d in second) && CreateOutcome(a, d) == Done
    ensures Override(LastDecisive(Run(Start(second), a).calls, d),
                     Override(LastDecisive(Run(Start(first), a).calls, d), earlier)) == Some(true)
  {
    RunOutcome(Start(first), a, d);
    RunOutcome(Start(second), a, d);
  }

  lemma ReportedDone(w: World, i: CreateInput, d: Component)
    requires ChainsPass(i) && (d in POWER_CHAIN || d in VPC_CHAIN) && CreateOutcome(i.answers, d) == Done
    ensures LastDecisive(AfterChains(w, i).calls, d) == Some(true)
  {
    DoneInChains(POWER_CHAIN, VPC_CHAIN, i.answers, d, LastDecisive(w.calls, d));
    LogOfBoth(w, i, d);
  }

  /** What the gateway needs is in one of the chains and cannot stay pending there. */
  lemma NeedsAreDone(i: CreateInput, d: Component)
    requires ChainsPass(i) && d in Needs(TransitGateway)
    ensures (d in POWER_CHAIN || d in VPC_CHAIN) && CreateOutcome(i.answers, d) == Done
  {
  }

  lemma GatewayInPlace(w: World, i: CreateInput)
    requires ChainsPass(i)
    ensures InPlace(AfterChains(w, i).calls, TransitGateway)
  {
    forall d | d in Needs(TransitGateway) ensures LastDecisive(AfterChains(w, i).calls, d) == Some(true) {
      NeedsAreDone(i, d);
      ReportedDone(w, i, d);
    }
  }

  lemma GatewayInOrder(w: World, i: CreateInput)
    requires Ordered(w.calls) && InPlace(w.calls, TransitGateway)
    ensures Ordered(GatewayStage(w, i).0.calls)
  {
    FinalCallsMade(w, i);
    FinalCallsInOrder(w.calls, w.spec, i);
  }

  lemma FinalCallsInOrder(calls: seq<Call>, s: Spec, i: CreateInput)
    requires Ordered(calls) && InPlace(calls, TransitGateway)
    ensures Ordered(calls + FinalCalls(s, i))
  {
    var k := Call(TransitGateway, CreateOutcome(i.answers, TransitGateway));
    OrderedOne(calls, k);
    if k.outcome == Done && s.HasCOS() {
      var l := Call(COS, CreateOutcome(i.answers, COS));
      LastDecisiveOne(calls, k, TransitGateway);
      OrderedOne(calls + [k], l);
      assert calls + FinalCalls(s, i) == calls + [k] + [l];
    } else {
      assert calls + FinalCalls(s, i) == calls + [k];
    }
  }

  /** No create pass reconciles a component before everything it depends on is in place. */
  lemma CreateKeepsOrder(w: World, i: CreateInput)
    requires Ordered(w.calls)
    ensures Ordered(CreatePass(w, i).0.calls)
  {
    if w.spec.topology == LoadBalancerTopology && i.perErr.None? && i.groupErr.None? {
      ChainsInOrder(w, i);
      GatewayReached(w, i);
      if ChainsPass(i) {
        GatewayInPlace(w, i);
        GatewayInOrder(AfterChains(w, i), i);
      }
    }
  }
}
