/** The two concurrent dependency chains of a create pass. */
module ClusterChains {
  import opened Common
  import opened ClusterModel

  /** What one goroutine sends on the channel. */
  datatype ComponentResult = ComponentResult(requeue: bool, err: Option<Error>,
                                             conditions: seq<(Component, Condition)>,
                                             legacy: seq<(Component, LegacyCondition)>)

  /** A goroutine between two scope calls: what is left to reconcile, its result so far, its calls. */
  datatype Thread = Thread(todo: seq<Component>, res: ComponentResult, calls: seq<Call>)

  const POWER_CHAIN := [Workspace, Network]
  const VPC_CHAIN := [VPC, Subnets, SecurityGroups, LoadBalancers]

  const NO_RESULT := ComponentResult(false, None, [], [])

  function Start(chain: seq<Component>): Thread { Thread(chain, NO_RESULT, []) }

  function FailedReason(c: Component): Reason {
    if c == SecurityGroups then ReconciliationFailedReason else NotReadyReason
  }

  /** Both conditions for one observation; they always carry the same status. */
  function BuildConditions(status: bool, reason: Reason, legacyReason: LegacyReason, message: string)
    : (r: (Condition, LegacyCondition))
    ensures r.0.status == r.1.status == status && r.0.message == r.1.message
    ensures r.1.severityError <==> !status
  {
    (Condition(status, reason, message), LegacyCondition(status, legacyReason, !status, message))
  }

  function ReadyConditions(): (Condition, LegacyCondition) {
    BuildConditions(true, ReadyReason, NoLegacyReason, "")
  }

  function FailedConditions(c: Component, m: string): (Condition, LegacyCondition) {
    BuildConditions(false, FailedReason(c), LegacyReconciliationFailed, m)
  }

  function Append(r: ComponentResult, c: Component, b: (Condition, LegacyCondition)): ComponentResult {
    r.(conditions := r.conditions + [(c, b.0)], legacy := r.legacy + [(c, b.1)])
  }

  /** A pending network or load balancer does not stop its chain; both are the last link. */
  predicate Blocks(c: Component) { c != Network && c != LoadBalancers }

  /** One scope call of a goroutine. */
  function Step(t: Thread, a: Answers): Thread
    requires t.todo != []
  {
    var c := t.todo[0];
    var o := CreateOutcome(a, c);
    var calls := t.calls + [Call(c, o)];
    match o
    case Failed(m) => Thread([], Append(t.res, c, FailedConditions(c, m)).(err := Some(ReconcileError(c, m))), calls)
    case Pending => if Blocks(c) then Thread([], t.res.(requeue := true), calls) else Thread(t.todo[1..], t.res, calls)
    case Done => Thread(t.todo[1..], Append(t.res, c, ReadyConditions()), calls)
  }

  /** A goroutine run to its end. */
  function Run(t: Thread, a: Answers): Thread
    decreases |t.todo|
  {
    if t.todo == [] then t else Run(Step(t, a), a)
  }

  // ---- The goroutines in the source's form ----

  method ReconcilePowerVSResources(a: Answers) returns (res: ComponentResult, ghost calls: seq<Call>)
    ensures res == Run(Start(POWER_CHAIN), a).res && Run(Start(POWER_CHAIN), a).todo == []
    ensures calls == Run(Start(POWER_CHAIN), a).calls
  {
    res := NO_RESULT;
    ghost var t := Start(POWER_CHAIN);
    var o := CreateOutcome(a, Workspace);
    t := Step(t, a);
    match o {
      case Failed(m) =>
        res := Append(res, Workspace, FailedConditions(Workspace, m));
        res := res.(err := Some(ReconcileError(Workspace, m)));
        return res, t.calls;
      case Pending =>
        res := res.(requeue := true);
        return res, t.calls;
      case Done =>
    }
    res := Append(res, Workspace, ReadyConditions());
    o := CreateOutcome(a, Network);
    t := Step(t, a);
    calls := t.calls;
    match o {
      case Failed(m) =>
        res := Append(res, Network, FailedConditions(Network, m));
        res := res.(err := Some(ReconcileError(Network, m)));
      case Pending =>
      case Done =>
        res := Append(res, Network, ReadyConditions());
    }
  }

  lemma RunStep(t: Thread, a: Answers)
    requires t.todo != []
    ensures Run(t, a) == Run(Step(t, a), a)
  {}

  method ReconcileVPCResources(a: Answers) returns (res: ComponentResult, ghost calls: seq<Call>)
    ensures res == Run(Start(VPC_CHAIN), a).res && Run(Start(VPC_CHAIN), a).todo == []
    ensures calls == Run(Start(VPC_CHAIN), a).calls
  {
    res := NO_RESULT;
    ghost var t := Start(VPC_CHAIN);
    var o := CreateOutcome(a, VPC);
    RunStep(t, a);
    t := Step(t, a);
    match o {
      case Failed(m) =>
        res := Append(res, VPC, FailedConditions(VPC, m));
        return res.(err := Some(ReconcileError(VPC, m))), t.calls;
      case Pending =>
        return res.(requeue := true), t.calls;
      case Done =>
    }
    res := Append(res, VPC, ReadyConditions());
    assert t.todo == [Subnets, SecurityGroups, LoadBalancers] && t.res == res;
    o := CreateOutcome(a, Subnets);
    RunStep(t, a);
    t := Step(t, a);
    match o {
      case Failed(m) =>
        res := Append(res, Subnets, FailedConditions(Subnets, m));
        return res.(err := Some(ReconcileError(Subnets, m))), t.calls;
      case Pending =>
        return res.(requeue := true), t.calls;
      case Done =>
    }
    res := Append(res, Subnets, ReadyConditions());
    assert t.todo == [SecurityGroups, LoadBalancers] && t.res == res;
    o := CreateOutcome(a, SecurityGroups);
    RunStep(t, a);
    t := Step(t, a);
    if o.Failed? {
      res := Append(res, SecurityGroups, FailedConditions(SecurityGroups, o.message));
      return res.(err := Some(ReconcileError(SecurityGroups, o.message))), t.calls;
    }
    res := Append(res, SecurityGroups, ReadyConditions());
    assert t.todo == [LoadBalancers] && t.res == res;
    o := CreateOutcome(a, LoadBalancers);
    RunStep(t, a);
    t := Step(t, a);
    calls := t.calls;
    match o {
      case Failed(m) =>
        res := Append(res, LoadBalancers, FailedConditions(LoadBalancers, m));
        res := res.(err := Some(ReconcileError(LoadBalancers, m)));
      case Pending =>
      case Done =>
        res := Append(res, LoadBalancers, ReadyConditions());
    }
    assert t.todo == [] && t.res == res;
  }

  // ---- What a goroutine's result says ----

  function Called(calls: seq<Call>): set<Component> {
    set i | 0 <= i < |calls| :: calls[i].component
  }

  /** The parallel arrays agree position by position, and every condition belongs to a call made. */
  ghost predicate Paired(t: Thread) {
    && |t.res.conditions| == |t.res.legacy|
    && (forall i :: 0 <= i < |t.res.conditions| ==>
          && t.res.conditions[i].0 == t.res.legacy[i].0
          && t.res.conditions[i].1.status == t.res.legacy[i].1.status
          && t.res.conditions[i].0 in Called(t.calls))
  }

  lemma CalledAppend(calls: seq<Call>, more: seq<Call>)
    ensures Called(calls + more) == Called(calls) + Called(more)
  {
    forall c | c in Called(calls) ensures c in Called(calls + more) {
      var i :| 0 <= i < |calls| && calls[i].component == c;
      assert (calls + more)[i].component == c;
    }
    forall c | c in Called(more) ensures c in Called(calls + more) {
      var i :| 0 <= i < |more| && more[i].component == c;
      assert (calls + more)[|calls| + i].component == c;
    }
  }

  lemma CalledOne(c: Component, o: Outcome)
    ensures Called([Call(c, o)]) == {c}
  {
    assert [Call(c, o)][0].component == c;
  }

  lemma StepPaired(t: Thread, a: Answers)
    requires t.todo != [] && Paired(t)
    ensures Paired(Step(t, a))
  {
    CalledAppend(t.calls, [Call(t.todo[0], CreateOutcome(a, t.todo[0]))]);
    CalledOne(t.todo[0], CreateOutcome(a, t.todo[0]));
  }

  lemma {:induction false} RunPaired(t: Thread, a: Answers)
    requires Paired(t)
    ensures Paired(Run(t, a))
    decreases |t.todo|
  {
    if t.todo != [] {
      StepPaired(t, a);
      RunPaired(Step(t, a), a);
    }
  }

  /** A goroutine only ever touches the components of its own chain. */
  lemma {:induction false} RunStaysInChain(t: Thread, a: Answers, chain: set<Component>)
    requires Called(t.calls) <= chain
    requires forall c :: c in t.todo ==> c in chain
    ensures Called(Run(t, a).calls) <= chain
    decreases |t.todo|
  {
    if t.todo != [] {
      CalledAppend(t.calls, [Call(t.todo[0], CreateOutcome(a, t.todo[0]))]);
      CalledOne(t.todo[0], CreateOutcome(a, t.todo[0]));
      RunStaysInChain(Step(t, a), a, chain);
    }
  }

  const POWER_SET := {Workspace, Network}
  const VPC_SET := {VPC, Subnets, SecurityGroups, LoadBalancers}

  lemma ChainsDisjoint(a: Answers)
    ensures Called(Run(Start(POWER_CHAIN), a).calls) <= POWER_SET
    ensures Called(Run(Start(VPC_CHAIN), a).calls) <= VPC_SET
    ensures POWER_SET !! VPC_SET
  {
    RunStaysInChain(Start(POWER_CHAIN), a, POWER_SET);
    RunStaysInChain(Start(VPC_CHAIN), a, VPC_SET);
  }

  // ---- Draining the channel ----

  /** `Set` for each entry of a result, in order. */
  function Apply<T>(m: map<Component, T>, updates: seq<(Component, T)>): map<Component, T>
    decreases |updates|
  {
    if updates == [] then m
    else
      var u := updates[|updates| - 1];
      Apply(m, updates[..|updates| - 1])[u.0 := u.1]
  }

  function Drain(o: Object, r: ComponentResult): Object {
    o.(conditions := Apply(o.conditions, r.conditions), legacy := Apply(o.legacy, r.legacy))
  }

  /** The inner loop of the drain, with the access `legacy[i]` that needs equal lengths. */
  method DrainLoop(o: Object, r: ComponentResult) returns (out: Object)
    requires |r.conditions| == |r.legacy|
    ensures out == Drain(o, r)
  {
    out := o;
    for i := 0 to |r.conditions|
      invariant out == o.(conditions := Apply(o.conditions, r.conditions[..i]), legacy := Apply(o.legacy, r.legacy[..i]))
    {
      assert r.conditions[..i + 1][..i] == r.conditions[..i];
      assert r.legacy[..i + 1][..i] == r.legacy[..i];
      out := out.(conditions := out.conditions[r.conditions[i].0 := r.conditions[i].1]);
      out := out.(legacy := out.legacy[r.legacy[i].0 := r.legacy[i].1]);
    }
    assert r.conditions[..|r.conditions|] == r.conditions;
    assert r.legacy[..|r.conditions|] == r.legacy;
  }

  lemma {:induction false} ApplyUntouched<T>(m: map<Component, T>, u: seq<(Component, T)>, c: Component, v: T)
    requires forall i :: 0 <= i < |u| ==> u[i].0 != c
    ensures Apply(m[c := v], u) == Apply(m, u)[c := v]
    decreases |u|
  {
    if u != [] {
      ApplyUntouched(m, u[..|u| - 1], c, v);
    }
  }

  /** Updates of disjoint component sets commute. */
  lemma {:induction false} ApplyCommutes<T>(m: map<Component, T>, u: seq<(Component, T)>, v: seq<(Component, T)>)
    requires forall i, j :: 0 <= i < |u| && 0 <= j < |v| ==> u[i].0 != v[j].0
    ensures Apply(Apply(m, u), v) == Apply(Apply(m, v), u)
    decreases |u|
  {
    if u != [] {
      var n := |u| - 1;
      ApplyCommutes(m, u[..n], v);
      ApplyUntouched(Apply(m, u[..n]), v, u[n].0, u[n].1);
    }
  }

  function ErrorsOf(r: ComponentResult): seq<Error> {
    if r.err.Some? then [r.err.value] else []
  }

  /** Object, errors and requeue flag after draining two results in the given order. */
  function DrainBoth(o: Object, first: ComponentResult, second: ComponentResult): (Object, seq<Error>, bool) {
    (Drain(Drain(o, first), second), ErrorsOf(first) + ErrorsOf(second), first.requeue || second.requeue)
  }

  // ---- Interleavings ----

  datatype Turn = PowerTurn | VpcTurn

  /** Both goroutines and what they share: the cloud, the status, and the log of calls in the order in
      which they were made. */
  datatype Machine = Machine(power: Thread, vpc: Thread, cloud: set<Resource>, recorded: set<Resource>, log: seq<Call>)
  {
    function Next(turn: Turn): Thread { if turn.PowerTurn? then power else vpc }
  }

  function StartBoth(cloud: set<Resource>, recorded: set<Resource>): Machine {
    Machine(Start(POWER_CHAIN), Start(VPC_CHAIN), cloud, recorded, [])
  }

  /** The scheduler lets one goroutine make its next scope call. */
  function Advance(s: Spec, m: Machine, turn: Turn, a: Answers, fx: Effects): Machine {
    var t := m.Next(turn);
    if t.todo == [] then m
    else
      var c := t.todo[0];
      Machine(if turn.PowerTurn? then Step(t, a) else m.power, if turn.VpcTurn? then Step(t, a) else m.vpc,
              CloudAfter(s, m.cloud, {c}, fx), RecordedAfter(m.recorded, {c}, a, fx),
              m.log + [Call(c, CreateOutcome(a, c))])
  }

  function RunSchedule(s: Spec, m: Machine, schedule: seq<Turn>, a: Answers, fx: Effects): Machine
    decreases |schedule|
  {
    if schedule == [] then m
    else Advance(s, RunSchedule(s, m, schedule[..|schedule| - 1], a, fx), schedule[|schedule| - 1], a, fx)
  }

  /** Both goroutines have sent their result: `wg.Wait()` returns. */
  predicate Finished(m: Machine) { m.power.todo == [] && m.vpc.todo == [] }

  /** What holds after any prefix of any schedule: each goroutine is on its own way, and cloud and status
      are determined by the calls made so far, not by their order. */
  ghost predicate OnTrack(s: Spec, start: Machine, m: Machine, a: Answers, fx: Effects) {
    && Run(m.power, a) == Run(start.power, a)
    && Run(m.vpc, a) == Run(start.vpc, a)
    && m.cloud == CloudAfter(s, start.cloud, Called(m.power.calls) + Called(m.vpc.calls), fx)
    && m.recorded == RecordedAfter(start.recorded, Called(m.power.calls) + Called(m.vpc.calls), a, fx)
    && multiset(m.log) == multiset(m.power.calls) + multiset(m.vpc.calls)
  }

  /** Calls accumulate: one more call touches one more component. */
  lemma EffectsOfOneMore(s: Spec, cloud: set<Resource>, recorded: set<Resource>, called: set<Component>, c: Component,
                         a: Answers, fx: Effects)
    ensures CloudAfter(s, CloudAfter(s, cloud, called, fx), {c}, fx) == CloudAfter(s, cloud, called + {c}, fx)
    ensures RecordedAfter(RecordedAfter(recorded, called, a, fx), {c}, a, fx) == RecordedAfter(recorded, called + {c}, a, fx)
  {
  }

  lemma EffectsOfNone(s: Spec, cloud: set<Resource>, recorded: set<Resource>, a: Answers, fx: Effects)
    ensures CloudAfter(s, cloud, {}, fx) == cloud && RecordedAfter(recorded, {}, a, fx) == recorded
  {
  }

  /** One call of a goroutine: one more component called. */
  lemma StepCalls(t: Thread, a: Answers)
    requires t.todo != []
    ensures var k := Call(t.todo[0], CreateOutcome(a, t.todo[0]));
            Step(t, a).calls == t.calls + [k] && Called(Step(t, a).calls) == Called(t.calls) + {k.component}
  {
    CalledAppend(t.calls, [Call(t.todo[0], CreateOutcome(a, t.todo[0]))]);
    CalledOne(t.todo[0], CreateOutcome(a, t.todo[0]));
  }

  lemma AdvanceOnTrack(s: Spec, start: Machine, m: Machine, turn: Turn, a: Answers, fx: Effects)
    requires OnTrack(s, start, m, a, fx)
    ensures OnTrack(s, start, Advance(s, m, turn, a, fx), a, fx)
  {
    var t := m.Next(turn);
    if t.todo != [] {
      var c := t.todo[0];
      var called := Called(m.power.calls) + Called(m.vpc.calls);
      StepCalls(t, a);
      RunStep(t, a);
      EffectsOfOneMore(s, start.cloud, start.recorded, called, c, a, fx);
      var n := Advance(s, m, turn, a, fx);
      assert Called(n.power.calls) + Called(n.vpc.calls) == called + {c};
    }
  }

  lemma {:induction false} ScheduleOnTrack(s: Spec, start: Machine, schedule: seq<Turn>, a: Answers, fx: Effects)
    requires start.power.calls == [] && start.vpc.calls == [] && start.log == []
    ensures OnTrack(s, start, RunSchedule(s, start, schedule, a, fx), a, fx)
    decreases |schedule|
  {
    if schedule == [] {
      assert Called(start.power.calls) + Called(start.vpc.calls) == {};
      EffectsOfNone(s, start.cloud, start.recorded, a, fx);
    } else {
      var n := |schedule| - 1;
      ScheduleOnTrack(s, start, schedule[..n], a, fx);
      AdvanceOnTrack(s, start, RunSchedule(s, start, schedule[..n], a, fx), schedule[n], a, fx);
    }
  }

  /** Any schedule with enough turns of each goroutine lets both finish. */
  lemma {:induction false} EnoughTurnsFinish(s: Spec, start: Machine, schedule: seq<Turn>, a: Answers, fx: Effects)
    ensures var m := RunSchedule(s, start, schedule, a, fx);
            && |m.power.todo| <= (if multiset(schedule)[PowerTurn] <= |start.power.todo|
                                  then |start.power.todo| - multiset(schedule)[PowerTurn] else 0)
            && |m.vpc.todo| <= (if multiset(schedule)[VpcTurn] <= |start.vpc.todo|
                                then |start.vpc.todo| - multiset(schedule)[VpcTurn] else 0)
    decreases |schedule|
  {
    if schedule != [] {
      var n := |schedule| - 1;
      assert schedule == schedule[..n] + [schedule[n]];
      EnoughTurnsFinish(s, start, schedule[..n], a, fx);
    }
  }

  lemma DrainOrderIrrelevant(o: Object, a: Answers)
    ensures var p, v := Run(Start(POWER_CHAIN), a), Run(Start(VPC_CHAIN), a);
            && Paired(p) && Paired(v)
            && Drain(Drain(o, p.res), v.res) == Drain(Drain(o, v.res), p.res)
  {
    var p, v := Run(Start(POWER_CHAIN), a), Run(Start(VPC_CHAIN), a);
    RunPaired(Start(POWER_CHAIN), a);
    RunPaired(Start(VPC_CHAIN), a);
    ChainsDisjoint(a);
    ApplyCommutes(o.conditions, p.res.conditions, v.res.conditions);
    ApplyCommutes(o.legacy, p.res.legacy, v.res.legacy);
  }

  /** Whatever the scheduler does, and in whichever order the two results arrive on the channel, the
      pass sees the same conditions, the same errors up to order, the same requeue flag, the same cloud,
      the same status, and the same calls up to order. */
  lemma InterleavingIndependence(s: Spec, o: Object, cloud: set<Resource>, a: Answers, fx: Effects, schedule: seq<Turn>,
                                 powerFirst: bool)
    requires Finished(RunSchedule(s, StartBoth(cloud, o.recorded), schedule, a, fx))
    ensures var m := RunSchedule(s, StartBoth(cloud, o.recorded), schedule, a, fx);
            var drained := if powerFirst then DrainBoth(o, m.power.res, m.vpc.res) else DrainBoth(o, m.vpc.res, m.power.res);
            var p, v := Run(Start(POWER_CHAIN), a), Run(Start(VPC_CHAIN), a);
            var reference := DrainBoth(o, p.res, v.res);
            && drained.0 == reference.0
            && multiset(drained.1) == multiset(reference.1)
            && drained.2 == reference.2
            && m.cloud == CloudAfter(s, cloud, Called(p.calls) + Called(v.calls), fx)
            && m.recorded == RecordedAfter(o.recorded, Called(p.calls) + Called(v.calls), a, fx)
            && multiset(m.log) == multiset(p.calls) + multiset(v.calls)
  {
    ScheduleOnTrack(s, StartBoth(cloud, o.recorded), schedule, a, fx);
    DrainOrderIrrelevant(o, a);
  }

  // ---- Both goroutines from start to end ----

  /** Turns enough for both chains. */
  const ALL_TURNS := [PowerTurn, PowerTurn, VpcTurn, VpcTurn, VpcTurn, VpcTurn]

  /** The scheduler starts with the given turns and then lets both goroutines finish. */
  function RunBoth(s: Spec, cloud: set<Resource>, recorded: set<Resource>, schedule: seq<Turn>, a: Answers, fx: Effects): Machine {
    RunSchedule(s, StartBoth(cloud, recorded), schedule + ALL_TURNS, a, fx)
  }

  lemma FinishedThreads(start: Machine, m: Machine, s: Spec, a: Answers, fx: Effects)
    requires OnTrack(s, start, m, a, fx) && Finished(m)
    ensures m.power == Run(start.power, a) && m.vpc == Run(start.vpc, a)
  {
  }

  /** Both goroutines end as if each had run alone. */
  lemma BothFinish(s: Spec, cloud: set<Resource>, recorded: set<Resource>, schedule: seq<Turn>, a: Answers, fx: Effects)
    ensures var m := RunBoth(s, cloud, recorded, schedule, a, fx);
            && OnTrack(s, StartBoth(cloud, recorded), m, a, fx) && Finished(m)
            && m.power == Run(Start(POWER_CHAIN), a) && m.vpc == Run(Start(VPC_CHAIN), a)
  {
    var start := StartBoth(cloud, recorded);
    var full := schedule + ALL_TURNS;
    assert multiset(full) == multiset(schedule) + multiset(ALL_TURNS);
    EnoughTurnsFinish(s, start, full, a, fx);
    ScheduleOnTrack(s, start, full, a, fx);
    FinishedThreads(start, RunSchedule(s, start, full, a, fx), s, a, fx);
  }

  /** The results that both send, and that their parallel arrays have equal lengths. */
  lemma ResultsOfBoth(s: Spec, cloud: set<Resource>, recorded: set<Resource>, schedule: seq<Turn>, a: Answers, fx: Effects)
    ensures var m := RunBoth(s, cloud, recorded, schedule, a, fx);
            && m.power.res == Run(Start(POWER_CHAIN), a).res && |m.power.res.conditions| == |m.power.res.legacy|
            && m.vpc.res == Run(Start(VPC_CHAIN), a).res && |m.vpc.res.conditions| == |m.vpc.res.legacy|
  {
    BothFinish(s, cloud, recorded, schedule, a, fx);
    RunPaired(Start(POWER_CHAIN), a);
    RunPaired(Start(VPC_CHAIN), a);
  }
}
