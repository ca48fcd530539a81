/** One pass of the cluster reconciler, first as functions on the world, then as the methods of an
    object that updates its own fields. */
module ClusterPass {
  import opened Common
  import opened ApiShared
  import opened ClusterModel
  import opened ClusterChains

  datatype HostAnswer = HostFailed(message: string) | Host(name: Option<string>)

  /** Everything a create pass learns from outside. `schedule` is how the two goroutines interleave,
      `powerFirst` the order in which their results are received. */
  datatype CreateInput = CreateInput(perErr: Option<string>, groupErr: Option<string>, answers: Answers, fx: Effects,
                                     schedule: seq<Turn>, powerFirst: bool, host: HostAnswer, apiServerPort: int)

  /** An IBMPowerVSImage labelled with the cluster's name. */
  datatype Image = Image(name: string, owned: bool, deleting: bool, deleteErr: Option<string>)

  datatype Listing = ListFailed(message: string) | Images(items: seq<Image>)

  datatype DeleteInput = DeleteInput(listing: Listing, answers: Answers, removed: set<Resource>)

  datatype Fetch = Found | NotFound | FetchFailed(message: string)

  /** Owner lookup, pause handling, scope creation and patch helper: go on, or end the pass. */
  datatype Gate = Proceed | Stop(result: Result)

  datatype PassInput = PassInput(fetch: Fetch, finalizerErr: Option<string>, gate: Gate, create: CreateInput,
                                 delete: DeleteInput)

  // ---- Create pass ----

  function RecordCall(w: World, c: Component, i: CreateInput): World {
    w.(obj := w.obj.(recorded := RecordedAfter(w.obj.recorded, {c}, i.answers, i.fx)),
       cloud := CloudAfter(w.spec, w.cloud, {c}, i.fx), calls := w.calls + [Call(c, CreateOutcome(i.answers, c))])
  }

  function Mark(w: World, c: Component, b: (Condition, LegacyCondition)): World {
    w.(obj := SetCondition(w.obj, c, b.0, b.1))
  }

  function EndpointStage(w: World, i: CreateInput): (World, Result) {
    if !IsTrue(w.obj, Network) || !IsTrue(w.obj, LoadBalancers) then (w, Requeue(30))
    else
      match i.host
      case HostFailed(m) => (w, Fail(HostNameError(m)))
      case Host(name) =>
        if !Has(name) then (w, Requeue(60))
        else (w.(obj := w.obj.(endpoint := APIEndpoint(name.value, i.apiServerPort), provisioned := true)), OK)
  }

  function CosStage(w: World, i: CreateInput): (World, Result) {
    if !w.spec.HasCOS() then EndpointStage(w, i)
    else
      var called := RecordCall(w, COS, i);
      match CreateOutcome(i.answers, COS)
      case Failed(m) => (Mark(called, COS, FailedConditions(COS, m)), Fail(ReconcileError(COS, m)))
      case _ => EndpointStage(Mark(called, COS, ReadyConditions()), i)
  }

  function GatewayStage(w: World, i: CreateInput): (World, Result) {
    var called := RecordCall(w, TransitGateway, i);
    match CreateOutcome(i.answers, TransitGateway)
    case Failed(m) =>
      (Mark(called, TransitGateway, FailedConditions(TransitGateway, m)), Fail(ReconcileError(TransitGateway, m)))
    case Pending => (called, Requeue(60))
    case Done => CosStage(Mark(called, TransitGateway, ReadyConditions()), i)
  }

  function Both(w: World, i: CreateInput): Machine {
    RunBoth(w.spec, w.cloud, w.obj.recorded, i.schedule, i.answers, i.fx)
  }

  /** Object, errors and requeue flag after the channel is drained. */
  function Drained(o: Object, m: Machine, powerFirst: bool): (Object, seq<Error>, bool) {
    if powerFirst then DrainBoth(o, m.power.res, m.vpc.res) else DrainBoth(o, m.vpc.res, m.power.res)
  }

  /** The world after both goroutines have finished and the channel is drained. */
  function AfterChains(w: World, i: CreateInput): World {
    var m := Both(w, i);
    World(w.spec, Drained(w.obj, m, i.powerFirst).0.(recorded := m.recorded), m.cloud, w.calls + m.log, w.deletions)
  }

  function ComponentStage(w: World, i: CreateInput): (World, Result) {
    var drained := Drained(w.obj, Both(w, i), i.powerFirst);
    var after := AfterChains(w, i);
    if drained.1 != [] then (after, Result(0, drained.1))
    else if drained.2 then (after, Requeue(30))
    else GatewayStage(after, i)
  }

  function CreatePass(w: World, i: CreateInput): (World, Result) {
    match w.spec.topology
    case VirtualIP => (w.(obj := w.obj.(provisioned := true)), OK)
    case LoadBalancerTopology =>
      if i.perErr.Some? then (w, Fail(PERError(i.perErr.value)))
      else if i.groupErr.Some? then (w, Fail(ResourceGroupError(i.groupErr.value)))
      else ComponentStage(w, i)
    case t => (w, Fail(UnknownTopology(t)))
  }

  // ---- Delete pass ----

  function IfOwned(x: Image): seq<Image> { if x.owned then [x] else [] }

  function Owned(images: seq<Image>): seq<Image> {
    if images == [] then []
    else IfOwned(images[0]) + Owned(images[1..])
  }

  function ErrorOfChild(x: Image): seq<Error> {
    if !x.deleting && x.deleteErr.Some? then [ChildError(x.name, x.deleteErr.value)] else []
  }

  /** Children already being deleted are skipped; the others are deleted, failures are collected. */
  function ChildErrors(children: seq<Image>): seq<Error> {
    if children == [] then []
    else ErrorOfChild(children[0]) + ChildErrors(children[1..])
  }

  /** OK means there is nothing left to wait for. */
  function ImageStage(l: Listing): Result {
    match l
    case ListFailed(m) => Fail(ListError(m))
    case Images(items) =>
      var errs := ChildErrors(Owned(items));
      if errs != [] then Result(0, errs) else if items != [] then Requeue(5) else OK
  }

  const VPC_SIDE := [TransitGateway, LoadBalancers, SecurityGroups, Subnets, VPC]

  function PowerVSSide(s: Spec): seq<Component> {
    if s.HasCOS() then [Network, Workspace, COS] else [Network, Workspace]
  }

  function DeleteOrder(s: Spec): seq<Component> { VPC_SIDE + PowerVSSide(s) }

  /** How long the pass waits when the deletion of a component is pending. */
  function DeleteDelay(c: Component): nat {
    if c == Subnets || c == VPC then 15 else 60
  }

  /** Only the modern condition is set to Deleting. */
  function AfterDelete(w: World, c: Component, i: DeleteInput): World {
    var o := DeleteOutcome(i.answers, c);
    var cloud := CloudAfterDelete(w.spec, w.obj.recorded, w.cloud, c, o, i.removed);
    w.(obj := w.obj.(conditions := w.obj.conditions[c := Condition(false, DeletingReason, "")],
                     recorded := RecordedAfterDelete(w.spec, w.obj.recorded, cloud, c, o)),
       cloud := cloud, deletions := w.deletions + [Call(c, o)])
  }

  function Release(w: World): World { w.(obj := w.obj.(finalizer := false)) }

  /** Failures are collected and the chain goes on; a pending deletion ends the pass and drops them. */
  function DeleteChain(w: World, todo: seq<Component>, errs: seq<Error>, i: DeleteInput): (World, Result)
    decreases |todo|
  {
    if todo == [] then (if errs != [] then (w, Result(0, errs)) else (Release(w), OK))
    else
      var c := todo[0];
      var next := AfterDelete(w, c, i);
      match DeleteOutcome(i.answers, c)
      case Failed(m) => DeleteChain(next, todo[1..], errs + [DeleteError(c, m)], i)
      case Pending => (next, Requeue(DeleteDelay(c)))
      case Done => DeleteChain(next, todo[1..], errs, i)
  }

  function DeletePass(w: World, i: DeleteInput): (World, Result) {
    if ImageStage(i.listing) != OK then (w, ImageStage(i.listing))
    else if w.spec.topology != LoadBalancerTopology then (Release(w), OK)
    else DeleteChain(w, DeleteOrder(w.spec), [], i)
  }

  // ---- A whole pass ----

  /** The finalizer is added in a pass of its own, before any scope call, and never to an object that
      is being deleted. */
  function Pass(w: World, i: PassInput): (World, Result) {
    match i.fetch
    case NotFound => (w, OK)
    case FetchFailed(m) => (w, Fail(FetchError(m)))
    case Found =>
      if !w.obj.finalizer && !w.obj.deleting then
        if i.finalizerErr.Some? then (w, Fail(FinalizerError(i.finalizerErr.value)))
        else (w.(obj := w.obj.(finalizer := true)), OK)
      else if i.gate.Stop? then (w, i.gate.result)
      else if w.obj.deleting then DeletePass(w, i.delete)
      else CreatePass(w, i.create)
  }

  // ---- The loops over descendants ----

  lemma {:induction false} OwnedAppend(s: seq<Image>, x: Image)
    ensures Owned(s + [x]) == Owned(s) + IfOwned(x)
  {
    if s == [] {
      assert s + [x] == [x] && Owned([x]) == IfOwned(x) + Owned([]);
    } else {
      assert (s + [x])[0] == s[0] && (s + [x])[1..] == s[1..] + [x];
      assert Owned(s + [x]) == IfOwned(s[0]) + Owned(s[1..] + [x]);
      OwnedAppend(s[1..], x);
      assert IfOwned(s[0]) + (Owned(s[1..]) + IfOwned(x)) == IfOwned(s[0]) + Owned(s[1..]) + IfOwned(x);
    }
  }

  lemma {:induction false} ChildErrorsAppend(s: seq<Image>, x: Image)
    ensures ChildErrors(s + [x]) == ChildErrors(s) + ErrorOfChild(x)
  {
    if s == [] {
      assert s + [x] == [x] && ChildErrors([x]) == ErrorOfChild(x) + ChildErrors([]);
    } else {
      assert (s + [x])[0] == s[0] && (s + [x])[1..] == s[1..] + [x];
      assert ChildErrors(s + [x]) == ErrorOfChild(s[0]) + ChildErrors(s[1..] + [x]);
      ChildErrorsAppend(s[1..], x);
      assert ErrorOfChild(s[0]) + (ChildErrors(s[1..]) + ErrorOfChild(x)) == ErrorOfChild(s[0]) + ChildErrors(s[1..]) + ErrorOfChild(x);
    }
  }

  method FilterOwnedDescendants(items: seq<Image>) returns (owned: seq<Image>)
    ensures owned == Owned(items)
  {
    owned := [];
    for i := 0 to |items|
      invariant owned == Owned(items[..i])
    {
      OwnedAppend(items[..i], items[i]);
      assert items[..i + 1] == items[..i] + [items[i]];
      if items[i].owned {
        owned := owned + [items[i]];
      }
    }
    assert items[..|items|] == items;
  }

  /** The loop that deletes the owned images that are not yet being deleted. */
  method DeleteChildren(children: seq<Image>) returns (errs: seq<Error>)
    ensures errs == ChildErrors(children)
  {
    errs := [];
    for i := 0 to |children|
      invariant errs == ChildErrors(children[..i])
    {
      var child := children[i];
      ChildErrorsAppend(children[..i], child);
      assert children[..i + 1] == children[..i] + [child];
      if child.deleting {
        continue;
      }
      if child.deleteErr.Some? {
        errs := errs + [ChildError(child.name, child.deleteErr.value)];
      }
    }
    assert children[..|children|] == children;
  }

  method DeleteImages(l: Listing) returns (r: Result)
    ensures r == ImageStage(l)
  {
    if l.ListFailed? {
      return Fail(ListError(l.message));
    }
    var children := FilterOwnedDescendants(l.items);
    if |children| > 0 {
      var errs := DeleteChildren(children);
      if |errs| > 0 {
        return Result(0, errs);
      }
    }
    if |l.items| > 0 {
      return Requeue(5);
    }
    r := OK;
  }

  // ---- The reconciler on an object in memory ----

  class Cluster {
    var spec: Spec
    var finalizer: bool
    var deleting: bool
    var conditions: map<Component, Condition>
    var legacy: map<Component, LegacyCondition>
    var provisioned: bool
    var endpoint: APIEndpoint
    ghost var recorded: set<Resource>
    ghost var cloud: set<Resource>
    ghost var calls: seq<Call>
    ghost var deletions: seq<Call>

    constructor (s: Spec)
      ensures View() == World(s, Object(false, false, map[], map[], false, APIEndpoint("", 0), {}), {}, [], [])
    {
      spec := s;
      finalizer, deleting, provisioned := false, false, false;
      conditions, legacy, endpoint := map[], map[], APIEndpoint("", 0);
      recorded, cloud, calls, deletions := {}, {}, [], [];
    }

    ghost function View(): World
      reads this
    {
      World(spec, Object(finalizer, deleting, conditions, legacy, provisioned, endpoint, recorded), cloud, calls, deletions)
    }

    method SetConditions(c: Component, b: (Condition, LegacyCondition))
      modifies this`conditions, this`legacy
      ensures View() == Mark(old(View()), c, b)
    {
      conditions := conditions[c := b.0];
      legacy := legacy[c := b.1];
    }

    /** Stands for the reconcile call of component `c`. */
    ghost method NoteCall(c: Component, i: CreateInput)
      modifies this`recorded, this`cloud, this`calls
      ensures View() == RecordCall(old(View()), c, i)
    {
      recorded := RecordedAfter(recorded, {c}, i.answers, i.fx);
      cloud := CloudAfter(spec, cloud, {c}, i.fx);
      calls := calls + [Call(c, CreateOutcome(i.answers, c))];
    }

    method ReceiveResult(r: ComponentResult)
      requires |r.conditions| == |r.legacy|
      modifies this`conditions, this`legacy
      ensures View() == old(View()).(obj := Drain(old(View()).obj, r))
    {
      var o := DrainLoop(Object(finalizer, deleting, conditions, legacy, provisioned, endpoint, {}), r);
      conditions, legacy := o.conditions, o.legacy;
    }

    /** Stands for the calls that the two goroutines make while they interleave. */
    ghost method NoteChains(i: CreateInput)
      modifies this`recorded, this`cloud, this`calls
      ensures var m := Both(old(View()), i);
              View() == old(View()).(obj := old(View()).obj.(recorded := m.recorded), cloud := m.cloud, calls := old(calls) + m.log)
    {
      var m := Both(View(), i);
      recorded, cloud, calls := m.recorded, m.cloud, calls + m.log;
    }

    /** The loop that drains the channel. */
    method DrainChannel(ch: seq<ComponentResult>) returns (errList: seq<Error>, needsRequeue: bool)
      requires |ch| == 2 && forall k :: 0 <= k < 2 ==> |ch[k].conditions| == |ch[k].legacy|
      modifies this`conditions, this`legacy
      ensures var d := DrainBoth(old(View()).obj, ch[0], ch[1]);
              View() == old(View()).(obj := d.0) && errList == d.1 && needsRequeue == d.2
    {
      errList, needsRequeue := [], false;
      for k := 0 to 2
        modifies this`conditions, this`legacy
        invariant errList == (if k == 0 then [] else if k == 1 then ErrorsOf(ch[0]) else ErrorsOf(ch[0]) + ErrorsOf(ch[1]))
        invariant needsRequeue == ((k > 0 && ch[0].requeue) || (k > 1 && ch[1].requeue))
        invariant View() == old(View()).(obj := if k == 0 then old(View()).obj
                                                else if k == 1 then Drain(old(View()).obj, ch[0])
                                                else Drain(Drain(old(View()).obj, ch[0]), ch[1]))
      {
        var res := ch[k];
        if res.err.Some? {
          errList := errList + [res.err.value];
        }
        if res.requeue {
          needsRequeue := true;
        }
        ReceiveResult(res);
      }
    }

    /** Both goroutines from start to end; `ch` are their results in the order of arrival. */
    method RunGoroutines(i: CreateInput) returns (ch: seq<ComponentResult>)
      modifies this`recorded, this`cloud, this`calls
      ensures var m := Both(old(View()), i);
              && View() == old(View()).(obj := old(View()).obj.(recorded := m.recorded), cloud := m.cloud, calls := old(calls) + m.log)
              && ch == (if i.powerFirst then [m.power.res, m.vpc.res] else [m.vpc.res, m.power.res])
      ensures |ch| == 2 && forall k :: 0 <= k < 2 ==> |ch[k].conditions| == |ch[k].legacy|
    {
      var p, _ := ReconcilePowerVSResources(i.answers);
      var v, _ := ReconcileVPCResources(i.answers);
      ResultsOfBoth(spec, cloud, recorded, i.schedule, i.answers, i.fx);
      NoteChains(i);
      ch := if i.powerFirst then [p, v] else [v, p];
    }

    /** The goroutines and the loop that drains their channel. */
    method ReconcileComponents(i: CreateInput) returns (errList: seq<Error>, needsRequeue: bool)
      modifies this`conditions, this`legacy, this`recorded, this`cloud, this`calls
      ensures View() == AfterChains(old(View()), i)
      ensures var d := Drained(old(View()).obj, Both(old(View()), i), i.powerFirst); errList == d.1 && needsRequeue == d.2
    {
      var ch := RunGoroutines(i);
      errList, needsRequeue := DrainChannel(ch);
    }

    method FinishReconcile(i: CreateInput) returns (r: Result)
      modifies this`conditions, this`legacy, this`recorded, this`cloud, this`calls, this`provisioned, this`endpoint
      ensures (View(), r) == GatewayStage(old(View()), i)
    {
      NoteCall(TransitGateway, i);
      var o := CreateOutcome(i.answers, TransitGateway);
      if o.Failed? {
        SetConditions(TransitGateway, FailedConditions(TransitGateway, o.message));
        return Fail(ReconcileError(TransitGateway, o.message));
      } else if o.Pending? {
        return Requeue(60);
      }
      SetConditions(TransitGateway, ReadyConditions());
      if spec.HasCOS() {
        NoteCall(COS, i);
        o := CreateOutcome(i.answers, COS);
        if o.Failed? {
          SetConditions(COS, FailedConditions(COS, o.message));
          return Fail(ReconcileError(COS, o.message));
        }
        SetConditions(COS, ReadyConditions());
      }
      r := SetEndpoint(i);
    }

    method SetEndpoint(i: CreateInput) returns (r: Result)
      modifies this`provisioned, this`endpoint
      ensures (View(), r) == EndpointStage(old(View()), i)
    {
      if !(Network in conditions && conditions[Network].status)
         || !(LoadBalancers in conditions && conditions[LoadBalancers].status) {
        return Requeue(30);
      }
      if i.host.HostFailed? {
        return Fail(HostNameError(i.host.message));
      }
      if i.host.name.None? || i.host.name.value == "" {
        return Requeue(60);
      }
      endpoint := APIEndpoint(i.host.name.value, i.apiServerPort);
      provisioned := true;
      r := OK;
    }

    method ReconcileNormal(i: CreateInput) returns (r: Result)
      modifies this
      ensures (View(), r) == CreatePass(old(View()), i)
    {
      if spec.topology == VirtualIP {
        provisioned := true;
        return OK;
      }
      if spec.topology != LoadBalancerTopology {
        return Fail(UnknownTopology(spec.topology));
      }
      if i.perErr.Some? {
        return Fail(PERError(i.perErr.value));
      }
      if i.groupErr.Some? {
        return Fail(ResourceGroupError(i.groupErr.value));
      }
      var errList, needsRequeue := ReconcileComponents(i);
      if |errList| > 0 {
        return Result(0, errList);
      }
      if needsRequeue {
        return Requeue(30);
      }
      r := FinishReconcile(i);
    }

    /** One link of the deletion chain: mark, call, collect an error or stop. `rest` is what the chain
        has left after it. */
    method DeleteComponent(c: Component, i: DeleteInput, errs: seq<Error>, ghost rest: seq<Component>)
      returns (stop: bool, errs': seq<Error>)
      modifies this`conditions, this`recorded, this`cloud, this`deletions
      ensures DeleteChain(old(View()), [c] + rest, errs, i)
              == if stop then (View(), Requeue(DeleteDelay(c))) else DeleteChain(View(), rest, errs', i)
      ensures stop <==> DeleteOutcome(i.answers, c) == Pending
    {
      assert ([c] + rest)[1..] == rest;
      conditions := conditions[c := Condition(false, DeletingReason, "")];
      cloud := CloudAfterDelete(spec, recorded, cloud, c, DeleteOutcome(i.answers, c), i.removed);
      recorded := RecordedAfterDelete(spec, recorded, cloud, c, DeleteOutcome(i.answers, c));
      deletions := deletions + [Call(c, DeleteOutcome(i.answers, c))];
      var o := DeleteOutcome(i.answers, c);
      stop, errs' := false, errs;
      if o.Failed? {
        errs' := errs + [DeleteError(c, o.message)];
      } else if o.Pending? {
        stop := true;
      }
    }

    /** Transit gateway, load balancers, security groups, subnets and VPC. */
    method DeleteVPCSide(i: DeleteInput, ghost rest: seq<Component>) returns (ended: Option<Result>, errs: seq<Error>)
      modifies this`conditions, this`recorded, this`cloud, this`deletions
      ensures DeleteChain(old(View()), VPC_SIDE + rest, [], i)
              == if ended.Some? then (View(), ended.value) else DeleteChain(View(), rest, errs, i)
    {
      ghost var r1 := [LoadBalancers, SecurityGroups, Subnets, VPC] + rest;
      ghost var r2 := [SecurityGroups, Subnets, VPC] + rest;
      ghost var r3 := [Subnets, VPC] + rest;
      ghost var r4 := [VPC] + rest;
      assert VPC_SIDE + rest == [TransitGateway] + r1;
      assert r1 == [LoadBalancers] + r2 && r2 == [SecurityGroups] + r3 && r3 == [Subnets] + r4;
      var stop;
      ended, errs := None, [];
      stop, errs := DeleteComponent(TransitGateway, i, errs, r1);
      if stop { return Some(Requeue(60)), errs; }
      stop, errs := DeleteComponent(LoadBalancers, i, errs, r2);
      if stop { return Some(Requeue(60)), errs; }
      stop, errs := DeleteComponent(SecurityGroups, i, errs, r3);
      stop, errs := DeleteComponent(Subnets, i, errs, r4);
      if stop { return Some(Requeue(15)), errs; }
      stop, errs := DeleteComponent(VPC, i, errs, rest);
      if stop { return Some(Requeue(15)), errs; }
    }

    /** DHCP server, workspace and, where configured, the COS instance. */
    method DeletePowerVSSide(i: DeleteInput, collected: seq<Error>) returns (r: Result)
      modifies this`conditions, this`recorded, this`cloud, this`deletions, this`finalizer
      ensures (View(), r) == DeleteChain(old(View()), PowerVSSide(spec), collected, i)
    {
      ghost var r2 := if spec.HasCOS() then [COS] else [];
      ghost var r1 := [Workspace] + r2;
      assert PowerVSSide(spec) == [Network] + r1;
      var stop, errs := false, collected;
      stop, errs := DeleteComponent(Network, i, errs, r1);
      stop, errs := DeleteComponent(Workspace, i, errs, r2);
      if stop { return Requeue(60); }
      if spec.HasCOS() {
        assert r2 == [COS] + [];
        stop, errs := DeleteComponent(COS, i, errs, []);
      }
      if |errs| > 0 {
        return Result(0, errs);
      }
      finalizer := false;
      r := OK;
    }

    method ReconcileDelete(i: DeleteInput) returns (r: Result)
      modifies this
      ensures (View(), r) == DeletePass(old(View()), i)
    {
      var images := DeleteImages(i.listing);
      if images != OK {
        return images;
      }
      if spec.topology != LoadBalancerTopology {
        finalizer := false;
        return OK;
      }
      var ended, allErrs := DeleteVPCSide(i, PowerVSSide(spec));
      if ended.Some? {
        return ended.value;
      }
      r := DeletePowerVSSide(i, allErrs);
    }

    method Reconcile(i: PassInput) returns (r: Result)
      modifies this
      ensures (View(), r) == Pass(old(View()), i)
    {
      if i.fetch.NotFound? {
        return OK;
      }
      if i.fetch.FetchFailed? {
        return Fail(FetchError(i.fetch.message));
      }
      if !deleting && !finalizer {
        if i.finalizerErr.Some? {
          return Fail(FinalizerError(i.finalizerErr.value));
        }
        finalizer := true;
        return OK;
      }
      if i.gate.Stop? {
        return i.gate.result;
      }
      if deleting {
        r := ReconcileDelete(i.delete);
      } else {
        r := ReconcileNormal(i.create);
      }
    }
  }
}
