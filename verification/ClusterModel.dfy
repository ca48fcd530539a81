/** The PowerVS cluster reconciler as a state machine: the object it reconciles, the cloud it acts
    on, and the answers it gets from the cloud scope. */
module ClusterModel {
  import opened Common
  import opened ApiShared

  /** One cloud component, its condition type and the legacy condition type paired with it. */
  datatype Component = Workspace | Network | VPC | Subnets | SecurityGroups | LoadBalancers | TransitGateway | COS

  /** What a scope method returns: the requeue flag (for load balancers, "not ready") and an error. */
  datatype Answer = Answer(requeue: bool, err: Option<string>)

  datatype Answers = Answers(workspace: Answer, network: Answer, vpc: Answer, subnets: Answer, securityGroups: Answer,
                             loadBalancers: Answer, transitGateway: Answer, cos: Answer)
  {
    function Of(c: Component): Answer {
      match c
      case Workspace => workspace
      case Network => network
      case VPC => vpc
      case Subnets => subnets
      case SecurityGroups => securityGroups
      case LoadBalancers => loadBalancers
      case TransitGateway => transitGateway
      case COS => cos
    }
  }

  datatype Outcome = Done | Pending | Failed(message: string)

  /** The error is looked at first; a method that only returns an error is never Pending. */
  function OutcomeOf(a: Answer, errorOnly: bool): Outcome {
    if a.err.Some? then Failed(a.err.value) else if a.requeue && !errorOnly then Pending else Done
  }

  function CreateOutcome(a: Answers, c: Component): Outcome {
    OutcomeOf(a.Of(c), c == SecurityGroups || c == COS)
  }

  /** Deleting the Network component is the call that deletes its DHCP server. */
  function DeleteOutcome(a: Answers, c: Component): Outcome {
    OutcomeOf(a.Of(c), c == SecurityGroups || c == COS || c == Network)
  }

  datatype Reason = ReadyReason | NotReadyReason | ReconciliationFailedReason | DeletingReason

  datatype Condition = Condition(status: bool, reason: Reason, message: string)

  datatype LegacyReason = NoLegacyReason | LegacyReconciliationFailed

  datatype LegacyCondition = LegacyCondition(status: bool, reason: LegacyReason, severityError: bool, message: string)

  datatype Error =
    | FetchError(message: string)
    | FinalizerError(message: string)
    | SetupError(message: string)
    | UnknownTopology(topology: Topology)
    | PERError(message: string)
    | ResourceGroupError(message: string)
    | ReconcileError(component: Component, message: string)
    | HostNameError(message: string)
    | ListError(message: string)
    | ChildError(name: string, message: string)
    | DeleteError(component: Component, message: string)

  /** `ctrl.Result` with its error: seconds until the next pass, and the aggregated errors. */
  datatype Result = Result(requeueAfter: nat, errors: seq<Error>)

  const OK := Result(0, [])

  function Fail(e: Error): Result { Result(0, [e]) }

  function Requeue(seconds: nat): Result { Result(seconds, []) }

  /** A resource in the cloud: the component that manages it and its name. A component that has one
      resource only leaves the name empty. */
  datatype Resource = Resource(kind: Component, name: string)

  const THE_WORKSPACE := Resource(Workspace, "")
  const DHCP_SERVER := Resource(Network, "")
  const THE_VPC := Resource(VPC, "")
  const GATEWAY := Resource(TransitGateway, "")
  const VPC_CONNECTION := Resource(TransitGateway, "vpc")
  const POWERVS_CONNECTION := Resource(TransitGateway, "powervs")
  const COS_INSTANCE := Resource(COS, "")

  /** A list of the spec: whether it has entries, and the names it provisions. An empty list of subnets
      or load balancers provisions defaults. */
  datatype Listed = Listed(isEmpty: bool, names: set<string>)

  /** The parts of the spec that decide what is created and deleted: the type of each section, NoType
      when the section is missing, and the lists. `publicBalancers` are the names among the load balancers
      whose entry is public or has no stated type. */
  datatype Spec = Spec(topology: Topology, workspace: SourceType, network: SourceType, vpc: SourceType,
                       transitGateway: SourceType, vpcConnection: SourceType, powerVSConnection: SourceType,
                       cos: SourceType, ignition: bool, subnets: Listed, securityGroups: Listed, loadBalancers: Listed,
                       publicBalancers: set<string>)
  {
    predicate HasCOS() { cos != NoType }
  }

  /** `recorded` are the resources whose identifier the status holds, provisioned or referenced. */
  datatype Object = Object(finalizer: bool, deleting: bool, conditions: map<Component, Condition>,
                           legacy: map<Component, LegacyCondition>, provisioned: bool, endpoint: APIEndpoint,
                           recorded: set<Resource>)

  /** A scope call and what came of it. */
  datatype Call = Call(component: Component, outcome: Outcome)

  /** The object, the resources the controller created and has not deleted, the reconcile calls made and
      the delete calls made. */
  datatype World = World(spec: Spec, obj: Object, cloud: set<Resource>, calls: seq<Call>, deletions: seq<Call>)

  function SetCondition(o: Object, c: Component, cond: Condition, legacy: LegacyCondition): Object {
    o.(conditions := o.conditions[c := cond], legacy := o.legacy[c := legacy])
  }

  predicate IsTrue(o: Object, c: Component) {
    c in o.conditions && o.conditions[c].status
  }

  // ---- Edits of the spec ----

  /** A type that is set on both sides may not change; a whole section may be removed or added. */
  predicate TypeKept(before: SourceType, after: SourceType) {
    before == NoType || after == NoType || before == after
  }

  /** What the API server demands of a spec by itself: a list of load balancers has a public entry, and
      ignition needs a COS section. */
  predicate Acceptable(s: Spec) {
    && (s.topology == LoadBalancerTopology ==> s.loadBalancers.isEmpty || s.publicBalancers * s.loadBalancers.names != {})
    && (s.ignition ==> s.HasCOS())
  }

  /** What it lets through as an edit: moreover the topology is immutable, and so are the types of the
      workspace, network, VPC and COS sections while they are present. Everything else may change. */
  predicate Admits(before: Spec, after: Spec) {
    && Acceptable(after)
    && before.topology == after.topology
    && TypeKept(before.workspace, after.workspace) && TypeKept(before.network, after.network)
    && TypeKept(before.vpc, after.vpc) && TypeKept(before.cos, after.cos)
  }

  // ---- Contracts of the reconcile methods ----

  /** The spec asks the controller to provision `r`. */
  predicate Asked(s: Spec, r: Resource) {
    match r.kind
    case Workspace => r == THE_WORKSPACE && s.workspace == Provision
    case Network => r == DHCP_SERVER && s.network == Provision
    case VPC => r == THE_VPC && s.vpc == Provision
    case Subnets => r.name in s.subnets.names
    case SecurityGroups => r.name in s.securityGroups.names
    case LoadBalancers => r.name in s.loadBalancers.names
    case TransitGateway =>
      || (r == GATEWAY && s.transitGateway == Provision)
      || (r == VPC_CONNECTION && s.vpcConnection == Provision)
      || (r == POWERVS_CONNECTION && s.powerVSConnection == Provision)
    case COS => r == COS_INSTANCE && s.cos == Provision
  }

  /** What the reconcile calls of a pass do outside their answers: the resources they create and the
      resources they record in the status. */
  datatype Effects = Effects(created: set<Resource>, recorded: set<Resource>)

  /** Whatever it answers, a reconcile call may have created resources of its own component that the
      spec asks for, and nothing else. */
  function CloudAfter(s: Spec, cloud: set<Resource>, called: set<Component>, fx: Effects): set<Resource> {
    cloud + (set r | r in fx.created && r.kind in called && Asked(s, r))
  }

  /** A call records resources of its own component and forgets none, except that a successful call for
      the security groups writes their list anew. */
  function RecordedAfter(recorded: set<Resource>, called: set<Component>, a: Answers, fx: Effects): set<Resource> {
    (set r | r in recorded && !(r.kind == SecurityGroups && SecurityGroups in called && CreateOutcome(a, SecurityGroups) == Done))
    + (set r | r in fx.recorded && r.kind in called)
  }

  // ---- Contracts of the delete methods ----

  /** What the delete call of component `c` removes: it acts on what the spec asks for at that time and
      the status has on record. Load balancers are found by name; a subnet list without entries stands
      for all recorded subnets; the gateway is kept only when it is a reference; the DHCP server of a
      provisioned workspace is left to the workspace, which takes it along. */
  predicate Removes(s: Spec, recorded: set<Resource>, c: Component, r: Resource) {
    match c
    case Workspace => (r.kind == Workspace || r.kind == Network) && s.workspace == Provision && THE_WORKSPACE in recorded
    case Network => r.kind == Network && s.network == Provision && s.workspace != Provision && r in recorded
    case VPC => r.kind == VPC && s.vpc == Provision && r in recorded
    case Subnets => r.kind == Subnets && (s.subnets.isEmpty || Asked(s, r)) && r in recorded
    case SecurityGroups => r.kind == SecurityGroups && Asked(s, r) && r in recorded
    case LoadBalancers => r.kind == LoadBalancers && Asked(s, r)
    case TransitGateway =>
      r.kind == TransitGateway && GATEWAY in recorded && (s.transitGateway != Reference || (r != GATEWAY && Asked(s, r) && r in recorded))
    case COS => r.kind == COS && s.cos == Provision && r in recorded
  }

  /** A delete call that answers Done has removed all that; otherwise some of it may be gone
      (`removed`). Nothing else is removed, and nothing is created. */
  function CloudAfterDelete(s: Spec, recorded: set<Resource>, cloud: set<Resource>, c: Component, o: Outcome,
                            removed: set<Resource>): set<Resource> {
    set r | r in cloud && !(Removes(s, recorded, c, r) && (o == Done || r in removed))
  }

  /** A delete call drops from the status a VPC or subnet that is gone, subnets it does not manage, and
      the gateway with its connections once it is done with them. */
  function RecordedAfterDelete(s: Spec, recorded: set<Resource>, cloud: set<Resource>, c: Component, o: Outcome): set<Resource> {
    set r | r in recorded
            && !(r.kind == c && c == VPC && s.vpc == Provision && r !in cloud)
            && !(r.kind == c && c == Subnets && (r !in cloud || !(s.subnets.isEmpty || Asked(s, r))))
            && !(r.kind == c && c == TransitGateway && o == Done)
  }
}
