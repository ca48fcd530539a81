/** The PowerVS image reconciler: the object, the import jobs it starts, and one pass as functions. */
module ImageModel {
  import opened Common

  // Image and job states share one set of names; any other string may come from the cloud.
  const ACTIVE := "active"
  const QUEUED := "queued"
  const FAILED := "failed"
  const IMPORTING := "importing"
  const COMPLETED := "completed"

  const CLUSTER_LABEL := "cluster.x-k8s.io/cluster-name"

  datatype ReadyReason = Ready | NotReady | ReadyUnknown | ImportFailed | Deleting | Queued

  datatype ReadyStatus = IsTrue | IsFalse | IsUnknown

  datatype ReadyCondition = ReadyCondition(status: ReadyStatus, reason: ReadyReason, message: string)

  datatype Spec = Spec(name: string, clusterName: string, retain: bool)

  datatype Object = Object(finalizer: bool, deleting: bool, labels: Option<map<string, string>>, owned: bool,
                           jobID: string, imageID: string, imageState: string,
                           workspaceReady: Option<bool>, ready: Option<ReadyCondition>)

  /** Calls to the cloud that matter for safety. */
  datatype CloudCall = GetOrImport | CreateJob(id: string) | DeleteJob(id: string) | DeleteImage(id: string)

  /** The object, the import jobs the controller created with their states, and the calls made. */
  datatype World = World(spec: Spec, obj: Object, jobs: map<string, string>, log: seq<CloudCall>)

  datatype Error =
    | FetchError(message: string)
    | FinalizerError(message: string)
    | SetupError(message: string)
    | ScopeError(message: string)
    | GetJobError(message: string)
    | ImportFailedError(message: string)
    | ImportError(message: string)
    | GetImageError(message: string)
    | DeleteJobError(message: string)
    | DeleteImageError(message: string)

  datatype Result = Result(requeueAfter: nat, err: Option<Error>)

  const OK := Result(0, None)

  function Fail(e: Error): Result { Result(0, Some(e)) }

  // ---- What a pass learns from outside ----

  datatype Fetch = Found | NotFound | FetchFailed(message: string)

  datatype Gate = Proceed | SetupFailed(message: string) | ScopeFailed(workspaceInactive: bool, message: string)

  datatype JobAnswer = JobErr(message: string) | NoJobState | JobState(state: string, message: string)

  /** A listed image: its name, and an identifier that may be missing. */
  datatype ImageRef = ImageRef(name: string, imageID: Option<string>)

  datatype ListAnswer = ListErr(message: string) | Listed(images: seq<ImageRef>)

  /** The workspace's last import job, whoever started it. */
  datatype LastJob = LastJobErr(message: string) | NoLastJob | LastJobState(state: string)

  datatype CreateAnswer = CreateErr(message: string) | Created(id: string, initialState: string)

  datatype ImageAnswer = GetImageErr(message: string) | Got(imageID: Option<string>, state: string)

  datatype Input = Input(fetch: Fetch, finalizerErr: Option<string>, gate: Gate, job: JobAnswer, listing: ListAnswer,
                         lastJob: LastJob, create: CreateAnswer, image: ImageAnswer, deleteErr: Option<string>)

  // ---- GetOrImportImage ----

  /** The first listed image with the name. */
  function FindImage(images: seq<ImageRef>, name: string): Option<ImageRef> {
    if images == [] then None
    else if images[0].name == name then Some(images[0])
    else FindImage(images[1..], name)
  }

  datatype ImportAnswer = ImportErr(message: string) | ImageFound(ref: ImageRef) | InProgress | Submitted(id: string, initialState: string)

  function ImportAnswerOf(name: string, i: Input): ImportAnswer {
    match i.listing
    case ListErr(m) => ImportErr(m)
    case Listed(images) =>
      var found := FindImage(images, name);
      if found.Some? then ImageFound(found.value)
      else
        match i.lastJob
        case LastJobErr(m) => ImportErr(m)
        case LastJobState(s) =>
          if s != COMPLETED && s != FAILED then InProgress else AnswerOfCreate(i.create)
        case NoLastJob => AnswerOfCreate(i.create)
  }

  function AnswerOfCreate(c: CreateAnswer): ImportAnswer {
    match c
    case CreateErr(m) => ImportErr(m)
    case Created(id, s) => Submitted(id, s)
  }

  // ---- Reconcile ----

  function Labelled(s: Spec, o: Object): Object {
    var labels := if o.labels.Some? then o.labels.value else map[];
    o.(labels := Some(if CLUSTER_LABEL in labels then labels else labels[CLUSTER_LABEL := s.clusterName]))
  }

  function MarkReady(o: Object, status: ReadyStatus, reason: ReadyReason, message: string): Object {
    o.(ready := Some(ReadyCondition(status, reason, message)))
  }

  /** `reconcileImage`: look at the image itself, if there is one. */
  function ImageStage(o: Object, img: Option<ImageRef>, i: Input): (Object, Result) {
    if img.None? || img.value.imageID.None? then
      (o, if o.imageState == ACTIVE then OK else Result(60, None))
    else
      match i.image
      case GetImageErr(m) => (o, Fail(GetImageError(m)))
      case Got(id, state) =>
        var seen := o.(imageID := if id.Some? then id.value else o.imageID, imageState := state);
        if state == QUEUED then (MarkReady(seen, IsFalse, NotReady, "Image is queued"), Result(60, None))
        else if state == ACTIVE then (MarkReady(seen, IsTrue, Ready, ""), OK)
        else (MarkReady(seen, IsUnknown, ReadyUnknown, "Unknown state: " + state), Result(60, None))
  }

  function WithObject(w: World, p: (Object, Result)): (World, Result) { (w.(obj := p.0), p.1) }

  function ImportStage(w: World, i: Input): (World, Result) {
    var called := w.(log := w.log + [GetOrImport]);
    match ImportAnswerOf(w.spec.name, i)
    case ImportErr(m) => (called, Fail(ImportError(m)))
    case ImageFound(ref) => WithObject(called, ImageStage(w.obj, Some(ref), i))
    case InProgress => WithObject(called, ImageStage(w.obj, None, i))
    case Submitted(id, s) =>
      WithObject(called.(jobs := w.jobs[id := s], log := called.log + [CreateJob(id)]),
                 ImageStage(w.obj.(jobID := id), None, i))
  }

  function PollStage(w: World, i: Input): (World, Result) {
    if w.obj.jobID == "" then ImportStage(w, i)
    else
      match i.job
      case JobErr(m) => (w, Result(120, Some(GetJobError(m))))
      case NoJobState => (w, Result(60, None))
      case JobState(state, m) =>
        var o := w.obj.(imageState := state);
        if state == COMPLETED then ImportStage(w.(obj := MarkReady(o, IsTrue, Ready, "")), i)
        else if state == FAILED then
          (w.(obj := MarkReady(o, IsFalse, ImportFailed, m)), Result(120, Some(ImportFailedError(m))))
        else if state == QUEUED then (w.(obj := MarkReady(o, IsFalse, Queued, m)), Result(120, None))
        else (w.(obj := MarkReady(o.(imageState := IMPORTING), IsFalse, NotReady, m)), Result(120, None))
  }

  function CreatePass(w: World, i: Input): (World, Result) {
    var o := Labelled(w.spec, w.obj);
    if !o.owned then (w.(obj := o.(owned := true)), OK)
    else PollStage(w.(obj := o.(workspaceReady := Some(true))), i)
  }

  // ---- Delete ----

  /** The cloud call a delete pass makes, if any. */
  function DeleteCall(w: World): Option<CloudCall> {
    if w.obj.imageID == "" then (if w.obj.jobID == "" then None else Some(DeleteJob(w.obj.jobID)))
    else if w.spec.retain then None
    else Some(DeleteImage(w.obj.imageID))
  }

  function DeleteErrorOf(call: CloudCall, m: string): Error {
    if call.DeleteJob? then DeleteJobError(m) else DeleteImageError(m)
  }

  function FailureMessage(call: CloudCall, m: string): string {
    if call.DeleteJob? then "Failed to delete import job: " + m else "failed to delete IBMPowerVSImage: " + m
  }

  /** A job whose deletion is accepted is gone; a failed deletion changes nothing. */
  function DeletePass(w: World, i: Input): (World, Result) {
    var o := MarkReady(w.obj, IsFalse, Deleting, "");
    var call := DeleteCall(w);
    if call.None? then (w.(obj := o.(finalizer := false)), OK)
    else
      var called := w.(log := w.log + [call.value]);
      match i.deleteErr
      case Some(m) =>
        (called.(obj := MarkReady(o, IsFalse, Deleting, FailureMessage(call.value, m))), Fail(DeleteErrorOf(call.value, m)))
      case None =>
        (called.(obj := o.(finalizer := false), jobs := if call.value.DeleteJob? then w.jobs - {call.value.id} else w.jobs),
         OK)
  }

  // ---- A whole pass ----

  function ScopeFailure(o: Object, inactive: bool): Object {
    MarkReady(if inactive then o.(workspaceReady := Some(false)) else o, IsUnknown, ReadyUnknown,
              "Failed to create image scope")
  }

  function Pass(w: World, i: Input): (World, Result) {
    match i.fetch
    case NotFound => (w, OK)
    case FetchFailed(m) => (w, Fail(FetchError(m)))
    case Found =>
      if !w.obj.finalizer && !w.obj.deleting then
        if i.finalizerErr.Some? then (w, Fail(FinalizerError(i.finalizerErr.value)))
        else (w.(obj := w.obj.(finalizer := true)), OK)
      else
        match i.gate
        case SetupFailed(m) => (w, Fail(SetupError(m)))
        case ScopeFailed(inactive, m) => (w.(obj := ScopeFailure(w.obj, inactive)), Fail(ScopeError(m)))
        case Proceed => if w.obj.deleting then DeletePass(w, i) else CreatePass(w, i)
  }
}
