/** What an image pass writes and answers for every reading of job and image, and what the ready condition
    of a reachable image says. */
module ImageConditions {
  import opened Common
  import opened ImageModel
  import opened ImageLaws

  // ---- Readings of the job ----

  function IsReady(): Option<ReadyCondition> { Some(ReadyCondition(IsTrue, Ready, "")) }

  function NotReadyBecause(reason: ReadyReason, message: string): Option<ReadyCondition> {
    Some(ReadyCondition(IsFalse, reason, message))
  }

  /** A pass over an owned image whose recorded job is not read as completed: the ready condition, the
      state and the answer for every reading. */
  lemma JobReadings(w: World, i: Input)
    requires w.obj.owned && !JobSettled(w, i)
    ensures var (after, r) := CreatePass(w, i);
            && after.obj.jobID == w.obj.jobID && after.obj.imageID == w.obj.imageID && after.log == w.log
            && (i.job.JobErr? ==>
                after.obj.ready == w.obj.ready && after.obj.imageState == w.obj.imageState
                && r == Result(120, Some(GetJobError(i.job.message))))
            && (i.job.NoJobState? ==>
                after.obj.ready == w.obj.ready && after.obj.imageState == w.obj.imageState && r == Result(60, None))
            && (i.job.JobState? && i.job.state == "failed" ==>
                after.obj.ready == NotReadyBecause(ImportFailed, i.job.message) && after.obj.imageState == "failed"
                && r == Result(120, Some(ImportFailedError(i.job.message))))
            && (i.job.JobState? && i.job.state == "queued" ==>
                after.obj.ready == NotReadyBecause(Queued, i.job.message) && after.obj.imageState == "queued" && r == Result(120, None))
            && (i.job.JobState? && i.job.state !in {"failed", "queued"} ==>
                after.obj.ready == NotReadyBecause(NotReady, i.job.message) && after.obj.imageState == "importing"
                && r == Result(120, None))
  {
  }

  // ---- Readings of the image ----

  /** The condition and the state with which a settled job leaves the pass. */
  function ReadyBefore(w: World): Option<ReadyCondition> { if w.obj.jobID == "" then w.obj.ready else IsReady() }

  function StateBefore(w: World): string { if w.obj.jobID == "" then w.obj.imageState else "completed" }

  lemma UnseenReadings(w: World, i: Input)
    requires w.obj.owned && JobSettled(w, i) && Seen(w, i).None?
    ensures var (after, r) := CreatePass(w, i);
            && after.obj.ready == ReadyBefore(w) && after.obj.imageState == StateBefore(w) && after.obj.imageID == w.obj.imageID
            && (ImportAnswerOf(w.spec.name, i).ImportErr? ==> r == Fail(ImportError(ImportAnswerOf(w.spec.name, i).message)))
            && (!ImportAnswerOf(w.spec.name, i).ImportErr? ==> r == if StateBefore(w) == "active" then OK else Result(60, None))
  {
  }

  lemma SeenReadings(w: World, i: Input)
    requires w.obj.owned && JobSettled(w, i) && Seen(w, i).Some?
    ensures var (after, r) := CreatePass(w, i);
            && (i.image.GetImageErr? ==>
                && after.obj.ready == ReadyBefore(w) && after.obj.imageState == StateBefore(w) && after.obj.imageID == w.obj.imageID
                && r == Fail(GetImageError(i.image.message)))
            && (i.image.Got? ==>
                && after.obj.imageState == i.image.state
                && after.obj.imageID == (if i.image.imageID.Some? then i.image.imageID.value else w.obj.imageID)
                && (i.image.state == "active" ==> after.obj.ready == IsReady() && r == OK)
                && (i.image.state == "queued" ==>
                    after.obj.ready == NotReadyBecause(NotReady, "Image is queued") && r == Result(60, None))
                && (i.image.state !in {"active", "queued"} ==>
                    && after.obj.ready == Some(ReadyCondition(IsUnknown, ReadyUnknown, "Unknown state: " + i.image.state))
                    && r == Result(60, None)))
  {
  }

  // ---- Labels, owner, workspace ----

  function LabelsOf(o: Object): map<string, string> { if o.labels.Some? then o.labels.value else map[] }

  /** Every create pass leaves the image owned and labelled with a cluster name; a label that is there is
      kept, and no other label changes. Only an owned image has its workspace marked ready. */
  lemma LabelsExactly(w: World, i: Input)
    ensures var after := CreatePass(w, i).0.obj;
            && after.owned && after.labels.Some? && CLUSTER_LABEL in after.labels.value
            && after.labels.value[CLUSTER_LABEL]
               == (if CLUSTER_LABEL in LabelsOf(w.obj) then LabelsOf(w.obj)[CLUSTER_LABEL] else w.spec.clusterName)
            && after.labels.value - {CLUSTER_LABEL} == LabelsOf(w.obj) - {CLUSTER_LABEL}
            && after.workspaceReady == (if w.obj.owned then Some(true) else w.obj.workspaceReady)
            && after.finalizer == w.obj.finalizer && after.deleting == w.obj.deleting
  {
    var v := w.(obj := Labelled(w.spec, w.obj).(workspaceReady := Some(true)));
    LabelsOfPoll(v, i);
    if w.obj.owned {
      assert CreatePass(w, i) == PollStage(v, i);
    }
  }

  /** Labels, owner, workspace, finalizer and deletion mark are the same. */
  predicate SameStanding(o: Object, p: Object) {
    && p.labels == o.labels && p.owned == o.owned && p.workspaceReady == o.workspaceReady
    && p.finalizer == o.finalizer && p.deleting == o.deleting
  }

  lemma LabelsOfImage(o: Object, img: Option<ImageRef>, i: Input)
    ensures SameStanding(o, ImageStage(o, img, i).0)
  {
  }

  lemma LabelsOfImport(w: World, i: Input)
    ensures SameStanding(w.obj, ImportStage(w, i).0.obj)
  {
    match ImportAnswerOf(w.spec.name, i)
    case ImportErr(m) =>
    case ImageFound(ref) => LabelsOfImage(w.obj, Some(ref), i);
    case InProgress => LabelsOfImage(w.obj, None, i);
    case Submitted(id, s) => LabelsOfImage(w.obj.(jobID := id), None, i);
  }

  lemma LabelsOfPoll(w: World, i: Input)
    ensures SameStanding(w.obj, PollStage(w, i).0.obj)
  {
    if w.obj.jobID == "" {
      LabelsOfImport(w, i);
    } else if JobSettled(w, i) {
      var v := w.(obj := MarkReady(w.obj.(imageState := COMPLETED), IsTrue, Ready, ""));
      LabelsOfImport(v, i);
      assert PollStage(w, i) == ImportStage(v, i);
    }
  }

  /** An adoption pass changes labels and owner only. */
  lemma AdoptionExactly(w: World, i: Input)
    requires !w.obj.owned
    ensures var (after, r) := CreatePass(w, i);
            && r == OK && after == w.(obj := w.obj.(labels := after.obj.labels, owned := true))
  {
  }

  // ---- Deletion and failed setup ----

  /** The condition and error of a delete pass: the failure names what could not be deleted. */
  lemma DeleteReadings(w: World, i: Input)
    ensures var (after, r) := DeletePass(w, i);
            && after.obj == w.obj.(ready := after.obj.ready, finalizer := after.obj.finalizer)
            && (r.err.None? ==> after.obj.ready == NotReadyBecause(Deleting, ""))
            && (r.err.Some? && w.obj.imageID == "" ==>
                && i.deleteErr.Some? && r == Fail(DeleteJobError(i.deleteErr.value))
                && after.obj.ready == NotReadyBecause(Deleting, "Failed to delete import job: " + i.deleteErr.value))
            && (r.err.Some? && w.obj.imageID != "" ==>
                && i.deleteErr.Some? && r == Fail(DeleteImageError(i.deleteErr.value))
                && after.obj.ready == NotReadyBecause(Deleting, "failed to delete IBMPowerVSImage: " + i.deleteErr.value))
  {
  }

  /** A pass that cannot set itself up. */
  lemma SetupReadings(w: World, i: Input)
    requires i.fetch == Found && (w.obj.finalizer || w.obj.deleting)
    ensures i.gate.SetupFailed? ==> Pass(w, i) == (w, Fail(SetupError(i.gate.message)))
    ensures i.gate.ScopeFailed? ==>
              var (after, r) := Pass(w, i);
              && r == Fail(ScopeError(i.gate.message))
              && after.obj.ready == Some(ReadyCondition(IsUnknown, ReadyUnknown, "Failed to create image scope"))
              && after.obj.workspaceReady == (if i.gate.workspaceInactive then Some(false) else w.obj.workspaceReady)
              && after == w.(obj := w.obj.(ready := after.obj.ready, workspaceReady := after.obj.workspaceReady))
  {
  }

  /** The ways in which a pass ends before any of this. */
  lemma ImageGates(w: World, i: Input)
    ensures i.fetch.NotFound? ==> Pass(w, i) == (w, OK)
    ensures i.fetch.FetchFailed? ==> Pass(w, i) == (w, Fail(FetchError(i.fetch.message)))
    ensures i.fetch == Found && !w.obj.finalizer && !w.obj.deleting ==>
              if i.finalizerErr.Some? then Pass(w, i) == (w, Fail(FinalizerError(i.finalizerErr.value)))
              else Pass(w, i) == (w.(obj := w.obj.(finalizer := true)), OK)
  {
  }

  // ---- The ready condition over runs ----

  /** What a pass learned about readiness: a job read as completed or an image read as active is good news,
      any other reading, a delete pass or a failed setup is bad news, and otherwise it learned nothing. */
  function Verdict(w: World, i: Input): Option<bool> {
    if i.fetch != Found || (!w.obj.finalizer && !w.obj.deleting) || i.gate.SetupFailed? then None
    else if i.gate.ScopeFailed? || w.obj.deleting then Some(false)
    else if !w.obj.owned then None
    else if JobSettled(w, i) then
      if Seen(w, i).Some? && i.image.Got? then Some(i.image.state == "active")
      else if w.obj.jobID != "" then Some(true)
      else None
    else if i.job.JobState? then Some(false)
    else None
  }

  predicate SaysReady(o: Object) { o.ready.Some? && o.ready.value.status == IsTrue }

  /** A pass writes the ready condition exactly when it learned something, and then says what it learned. */
  lemma VerdictIsWritten(w: World, i: Input)
    ensures var after := Pass(w, i).0.obj;
            match Verdict(w, i)
            case None => after.ready == w.obj.ready
            case Some(good) => after.ready.Some? && (SaysReady(after) <==> good)
  {
    if Creates(w, i) {
      if w.obj.owned {
        if !JobSettled(w, i) {
          JobReadings(w, i);
        } else if Seen(w, i).Some? {
          SeenReadings(w, i);
        } else {
          UnseenReadings(w, i);
        }
      } else {
        AdoptionExactly(w, i);
      }
      assert Pass(w, i) == CreatePass(w, i);
    } else if Deletes(w, i) {
      DeleteReadings(w, i);
    }
  }

  /** The last thing that a run learned about readiness. */
  function LastVerdict(w: World, events: seq<Event>): Option<bool>
    decreases |events|
  {
    if events == [] then None
    else
      var n := |events| - 1;
      if events[n].Reconcile? && Verdict(RunEvents(w, events[..n]), events[n].input).Some?
      then Verdict(RunEvents(w, events[..n]), events[n].input)
      else LastVerdict(w, events[..n])
  }

  /** In every reachable state the image has a ready condition exactly when a pass has learned something,
      and it is true exactly when the last thing learned was a completed job or an active image. */
  lemma {:induction false} ReadyExactly(s: Spec, events: seq<Event>)
    ensures var o := RunEvents(Fresh(s), events).obj;
            && (o.ready.Some? <==> LastVerdict(Fresh(s), events).Some?)
            && (SaysReady(o) <==> LastVerdict(Fresh(s), events) == Some(true))
    decreases |events|
  {
    if events != [] {
      var n := |events| - 1;
      ReadyExactly(s, events[..n]);
      if events[n].Reconcile? {
        VerdictIsWritten(RunEvents(Fresh(s), events[..n]), events[n].input);
      }
    }
  }
}
