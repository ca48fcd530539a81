/** The image reconciler in its own form: an object whose fields a pass updates one by one. */
module ImageReconciler {
  import opened Common
  import opened ImageModel

  lemma {:induction false} FindImageSkips(images: seq<ImageRef>, name: string, n: nat)
    requires n <= |images| && forall k :: 0 <= k < n ==> images[k].name != name
    ensures FindImage(images, name) == FindImage(images[n..], name)
  {
    if n > 0 {
      FindImageSkips(images[1..], name, n - 1);
      assert images[1..][n - 1..] == images[n..];
    }
  }

  /** The loop over the listed images. */
  method EnsureImageUnique(images: seq<ImageRef>, name: string) returns (found: Option<ImageRef>)
    ensures found == FindImage(images, name)
    ensures found.None? <==> forall k :: 0 <= k < |images| ==> images[k].name != name
    ensures found.Some? ==>
              exists k :: 0 <= k < |images| && images[k] == found.value && images[k].name == name
                          && forall j :: 0 <= j < k ==> images[j].name != name
  {
    for k := 0 to |images|
      invariant forall j :: 0 <= j < k ==> images[j].name != name
    {
      if images[k].name == name {
        FindImageSkips(images, name, k);
        return Some(images[k]);
      }
    }
    FindImageSkips(images, name, |images|);
    found := None;
  }

  method GetOrImportImage(name: string, i: Input) returns (a: ImportAnswer)
    ensures a == ImportAnswerOf(name, i)
  {
    if i.listing.ListErr? {
      return ImportErr(i.listing.message);
    }
    var found := EnsureImageUnique(i.listing.images, name);
    if found.Some? {
      return ImageFound(found.value);
    }
    if i.lastJob.LastJobErr? {
      return ImportErr(i.lastJob.message);
    }
    if i.lastJob.LastJobState? && i.lastJob.state != COMPLETED && i.lastJob.state != FAILED {
      return InProgress;
    }
    if i.create.CreateErr? {
      return ImportErr(i.create.message);
    }
    a := Submitted(i.create.id, i.create.initialState);
  }

  class PowerVSImage {
    var spec: Spec
    var finalizer: bool
    var deleting: bool
    var labels: Option<map<string, string>>
    var owned: bool
    var jobID: string
    var imageID: string
    var imageState: string
    var workspaceReady: Option<bool>
    var ready: Option<ReadyCondition>
    ghost var jobs: map<string, string>
    ghost var log: seq<CloudCall>

    constructor (s: Spec)
      ensures View() == World(s, Object(false, false, None, false, "", "", "", None, None), map[], [])
    {
      spec, finalizer, deleting, labels, owned := s, false, false, None, false;
      jobID, imageID, imageState, workspaceReady, ready := "", "", "", None, None;
      jobs, log := map[], [];
    }

    ghost function View(): World
      reads this
    {
      World(spec, Object(finalizer, deleting, labels, owned, jobID, imageID, imageState, workspaceReady, ready), jobs, log)
    }

    method MarkCondition(status: ReadyStatus, reason: ReadyReason, message: string)
      modifies this`ready
      ensures View().obj == MarkReady(old(View()).obj, status, reason, message)
    {
      ready := Some(ReadyCondition(status, reason, message));
    }

    method ReconcileImage(img: Option<ImageRef>, i: Input) returns (r: Result)
      modifies this`imageID, this`imageState, this`ready
      ensures (View().obj, r) == ImageStage(old(View()).obj, img, i)
    {
      if img.Some? && img.value.imageID.Some? {
        if i.image.GetImageErr? {
          return Fail(GetImageError(i.image.message));
        }
        if i.image.imageID.Some? {
          imageID := i.image.imageID.value;
        }
        imageState := i.image.state;
        if imageState == QUEUED {
          MarkCondition(IsFalse, NotReady, "Image is queued");
          return Result(60, None);
        } else if imageState == ACTIVE {
          MarkCondition(IsTrue, Ready, "");
        } else {
          MarkCondition(IsUnknown, ReadyUnknown, "Unknown state: " + imageState);
        }
      }
      if imageState != ACTIVE {
        return Result(60, None);
      }
      r := OK;
    }

    method TriggerImport(i: Input) returns (r: Result)
      modifies this
      ensures (View(), r) == ImportStage(old(View()), i)
    {
      log := log + [GetOrImport];
      var a := GetOrImportImage(spec.name, i);
      match a {
        case ImportErr(m) => return Fail(ImportError(m));
        case Submitted(id, s) =>
          log := log + [CreateJob(id)];
          jobs := jobs[id := s];
          jobID := id;
        case _ =>
      }
      r := ReconcileImage(if a.ImageFound? then Some(a.ref) else None, i);
    }

    method EnsureLabels()
      modifies this`labels
      ensures View() == old(View()).(obj := Labelled(spec, old(View()).obj))
    {
      if labels.None? {
        labels := Some(map[]);
      }
      if CLUSTER_LABEL !in labels.value {
        labels := Some(labels.value[CLUSTER_LABEL := spec.clusterName]);
      }
    }

    method PollJob(i: Input) returns (r: Result)
      modifies this
      ensures (View(), r) == PollStage(old(View()), i)
    {
      if jobID != "" {
        if i.job.JobErr? {
          return Result(120, Some(GetJobError(i.job.message)));
        }
        if i.job.NoJobState? {
          return Result(60, None);
        }
        imageState := i.job.state;
        if imageState == COMPLETED {
          MarkCondition(IsTrue, Ready, "");
        } else if imageState == FAILED {
          MarkCondition(IsFalse, ImportFailed, i.job.message);
          return Result(120, Some(ImportFailedError(i.job.message)));
        } else if imageState == QUEUED {
          MarkCondition(IsFalse, Queued, i.job.message);
          return Result(120, None);
        } else {
          imageState := IMPORTING;
          MarkCondition(IsFalse, NotReady, i.job.message);
          return Result(120, None);
        }
      }
      r := TriggerImport(i);
    }

    method ReconcileNormal(i: Input) returns (r: Result)
      modifies this
      ensures (View(), r) == CreatePass(old(View()), i)
    {
      EnsureLabels();
      if !owned {
        owned := true;
        return OK;
      }
      workspaceReady := Some(true);
      r := PollJob(i);
    }

    /** The body of the delete; the deferred function of its caller removes the finalizer. */
    method DeleteResources(i: Input) returns (r: Result)
      modifies this`ready, this`jobs, this`log
      ensures (if r.err.None? then View().(obj := View().obj.(finalizer := false)) else View(), r)
              == DeletePass(old(View()), i)
    {
      MarkCondition(IsFalse, Deleting, "");
      if imageID == "" {
        if jobID != "" {
          log := log + [DeleteJob(jobID)];
          if i.deleteErr.Some? {
            MarkCondition(IsFalse, Deleting, "Failed to delete import job: " + i.deleteErr.value);
            return Fail(DeleteJobError(i.deleteErr.value));
          }
          jobs := jobs - {jobID};
        }
        return OK;
      }
      if !spec.retain {
        log := log + [DeleteImage(imageID)];
        if i.deleteErr.Some? {
          MarkCondition(IsFalse, Deleting, "failed to delete IBMPowerVSImage: " + i.deleteErr.value);
          return Fail(DeleteImageError(i.deleteErr.value));
        }
      }
      r := OK;
    }

    method ReconcileDelete(i: Input) returns (r: Result)
      modifies this
      ensures (View(), r) == DeletePass(old(View()), i)
    {
      r := DeleteResources(i);
      if r.err.None? {
        finalizer := false;
      }
    }

    method Reconcile(i: Input) returns (r: Result)
      modifies this
      ensures (View(), r) == Pass(old(View()), i)
    {
      if i.fetch.NotFound? {
        return OK;
      }
      if i.fetch.FetchFailed? {
        return Fail(FetchError(i.fetch.message));
      }
      if !deleting && !finalizer {
        if i.finalizerErr.Some? {
          return Fail(FinalizerError(i.finalizerErr.value));
        }
        finalizer := true;
        return OK;
      }
      if i.gate.SetupFailed? {
        return Fail(SetupError(i.gate.message));
      }
      if i.gate.ScopeFailed? {
        if i.gate.workspaceInactive {
          workspaceReady := Some(false);
        }
        MarkCondition(IsUnknown, ReadyUnknown, "Failed to create image scope");
        return Fail(ScopeError(i.gate.message));
      }
      if deleting {
        r := ReconcileDelete(i);
      } else {
        r := ReconcileNormal(i);
      }
    }
  }
}
