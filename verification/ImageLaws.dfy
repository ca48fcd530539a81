/** Safety of the image reconciler, pass by pass and over whole runs. Every pass's status is assumed
    to be persisted. */
module ImageLaws {
  import opened Common
  import opened ImageModel

  // ---- One pass ----

  /** The recorded job, if any, is known to have completed. */
  predicate JobSettled(w: World, i: Input) {
    w.obj.jobID == "" || (i.job.JobState? && i.job.state == COMPLETED)
  }

  /** The calls a pass adds to the log. */
  function NewCalls(w: World, i: Input): seq<CloudCall> {
    var after := Pass(w, i).0.log;
    if |w.log| <= |after| then after[|w.log|..] else []
  }

  /** The pass gets as far as a reconcile of an object that is not being deleted. */
  predicate Creates(w: World, i: Input) {
    i.fetch == Found && i.gate == Proceed && w.obj.finalizer && !w.obj.deleting
  }

  predicate Deletes(w: World, i: Input) {
    i.fetch == Found && i.gate == Proceed && w.obj.deleting
  }

  /** What a create pass calls, exactly. `GetOrImportImage` is reached when the image is owned and no
      recorded job is unreadable, without state, queued, importing or failed; a job is created when
      moreover no image of that name is listed and the workspace's last job is not still going on. */
  function ExpectedCalls(w: World, i: Input): seq<CloudCall> {
    if !w.obj.owned || !JobSettled(w, i) then []
    else if i.listing.Listed? && (forall k :: 0 <= k < |i.listing.images| ==> i.listing.images[k].name != w.spec.name)
            && (i.lastJob.NoLastJob? || (i.lastJob.LastJobState? && i.lastJob.state in {COMPLETED, FAILED}))
            && i.create.Created?
    then [GetOrImport, CreateJob(i.create.id)]
    else [GetOrImport]
  }

  lemma {:induction false} FindImageExactly(images: seq<ImageRef>, name: string)
    ensures FindImage(images, name).None? <==> forall k :: 0 <= k < |images| ==> images[k].name != name
  {
    if images != [] {
      FindImageExactly(images[1..], name);
      if FindImage(images, name).None? {
        forall k | 0 <= k < |images| ensures images[k].name != name {
          if k > 0 { assert images[1..][k - 1] == images[k]; }
        }
      } else if images[0].name != name {
        var k :| 0 <= k < |images[1..]| && images[1..][k].name == name;
        assert images[k + 1].name == name;
      }
    }
  }

  /** The image that is found is the first with the name. */
  lemma {:induction false} FindsFirst(images: seq<ImageRef>, name: string, k: nat)
    requires k < |images| && images[k].name == name && forall j :: 0 <= j < k ==> images[j].name != name
    ensures FindImage(images, name) == Some(images[k])
  {
    if k > 0 {
      FindsFirst(images[1..], name, k - 1);
    }
  }

  predicate NotListed(images: seq<ImageRef>, name: string) {
    forall k :: 0 <= k < |images| ==> images[k].name != name
  }

  /** What the import step answers: the first listed image with the name; otherwise it depends on the last
      job whether a new one is requested, and on the cloud what comes of it. */
  lemma ImportAnswerExactly(name: string, i: Input)
    ensures var a := ImportAnswerOf(name, i);
            && (i.listing.ListErr? ==> a == ImportErr(i.listing.message))
            && (i.listing.Listed? && !NotListed(i.listing.images, name) ==>
                a.ImageFound? && Some(a.ref) == FindImage(i.listing.images, name))
            && (i.listing.Listed? && NotListed(i.listing.images, name) ==>
                && (i.lastJob.LastJobErr? ==> a == ImportErr(i.lastJob.message))
                && (i.lastJob.LastJobState? && i.lastJob.state !in {"completed", "failed"} ==> a == InProgress)
                && (i.lastJob.NoLastJob? || (i.lastJob.LastJobState? && i.lastJob.state in {"completed", "failed"}) ==>
                    && (i.create.CreateErr? ==> a == ImportErr(i.create.message))
                    && (i.create.Created? ==> a == Submitted(i.create.id, i.create.initialState))))
  {
    if i.listing.Listed? {
      FindImageExactly(i.listing.images, name);
    }
  }

  lemma ImportCalls(w: World, i: Input)
    requires w.obj.owned && JobSettled(w, i)
    ensures ImportStage(w, i).0.log == w.log + ExpectedCalls(w, i)
  {
    if i.listing.Listed? {
      FindImageExactly(i.listing.images, w.spec.name);
    }
  }

  /** The calls of a pass, exactly. */
  lemma CallsExactly(w: World, i: Input)
    ensures Pass(w, i).0.log
            == w.log + (if Creates(w, i) then ExpectedCalls(w, i)
                        else if Deletes(w, i) && DeleteCall(w).Some? then [DeleteCall(w).value]
                        else [])
    ensures Pass(w, i).0.log == w.log + NewCalls(w, i)
  {
    if Creates(w, i) {
      var o := Labelled(w.spec, w.obj).(workspaceReady := Some(true));
      var v := w.(obj := o);
      assert ExpectedCalls(v, i) == ExpectedCalls(w, i);
      if w.obj.owned && JobSettled(w, i) {
        ImportCalls(v, i);
        var c := w.(obj := MarkReady(o.(imageState := COMPLETED), IsTrue, Ready, ""));
        assert ExpectedCalls(c, i) == ExpectedCalls(w, i);
        ImportCalls(c, i);
      }
    }
  }

  /** The image an import pass looks at, if any. */
  function Seen(w: World, i: Input): Option<ImageRef> {
    var a := ImportAnswerOf(w.spec.name, i);
    if a.ImageFound? && a.ref.imageID.Some? then Some(a.ref) else None
  }

  /** Exactly when a pass over an owned image ends with no error and no requeue: the job does not hold
      it back, and the image was read as active; or no image was looked at, there is no recorded job
      and an earlier pass left the state active. */
  lemma CleanEndExactly(w: World, i: Input)
    requires w.obj.owned
    ensures CreatePass(w, i).1 == OK <==>
            && JobSettled(w, i)
            && !ImportAnswerOf(w.spec.name, i).ImportErr?
            && (if Seen(w, i).Some? then i.image.Got? && i.image.state == ACTIVE
                else w.obj.jobID == "" && w.obj.imageState == ACTIVE)
  {
  }

  /** A create pass ends with no error and no requeue only when it adopts the image or leaves it in
      the active state. */
  lemma CleanEndMeansActive(w: World, i: Input)
    ensures CreatePass(w, i).1 == OK ==> !w.obj.owned || CreatePass(w, i).0.obj.imageState == ACTIVE
    ensures !w.obj.owned ==> CreatePass(w, i).1 == OK && CreatePass(w, i).0.obj.owned
  {
    if w.obj.owned {
      CleanEndExactly(w, i);
    }
  }

  /** A pass that submits a job on top of an active state ends clean and keeps that state. */
  lemma SubmitOnActive(w: World, i: Input)
    requires w.obj.owned && w.obj.jobID == "" && w.obj.imageState == ACTIVE
    requires ImportAnswerOf(w.spec.name, i).Submitted?
    ensures CreatePass(w, i).1 == OK && CreatePass(w, i).0.obj.jobID == i.create.id
    ensures CreatePass(w, i).0.obj.imageState == ACTIVE
  {
  }

  // ---- Deletion ----

  /** A delete pass removes the finalizer exactly when it ends without error, and then the recorded
      image was deleted, or the policy is retain, or there was no recorded image and the recorded job,
      if any, was deleted. */
  lemma DeleteExactly(w: World, i: Input)
    requires w.obj.finalizer
    ensures var (after, r) := DeletePass(w, i);
            && (!after.obj.finalizer <==> r.err.None?)
            && (r.err.None? <==> i.deleteErr.None? || DeleteCall(w).None?)
            && (r.err.None? ==> r == OK)
            && (r.err.None? ==>
                if w.obj.imageID != "" then w.spec.retain || after.log == w.log + [DeleteImage(w.obj.imageID)]
                else w.obj.jobID == "" || (after.log == w.log + [DeleteJob(w.obj.jobID)] && w.obj.jobID !in after.jobs))
            && (r.err.Some? ==> after.jobs == w.jobs)
  {
  }

  // ---- Runs ----

  datatype Event = Reconcile(input: Input) | RequestDeletion | SetRetain(retain: bool) | JobMoves(id: string, state: string)

  predicate Ended(state: string) { state == COMPLETED || state == FAILED }

  /** A job that has ended stays as it is. */
  function Next(w: World, e: Event): World {
    match e
    case Reconcile(i) => Pass(w, i).0
    case RequestDeletion => w.(obj := w.obj.(deleting := true))
    case SetRetain(b) => w.(spec := w.spec.(retain := b))
    case JobMoves(id, s) => if id in w.jobs && !Ended(w.jobs[id]) then w.(jobs := w.jobs[id := s]) else w
  }

  /** The cloud tells the state of the recorded job as it is, and gives every new job a new identifier. */
  predicate Truthful(w: World, e: Event) {
    e.Reconcile? ==>
      && (e.input.job.JobState? && w.obj.jobID in w.jobs ==> w.jobs[w.obj.jobID] == e.input.job.state)
      && (e.input.create.Created? ==> e.input.create.id != "" && e.input.create.id !in w.jobs)
  }

  function RunEvents(w: World, events: seq<Event>): World
    decreases |events|
  {
    if events == [] then w else Next(RunEvents(w, events[..|events| - 1]), events[|events| - 1])
  }

  ghost predicate TruthfulRun(w: World, events: seq<Event>) {
    forall k :: 0 <= k < |events| ==> Truthful(RunEvents(w, events[..k]), events[k])
  }

  lemma TruthfulPrefix(w: World, events: seq<Event>)
    requires events != [] && TruthfulRun(w, events)
    ensures TruthfulRun(w, events[..|events| - 1])
    ensures Truthful(RunEvents(w, events[..|events| - 1]), events[|events| - 1])
  {
    var before := events[..|events| - 1];
    forall k | 0 <= k < |before| ensures Truthful(RunEvents(w, before[..k]), before[k]) {
      assert before[..k] == events[..k];
      assert Truthful(RunEvents(w, events[..k]), events[k]);
    }
  }

  function Fresh(s: Spec): World {
    World(s, Object(false, false, None, false, "", "", "", None, None), map[], [])
  }

  /** Every job but the recorded one has completed. */
  ghost predicate OthersCompleted(w: World) {
    "" !in w.jobs && forall id :: id in w.jobs ==> id == w.obj.jobID || w.jobs[id] == COMPLETED
  }

  ghost predicate AllCompleted(w: World) {
    forall id :: id in w.jobs ==> w.jobs[id] == COMPLETED
  }

  /** The pass submits an import job. */
  predicate Submits(w: World, i: Input) {
    Creates(w, i) && i.create.Created? && CreateJob(i.create.id) in ExpectedCalls(w, i)
  }

  /** A stage keeps the spec, and records and adds the new job exactly when it submits one. */
  ghost predicate JobStep(w: World, after: World, submits: bool, i: Input) {
    && after.spec == w.spec
    && after.obj.deleting == w.obj.deleting
    && (if submits
        then i.create.Created? && after.obj.jobID == i.create.id && after.jobs == w.jobs[i.create.id := i.create.initialState]
        else after.obj.jobID == w.obj.jobID && after.jobs == w.jobs)
  }

  lemma ImportAndJobs(w: World, i: Input)
    ensures JobStep(w, ImportStage(w, i).0, ImportAnswerOf(w.spec.name, i).Submitted?, i)
  {
  }

  lemma PollAndJobs(w: World, i: Input)
    ensures JobStep(w, PollStage(w, i).0, JobSettled(w, i) && ImportAnswerOf(w.spec.name, i).Submitted?, i)
  {
    if w.obj.jobID == "" {
      ImportAndJobs(w, i);
    } else if JobSettled(w, i) {
      var v := w.(obj := MarkReady(w.obj.(imageState := COMPLETED), IsTrue, Ready, ""));
      ImportAndJobs(v, i);
      assert PollStage(w, i) == ImportStage(v, i);
    }
  }

  lemma SubmittedExactly(w: World, i: Input)
    ensures Submits(w, i) <==> Creates(w, i) && w.obj.owned && JobSettled(w, i) && ImportAnswerOf(w.spec.name, i).Submitted?
  {
    if i.listing.Listed? {
      FindImageExactly(i.listing.images, w.spec.name);
    }
  }

  lemma CreateAndJobs(w: World, i: Input)
    ensures JobStep(w, CreatePass(w, i).0, w.obj.owned && JobSettled(w, i) && ImportAnswerOf(w.spec.name, i).Submitted?, i)
  {
    var v := w.(obj := Labelled(w.spec, w.obj).(workspaceReady := Some(true)));
    if w.obj.owned {
      PollAndJobs(v, i);
      assert CreatePass(w, i) == PollStage(v, i);
    }
  }

  lemma DeleteAndJobs(w: World, i: Input)
    ensures var after := DeletePass(w, i).0;
            && after.spec == w.spec && after.obj.deleting == w.obj.deleting && after.obj.jobID == w.obj.jobID
            && after.jobs == (if DeleteCall(w) == Some(DeleteJob(w.obj.jobID)) && i.deleteErr.None?
                              then w.jobs - {w.obj.jobID} else w.jobs)
  {
  }

  /** What a pass does to the recorded job and to the jobs: it submits a job, deletes the recorded one,
      or leaves both alone. */
  lemma PassAndJobs(w: World, i: Input)
    ensures var after := Pass(w, i).0;
            if Submits(w, i) then after.obj.jobID == i.create.id && after.jobs == w.jobs[i.create.id := i.create.initialState]
            else
              && after.obj.jobID == w.obj.jobID
              && after.jobs == (if Deletes(w, i) && DeleteCall(w) == Some(DeleteJob(w.obj.jobID)) && i.deleteErr.None?
                                then w.jobs - {w.obj.jobID} else w.jobs)
    ensures Pass(w, i).0.spec == w.spec && Pass(w, i).0.obj.deleting == w.obj.deleting
  {
    SubmittedExactly(w, i);
    if Creates(w, i) {
      CreateAndJobs(w, i);
      assert Pass(w, i) == CreatePass(w, i);
    } else if Deletes(w, i) {
      DeleteAndJobs(w, i);
      assert Pass(w, i) == DeletePass(w, i);
    }
  }

  /** A job is submitted only when every job before it has completed. */
  lemma ImportOnlyWhenSettled(w: World, i: Input)
    requires OthersCompleted(w) && Truthful(w, Reconcile(i))
    requires Creates(w, i) && GetOrImport in ExpectedCalls(w, i)
    ensures AllCompleted(w)
  {
  }

  lemma NextKeepsOthers(w: World, e: Event)
    requires OthersCompleted(w) && Truthful(w, e)
    ensures OthersCompleted(Next(w, e))
  {
    if e.Reconcile? {
      var i := e.input;
      PassAndJobs(w, i);
      if Submits(w, i) {
        ImportOnlyWhenSettled(w, i);
      }
    }
  }

  lemma {:induction false} RunKeepsOthers(w: World, events: seq<Event>)
    requires OthersCompleted(w) && TruthfulRun(w, events)
    ensures OthersCompleted(RunEvents(w, events))
    decreases |events|
  {
    if events != [] {
      var n := |events| - 1;
      TruthfulPrefix(w, events);
      RunKeepsOthers(w, events[..n]);
      NextKeepsOthers(RunEvents(w, events[..n]), events[n]);
    }
  }

  /** Single outstanding import: in every reachable state at most one job has not ended, it is the
      recorded one, and a pass that may import finds all jobs completed. */
  lemma SingleOutstandingImport(s: Spec, events: seq<Event>, i: Input)
    requires TruthfulRun(Fresh(s), events)
    ensures var w := RunEvents(Fresh(s), events);
            && (forall a, b :: a in w.jobs && b in w.jobs && !Ended(w.jobs[a]) && !Ended(w.jobs[b]) ==> a == b == w.obj.jobID)
            && (Truthful(w, Reconcile(i)) && GetOrImport in NewCalls(w, i) ==> AllCompleted(w))
  {
    RunKeepsOthers(Fresh(s), events);
    var w := RunEvents(Fresh(s), events);
    CallsExactly(w, i);
    if Truthful(w, Reconcile(i)) && GetOrImport in NewCalls(w, i) {
      assert GetOrImport in ExpectedCalls(w, i);
      ImportOnlyWhenSettled(w, i);
    }
  }

  /** A job that failed is never retried: whatever happens, the object keeps it and makes no further
      import call until the job is deleted with the object. */
  ghost predicate Stuck(w: World) {
    w.obj.jobID != "" && w.obj.jobID in w.jobs && w.jobs[w.obj.jobID] == FAILED
  }

  lemma StuckStep(w: World, e: Event)
    requires Stuck(w) && Truthful(w, e)
    requires !w.obj.deleting
    ensures var after := Next(w, e);
            Stuck(after) && after.obj.jobID == w.obj.jobID && after.log == w.log
  {
    if e.Reconcile? {
      PassAndJobs(w, e.input);
      CallsExactly(w, e.input);
    }
  }

  lemma {:induction false} NotDeleting(w: World, events: seq<Event>)
    requires !w.obj.deleting && RequestDeletion !in events
    ensures !RunEvents(w, events).obj.deleting
    decreases |events|
  {
    if events != [] {
      var n := |events| - 1;
      NotDeleting(w, events[..n]);
      if events[n].Reconcile? {
        PassAndJobs(RunEvents(w, events[..n]), events[n].input);
      }
    }
  }

  lemma {:induction false} FailedJobIsNeverRetried(w: World, events: seq<Event>)
    requires Stuck(w) && !w.obj.deleting && RequestDeletion !in events && TruthfulRun(w, events)
    ensures var after := RunEvents(w, events);
            Stuck(after) && after.obj.jobID == w.obj.jobID && after.log == w.log
    decreases |events|
  {
    if events != [] {
      var n := |events| - 1;
      TruthfulPrefix(w, events);
      FailedJobIsNeverRetried(w, events[..n]);
      NotDeleting(w, events[..n]);
      StuckStep(RunEvents(w, events[..n]), events[n]);
    }
  }

  /** Under a policy that stays retain, no run ever deletes an image. */
  lemma {:induction false} RetainNeverDeletes(w: World, events: seq<Event>, id: string)
    requires w.spec.retain && SetRetain(false) !in events
    requires DeleteImage(id) !in w.log
    ensures RunEvents(w, events).spec.retain && DeleteImage(id) !in RunEvents(w, events).log
    decreases |events|
  {
    if events != [] {
      var n := |events| - 1;
      RetainNeverDeletes(w, events[..n], id);
      var v := RunEvents(w, events[..n]);
      if events[n].Reconcile? {
        CallsExactly(v, events[n].input);
        PassAndJobs(v, events[n].input);
      }
    }
  }

  /** Exactly when a reachable delete pass that removes the finalizer leaves no unfinished import: the
      recorded job is deleted only when no image identifier is recorded. */
  lemma ReleaseLeavesNoImport(s: Spec, events: seq<Event>, i: Input)
    requires TruthfulRun(Fresh(s), events)
    requires RunEvents(Fresh(s), events).obj.finalizer && Deletes(RunEvents(Fresh(s), events), i)
    requires !Pass(RunEvents(Fresh(s), events), i).0.obj.finalizer
    ensures var w := RunEvents(Fresh(s), events);
            AllCompleted(Pass(w, i).0) <==>
              w.obj.imageID == "" || w.obj.jobID !in w.jobs || w.jobs[w.obj.jobID] == COMPLETED
  {
    var w := RunEvents(Fresh(s), events);
    RunKeepsOthers(Fresh(s), events);
    DeleteExactly(w, i);
    PassAndJobs(w, i);
  }

  // ---- An image that was seen and is gone ----

  /** A pass that finds the image listed and active. */
  predicate FindsActive(name: string, i: Input) {
    && i.fetch == Found && i.finalizerErr.None? && i.gate == Proceed
    && i.listing.Listed? && FindImage(i.listing.images, name).Some? && FindImage(i.listing.images, name).value.imageID.Some?
    && i.image.Got? && i.image.imageID.Some? && i.image.imageID.value != "" && i.image.state == ACTIVE
    && (i.create.Created? ==> i.create.id != "")
  }

  /** Finalizer, adoption, and a look at the image. */
  function ThreePasses(s: Spec, i: Input): World {
    RunEvents(Fresh(s), [Reconcile(i), Reconcile(i), Reconcile(i)])
  }

  /** The states after each of the three passes. */
  lemma ThreeStates(s: Spec, i: Input)
    requires FindsActive(s.name, i)
    ensures var f := Fresh(s);
            var w1 := f.(obj := f.obj.(finalizer := true));
            var w2 := w1.(obj := Labelled(s, w1.obj).(owned := true));
            && RunEvents(f, []) == f
            && RunEvents(f, [Reconcile(i)]) == w1
            && RunEvents(f, [Reconcile(i), Reconcile(i)]) == w2
            && ThreePasses(s, i) == Pass(w2, i).0
  {
    var e1, e2, e3 := [Reconcile(i)], [Reconcile(i), Reconcile(i)], [Reconcile(i), Reconcile(i), Reconcile(i)];
    assert e3[..2] == e2 && e2[..1] == e1 && e1[..0] == [];
    var f := Fresh(s);
    assert RunEvents(f, []) == f;
    assert RunEvents(f, e1) == Pass(f, i).0;
    assert RunEvents(f, e2) == Pass(Pass(f, i).0, i).0;
  }

  /** They form a run in which the cloud is truthful, and leave an owned image in the active state with an
      identifier and no job. */
  lemma ActiveIsReachable(s: Spec, i: Input)
    requires FindsActive(s.name, i)
    ensures TruthfulRun(Fresh(s), [Reconcile(i), Reconcile(i), Reconcile(i)])
    ensures var w := ThreePasses(s, i);
            && w.spec == s && w.obj.finalizer && !w.obj.deleting && w.obj.owned && w.obj.jobID == "" && w.jobs == map[]
            && w.obj.imageState == ACTIVE && w.obj.imageID == i.image.imageID.value
  {
    ThreeStates(s, i);
    var events := [Reconcile(i), Reconcile(i), Reconcile(i)];
    assert events[..0] == [] && events[..1] == [Reconcile(i)] && events[..2] == [Reconcile(i), Reconcile(i)];
    forall k | 0 <= k < 3 ensures Truthful(RunEvents(Fresh(s), events[..k]), events[k]) {
      assert k == 0 || k == 1 || k == 2;
    }
  }

  /** A pass that finds the image gone and submits a job, from the state after the three passes. */
  predicate ImportsAgain(s: Spec, j: Input) {
    j.fetch == Found && j.gate == Proceed && ImportAnswerOf(s.name, j).Submitted? && j.create.id != ""
  }

  /** A state left active hides a new import: on a reachable object the pass that submits the job ends
      clean, and nothing asks for another pass. */
  lemma StaleActiveHidesImport(s: Spec, i: Input, j: Input)
    requires FindsActive(s.name, i) && ImportsAgain(s, j)
    ensures var w := ThreePasses(s, i);
            var (after, r) := Pass(w, j);
            r == OK && after.obj.jobID == j.create.id && after.obj.imageState == ACTIVE && j.create.id in after.jobs
  {
    ActiveIsReachable(s, i);
    var w := ThreePasses(s, i);
    SubmitOnActive(w, j);
    SubmittedExactly(w, j);
    PassAndJobs(w, j);
  }

  /** And when such an object is deleted while the new job is under way, the job is left behind. */
  lemma OrphanedImport(s: Spec, i: Input, j: Input, d: Input)
    requires FindsActive(s.name, i) && ImportsAgain(s, j) && j.create.initialState != COMPLETED
    requires d.fetch == Found && d.gate == Proceed && d.deleteErr.None?
    ensures var after := RunEvents(ThreePasses(s, i), [Reconcile(j), RequestDeletion, Reconcile(d)]);
            !after.obj.finalizer && j.create.id in after.jobs && after.jobs[j.create.id] != COMPLETED
  {
    ActiveIsReachable(s, i);
    SubmittedExactly(ThreePasses(s, i), j);
    DeletedDuringImport(ThreePasses(s, i), j, d);
  }

  lemma DeletedDuringImport(w: World, i: Input, d: Input)
    requires Submits(w, i) && i.create.initialState != COMPLETED && w.obj.jobID == "" && w.obj.imageID != ""
    requires d.fetch == Found && d.gate == Proceed && d.deleteErr.None?
    ensures var after := RunEvents(w, [Reconcile(i), RequestDeletion, Reconcile(d)]);
            !after.obj.finalizer && i.create.id in after.jobs && after.jobs[i.create.id] != COMPLETED
  {
    var e := [Reconcile(i), RequestDeletion, Reconcile(d)];
    var e1, e2 := [Reconcile(i)], [Reconcile(i), RequestDeletion];
    assert e[..2] == e2 && e2[..1] == e1 && e1[..0] == [];
    assert RunEvents(w, []) == w;
    var v := Pass(w, i).0;
    assert RunEvents(w, e1) == v;
    PassAndJobs(w, i);
    SubmittedExactly(w, i);
    ImportKeepsImageID(w, i);
    var u := RunEvents(w, e2);
    assert u == v.(obj := v.obj.(deleting := true));
    assert RunEvents(w, e) == Pass(u, d).0 == DeletePass(u, d).0;
  }

  /** A pass that submits a job does not look at an image. */
  lemma ImportKeepsImageID(w: World, i: Input)
    requires Submits(w, i)
    ensures Pass(w, i).0.obj.imageID == w.obj.imageID
  {
    SubmittedExactly(w, i);
  }
}
