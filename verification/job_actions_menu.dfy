/**
 * The context menu of a job row: navigation, import and export, the finish
 * and renew transitions of the job's stage and state, and deletion behind a
 * confirmation.
 */
module JobActionsMenu {
  import opened Common

  datatype JobStage = Annotation | Validation | Acceptance
  datatype JobState = New | InProgress | Rejected | Completed
  datatype JobType = AnnotationJob | GroundTruth

  /** A job as the menu sees it; only stage and state are changed in place. */
  class Job {
    const id: int
    const taskId: Option<int>
    const projectId: Option<int>
    const bugTracker: Option<string>
    const jobType: JobType
    var stage: JobStage
    var state: JobState

    constructor (id: int, taskId: Option<int>, projectId: Option<int>, bugTracker: Option<string>,
                 jobType: JobType, stage: JobStage, state: JobState)
      ensures this.id == id && this.taskId == taskId && this.projectId == projectId
      ensures this.bugTracker == bugTracker && this.jobType == jobType
      ensures this.stage == stage && this.state == state
    {
      this.id := id;
      this.taskId := taskId;
      this.projectId := projectId;
      this.bugTracker := bugTracker;
      this.jobType := jobType;
      this.stage := stage;
      this.state := state;
    }
  }

  datatype MenuKey = TaskKey | ProjectKey | BugTrackerKey | ImportJob | ExportJob | ViewAnalytics
                   | RenewJob | FinishJob | DeleteKey

  // ---------------------------------------------------------------------------
  // Items and their availability

  /** "Finish" is offered while the job is being annotated or validated. */
  predicate FinishOffered(stage: JobStage)
  {
    stage == Annotation || stage == Validation
  }

  /** "Renew" is offered once the job is in acceptance. */
  predicate RenewOffered(stage: JobStage)
  {
    stage == Acceptance
  }

  datatype MenuItem = MenuItem(key: MenuKey, disabled: bool)

  /** The items of the menu, in display order, for a job with the given fields. */
  function MenuItems(taskId: Option<int>, projectId: Option<int>, bugTracker: Option<string>,
                     jobType: JobType, stage: JobStage): (items: seq<MenuItem>)
    ensures forall i, j :: 0 <= i < j < |items| ==> items[i].key != items[j].key
    ensures (exists i :: 0 <= i < |items| && items[i].key == FinishJob) <==> FinishOffered(stage)
    ensures (exists i :: 0 <= i < |items| && items[i].key == RenewJob) <==> RenewOffered(stage)
    ensures items[0] == MenuItem(TaskKey, taskId.None?)
    ensures items[1] == MenuItem(ProjectKey, projectId.None?)
    ensures items[2] == MenuItem(BugTrackerKey, !TruthyString(bugTracker))
    ensures |items| == 8
    ensures items[3] == MenuItem(ImportJob, false) && items[4] == MenuItem(ExportJob, false)
    ensures items[5] == MenuItem(ViewAnalytics, false)
    ensures items[6] == MenuItem(if FinishOffered(stage) then FinishJob else RenewJob, false)
    ensures items[|items| - 1] == MenuItem(DeleteKey, jobType != GroundTruth)
    ensures forall i :: 3 <= i < |items| - 1 ==> !items[i].disabled
  {
    var fixed := [MenuItem(TaskKey, taskId.None?), MenuItem(ProjectKey, projectId.None?),
                  MenuItem(BugTrackerKey, !TruthyString(bugTracker)),
                  MenuItem(ImportJob, false), MenuItem(ExportJob, false), MenuItem(ViewAnalytics, false)];
    var finish := if FinishOffered(stage) then [MenuItem(FinishJob, false)] else [];
    var renew := if RenewOffered(stage) then [MenuItem(RenewJob, false)] else [];
    var items := fixed + finish + renew + [MenuItem(DeleteKey, jobType != GroundTruth)];
    assert |finish| + |renew| == 1;
    assert forall i :: 0 <= i < 6 ==> items[i] == fixed[i];
    assert items[6] == if FinishOffered(stage) then MenuItem(FinishJob, false) else MenuItem(RenewJob, false);
    items
  }

  /** Finish and renew are never offered together, and each transition offers the other. */
  lemma FinishRenewExclusive(stage: JobStage)
    ensures !(FinishOffered(stage) && RenewOffered(stage))
    ensures FinishOffered(stage) || RenewOffered(stage)
    ensures RenewOffered(StageAfter(FinishJob, stage)) && FinishOffered(StageAfter(RenewJob, stage))
  {
  }

  // ---------------------------------------------------------------------------
  // Clicks

  /** `${id}` of a nullable id: `null` prints as "null". */
  function IdText(id: Option<int>): (t: string)
    ensures id.None? <==> t == "null"
  {
    if id.Some? then
      var s := IntToDecimal(id.value);
      assert s != "null" by {
        assert |s| == 4 ==> IsDigit(s[3]);
      }
      s
    else "null"
  }

  /** Distinct ids, null included, print differently. */
  lemma IdTextInjective(a: Option<int>, b: Option<int>)
    requires IdText(a) == IdText(b)
    ensures a == b
  {
    if a.Some? && b.Some? {
      IntToDecimalInjective(a.value, b.value);
    }
  }

  datatype Effect =
    | Navigate(path: string)
    | OpenInNewTab(url: string)
    | OpenImportModal
    | OpenExportModal
    | JobUpdated
    | ConfirmDelete
    | NoEffect

  /** The stage a key leaves the job in. */
  function StageAfter(key: MenuKey, stage: JobStage): JobStage
  {
    match key
    case FinishJob => Acceptance
    case RenewJob => Annotation
    case _ => stage
  }

  /** The state a key leaves the job in. */
  function StateAfter(key: MenuKey, state: JobState): JobState
  {
    match key
    case FinishJob => Completed
    case RenewJob => New
    case _ => state
  }

  /**
   * The menu's click handler (plus the delete item's own handler): navigation
   * keys push a path, the bug tracker opens only when there is one, renew and
   * finish change the job in place and report it updated, delete asks for
   * confirmation.
   */
  method OnClick(job: Job, key: MenuKey) returns (e: Effect)
    modifies job
    ensures job.stage == StageAfter(key, old(job.stage)) && job.state == StateAfter(key, old(job.state))
    ensures key == TaskKey ==> e == Navigate("/tasks/" + IdText(job.taskId))
    ensures key == ProjectKey ==> e == Navigate("/projects/" + IdText(job.projectId))
    ensures key == ViewAnalytics ==>
      e == Navigate("/tasks/" + IdText(job.taskId) + "/jobs/" + IntToDecimal(job.id) + "/analytics")
    ensures key == BugTrackerKey ==>
      e == if TruthyString(job.bugTracker) then OpenInNewTab(job.bugTracker.value) else NoEffect
    ensures key == ImportJob ==> e == OpenImportModal
    ensures key == ExportJob ==> e == OpenExportModal
    ensures key == RenewJob || key == FinishJob ==> e == JobUpdated
    ensures key == DeleteKey ==> e == ConfirmDelete
  {
    match key {
      case TaskKey => e := Navigate("/tasks/" + IdText(job.taskId));
      case ProjectKey => e := Navigate("/projects/" + IdText(job.projectId));
      case BugTrackerKey =>
        e := if TruthyString(job.bugTracker) then OpenInNewTab(job.bugTracker.value) else NoEffect;
      case ImportJob => e := OpenImportModal;
      case ExportJob => e := OpenExportModal;
      case ViewAnalytics =>
        e := Navigate("/tasks/" + IdText(job.taskId) + "/jobs/" + IntToDecimal(job.id) + "/analytics");
      case RenewJob =>
        job.state := New;
        job.stage := Annotation;
        e := JobUpdated;
      case FinishJob =>
        job.stage := Acceptance;
        job.state := Completed;
        e := JobUpdated;
      case DeleteKey => e := ConfirmDelete;
    }
  }

  /** Only finish and renew change the job. */
  lemma OnlyTransitionsChangeJob(key: MenuKey, stage: JobStage, state: JobState)
    requires key != FinishJob && key != RenewJob
    ensures StageAfter(key, stage) == stage && StateAfter(key, state) == state
  {
  }

  /** Finish and renew undo each other from the states they are offered in. */
  lemma RenewUndoesFinish(stage: JobStage, state: JobState)
    ensures StageAfter(RenewJob, StageAfter(FinishJob, stage)) == Annotation
    ensures StateAfter(RenewJob, StateAfter(FinishJob, state)) == New
    ensures StageAfter(FinishJob, StageAfter(RenewJob, stage)) == Acceptance
    ensures StateAfter(FinishJob, StateAfter(RenewJob, state)) == Completed
  {
  }

}
