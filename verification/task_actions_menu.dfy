/**
 * The actions menu of a task: built-in items pushed with fixed weights, some
 * only under a condition, then plugin items with their own weights, all
 * ordered by a stable sort on the weight; clicks are forwarded, deletion
 * only after confirmation.
 */
module TaskActionsMenu {
  import opened Common
  import opened WeightedMenu

  datatype Action =
    | LoadTaskAnno | ExportTaskDataset | DeleteTask | RunAutoAnnotation
    | MoveTaskToProject | OpenBugTracker | BackupTask | ViewAnalytics


  /** The built-in items in push order, with their weights. */
  function BuiltInItems(bugTracker: string, projectID: Option<int>, inferenceIsActive: bool,
                        backupIsActive: bool): (items: seq<Weighted<MenuEntry<Action>>>)
    ensures SortedByWeight(items) && WeightsAtMost(items, 70)
    ensures |items| >= 6 && items[|items| - 1] == Weighted(BuiltIn(DeleteTask, false), 70)
  {
    var s0 := [Weighted(BuiltIn(LoadTaskAnno, false), 0)];
    var s1 := PushIf(s0, true, Weighted(BuiltIn(ExportTaskDataset, false), 10));
    var s2 := PushIf(s1, bugTracker != "", Weighted(BuiltIn(OpenBugTracker, false), 20));
    var s3 := PushIf(s2, true, Weighted(BuiltIn(RunAutoAnnotation, inferenceIsActive), 30));
    var s4 := PushIf(s3, true, Weighted(BuiltIn(BackupTask, backupIsActive), 40));
    var s5 := PushIf(s4, true, Weighted(BuiltIn(ViewAnalytics, false), 50));
    var s6 := PushIf(s5, projectID.None?, Weighted(BuiltIn(MoveTaskToProject, false), 60));
    PushIfSorted(s0, true, Weighted(BuiltIn(ExportTaskDataset, false), 10));
    PushIfSorted(s1, bugTracker != "", Weighted(BuiltIn(OpenBugTracker, false), 20));
    PushIfSorted(s2, true, Weighted(BuiltIn(RunAutoAnnotation, inferenceIsActive), 30));
    PushIfSorted(s3, true, Weighted(BuiltIn(BackupTask, backupIsActive), 40));
    PushIfSorted(s4, true, Weighted(BuiltIn(ViewAnalytics, false), 50));
    PushIfSorted(s5, projectID.None?, Weighted(BuiltIn(MoveTaskToProject, false), 60));
    PushIfSorted(s6, true, Weighted(BuiltIn(DeleteTask, false), 70));
    PushIf(s6, true, Weighted(BuiltIn(DeleteTask, false), 70))
  }

  /** The built-in list as its fixed and conditional pieces. */
  lemma BuiltInItemsShape(bugTracker: string, projectID: Option<int>, inferenceIsActive: bool,
                          backupIsActive: bool)
    ensures BuiltInItems(bugTracker, projectID, inferenceIsActive, backupIsActive)
      == [Weighted(BuiltIn(LoadTaskAnno, false), 0), Weighted(BuiltIn(ExportTaskDataset, false), 10)]
         + (if bugTracker != "" then [Weighted(BuiltIn(OpenBugTracker, false), 20)] else [])
         + [Weighted(BuiltIn(RunAutoAnnotation, inferenceIsActive), 30),
            Weighted(BuiltIn(BackupTask, backupIsActive), 40),
            Weighted(BuiltIn(ViewAnalytics, false), 50)]
         + (if projectID.None? then [Weighted(BuiltIn(MoveTaskToProject, false), 60)] else [])
         + [Weighted(BuiltIn(DeleteTask, false), 70)]
  {
  }

  /** The bug-tracker item is present iff the task has a bug tracker. */
  lemma BugTrackerItemIff(bugTracker: string, projectID: Option<int>, inferenceIsActive: bool,
                          backupIsActive: bool)
    ensures Weighted(BuiltIn(OpenBugTracker, false), 20)
              in BuiltInItems(bugTracker, projectID, inferenceIsActive, backupIsActive)
            <==> bugTracker != ""
  {
    BuiltInItemsShape(bugTracker, projectID, inferenceIsActive, backupIsActive);
    var items := BuiltInItems(bugTracker, projectID, inferenceIsActive, backupIsActive);
    if bugTracker != "" {
      assert items[2] == Weighted(BuiltIn(OpenBugTracker, false), 20);
    } else {
      assert forall i :: 0 <= i < |items| ==> items[i].item.action != OpenBugTracker;
    }
  }

  /** The move-to-project item is present iff the task belongs to no project. */
  lemma MoveItemIff(bugTracker: string, projectID: Option<int>, inferenceIsActive: bool,
                    backupIsActive: bool)
    ensures Weighted(BuiltIn(MoveTaskToProject, false), 60)
              in BuiltInItems(bugTracker, projectID, inferenceIsActive, backupIsActive)
            <==> projectID.None?
  {
    BuiltInItemsShape(bugTracker, projectID, inferenceIsActive, backupIsActive);
    var items := BuiltInItems(bugTracker, projectID, inferenceIsActive, backupIsActive);
    if projectID.None? {
      assert items[|items| - 2] == Weighted(BuiltIn(MoveTaskToProject, false), 60);
    } else {
      assert forall i :: 0 <= i < |items| ==> items[i].item.action != MoveTaskToProject;
    }
  }

  /** Auto-annotation and backup are always present, disabled by their activity flags. */
  lemma ToggledItemsPresent(bugTracker: string, projectID: Option<int>, inferenceIsActive: bool,
                            backupIsActive: bool)
    ensures var items := BuiltInItems(bugTracker, projectID, inferenceIsActive, backupIsActive);
      && Weighted(BuiltIn(RunAutoAnnotation, inferenceIsActive), 30) in items
      && Weighted(BuiltIn(BackupTask, backupIsActive), 40) in items
  {
    BuiltInItemsShape(bugTracker, projectID, inferenceIsActive, backupIsActive);
    var items := BuiltInItems(bugTracker, projectID, inferenceIsActive, backupIsActive);
    var k := if bugTracker != "" then 3 else 2;
    assert items[k] == Weighted(BuiltIn(RunAutoAnnotation, inferenceIsActive), 30);
    assert items[k + 1] == Weighted(BuiltIn(BackupTask, backupIsActive), 40);
  }

  /**
   * `menuItems` as rendered: the built-ins pushed one by one under their
   * conditions, the plugin items appended, the whole sorted by weight.
   */
  method AssembleMenu(bugTracker: string, projectID: Option<int>, inferenceIsActive: bool,
                      backupIsActive: bool, pluginWeights: seq<int>) returns (menu: seq<Weighted<MenuEntry<Action>>>)
    ensures SortedByWeight(menu)
    ensures multiset(menu) == multiset(BuiltInItems(bugTracker, projectID, inferenceIsActive, backupIsActive))
                              + multiset(PluginItems<Action>(pluginWeights))
    ensures forall w ::
      ItemsOfWeight(menu, w) ==
      ItemsOfWeight(BuiltInItems(bugTracker, projectID, inferenceIsActive, backupIsActive)
                    + PluginItems<Action>(pluginWeights), w)
    ensures pluginWeights == [] ==> menu == BuiltInItems(bugTracker, projectID, inferenceIsActive, backupIsActive)
  {
    var items := PushBuiltIns(bugTracker, projectID, inferenceIsActive, backupIsActive);
    items := items + PluginItems<Action>(pluginWeights);
    menu := SortByWeight(items);
    forall w ensures ItemsOfWeight(menu, w) == ItemsOfWeight(items, w) {
      SortByWeightStable(items, w);
    }
    if pluginWeights == [] {
      assert items == BuiltInItems(bugTracker, projectID, inferenceIsActive, backupIsActive);
      SortByWeightOfSorted(items);
    }
  }

  /** The successive conditional pushes of the built-in items. */
  method PushBuiltIns(bugTracker: string, projectID: Option<int>, inferenceIsActive: bool,
                      backupIsActive: bool) returns (items: seq<Weighted<MenuEntry<Action>>>)
    ensures items == BuiltInItems(bugTracker, projectID, inferenceIsActive, backupIsActive)
  {
    items := [];
    items := items + [Weighted(BuiltIn(LoadTaskAnno, false), 0)];
    items := items + [Weighted(BuiltIn(ExportTaskDataset, false), 10)];
    if bugTracker != "" {
      items := items + [Weighted(BuiltIn(OpenBugTracker, false), 20)];
    }
    items := items + [Weighted(BuiltIn(RunAutoAnnotation, inferenceIsActive), 30)];
    items := items + [Weighted(BuiltIn(BackupTask, backupIsActive), 40)];
    items := items + [Weighted(BuiltIn(ViewAnalytics, false), 50)];
    if projectID.None? {
      items := items + [Weighted(BuiltIn(MoveTaskToProject, false), 60)];
    }
    items := items + [Weighted(BuiltIn(DeleteTask, false), 70)];
  }

  // ---------------------------------------------------------------------------
  // Clicks

  /**
   * The calls `onClickMenuWrapper` makes to `onClickMenu` for a click: none
   * for a missing click, the click itself for every action but delete, and
   * for delete the click only once the confirmation is answered OK.
   */
  function ForwardedClicks(params: Option<Action>, answer: ConfirmAnswer): (calls: seq<Action>)
    ensures params.None? ==> calls == []
    ensures params.Some? && params.value != DeleteTask ==> calls == [params.value]
    ensures params == Some(DeleteTask) ==> (calls == [DeleteTask] <==> answer == Ok)
    ensures |calls| <= 1 && forall a :: a in calls ==> Some(a) == params
  {
    if params.None? then []
    else if params.value == DeleteTask then (if answer == Ok then [DeleteTask] else [])
    else [params.value]
  }

  /** The confirmation asked for a click: only delete asks. */
  predicate AsksConfirmation(params: Option<Action>)
  {
    params == Some(DeleteTask)
  }

  /** Only a delete click's forwarding depends on the answer. */
  lemma OnlyDeleteAwaitsConfirmation(params: Option<Action>)
    ensures !AsksConfirmation(params) ==> ForwardedClicks(params, Ok) == ForwardedClicks(params, Cancel)
    ensures AsksConfirmation(params) ==> ForwardedClicks(params, Ok) != ForwardedClicks(params, Cancel)
  {
  }
}
