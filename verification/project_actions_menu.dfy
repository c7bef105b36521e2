/**
 * The actions menu of a project: six built-in items pushed with weights 0 to
 * 50, plugin items with their own weights, a stable sort by weight, the
 * items' click effects and deletion behind a confirmation.
 */
module ProjectActionsMenu {
  import opened Common
  import opened WeightedMenu

  datatype Action = ExportDataset | ImportDataset | BackupProject | ViewAnalytics | SetWebhooks | Delete

  /** The built-in actions in the order the menu pushes them. */
  const BuiltInOrder: seq<Action> := [ExportDataset, ImportDataset, BackupProject, ViewAnalytics, SetWebhooks, Delete]

  /** The backup item is disabled while a backup export of this project is running. */
  predicate BackupIsActive(current: map<int, bool>, projectId: int)
  {
    projectId in current && current[projectId]
  }

  /** The built-in items in push order, with their weights. */
  function BuiltInItems(backupActive: bool): (items: seq<Weighted<MenuEntry<Action>>>)
    ensures |items| == 6 && SortedByWeight(items)
    ensures forall i :: 0 <= i < 6 ==> items[i].weight == 10 * i
    ensures forall i :: 0 <= i < 6 ==> items[i].item.BuiltIn? && (items[i].item.disabled <==> i == 2 && backupActive)
    ensures forall i :: 0 <= i < 6 ==> items[i].item.action == BuiltInOrder[i]
  {
    [Weighted(BuiltIn(ExportDataset, false), 0), Weighted(BuiltIn(ImportDataset, false), 10),
     Weighted(BuiltIn(BackupProject, backupActive), 20), Weighted(BuiltIn(ViewAnalytics, false), 30),
     Weighted(BuiltIn(SetWebhooks, false), 40), Weighted(BuiltIn(Delete, false), 50)]
  }

  method PushBuiltIns(backupActive: bool) returns (items: seq<Weighted<MenuEntry<Action>>>)
    ensures items == BuiltInItems(backupActive)
  {
    items := [];
    items := items + [Weighted(BuiltIn(ExportDataset, false), 0)];
    items := items + [Weighted(BuiltIn(ImportDataset, false), 10)];
    items := items + [Weighted(BuiltIn(BackupProject, backupActive), 20)];
    items := items + [Weighted(BuiltIn(ViewAnalytics, false), 30)];
    items := items + [Weighted(BuiltIn(SetWebhooks, false), 40)];
    items := items + [Weighted(BuiltIn(Delete, false), 50)];
  }

  /** `menuItems` as rendered: built-ins, then plugins, sorted stably by weight. */
  method AssembleMenu(current: map<int, bool>, projectId: int, pluginWeights: seq<int>)
    returns (menu: seq<Weighted<MenuEntry<Action>>>)
    ensures SortedByWeight(menu)
    ensures multiset(menu) == multiset(BuiltInItems(BackupIsActive(current, projectId)))
                              + multiset(PluginItems<Action>(pluginWeights))
    ensures forall w ::
      ItemsOfWeight(menu, w) ==
      ItemsOfWeight(BuiltInItems(BackupIsActive(current, projectId)) + PluginItems<Action>(pluginWeights), w)
    ensures pluginWeights == [] ==> menu == BuiltInItems(BackupIsActive(current, projectId))
  {
    var items := PushBuiltIns(BackupIsActive(current, projectId));
    items := items + PluginItems<Action>(pluginWeights);
    menu := SortByWeight(items);
    forall w ensures ItemsOfWeight(menu, w) == ItemsOfWeight(items, w) {
      SortByWeightStable(items, w);
    }
    if pluginWeights == [] {
      assert items == BuiltInItems(BackupIsActive(current, projectId));
      SortByWeightOfSorted(items);
    }
  }

  // ---------------------------------------------------------------------------
  // Clicks

  datatype Effect =
    | OpenExportDatasetModal
    | OpenImportDatasetModal
    | OpenExportBackupModal
    | Navigate(path: string)
    | ConfirmDelete
    | NoEffect

  /** What clicking a built-in item does; a disabled item does not react. */
  function ItemEffect(action: Action, projectId: int, backupActive: bool): (e: Effect)
    ensures action == ViewAnalytics ==> e == Navigate("/projects/" + IntToDecimal(projectId) + "/analytics")
    ensures action == SetWebhooks ==> e == Navigate("/projects/" + IntToDecimal(projectId) + "/webhooks")
    ensures action == BackupProject ==> (e == OpenExportBackupModal <==> !backupActive)
    ensures e == ConfirmDelete <==> action == Delete
    ensures e == OpenExportDatasetModal <==> action == ExportDataset
    ensures e == OpenImportDatasetModal <==> action == ImportDataset
  {
    match action
    case ExportDataset => OpenExportDatasetModal
    case ImportDataset => OpenImportDatasetModal
    case BackupProject => if backupActive then NoEffect else OpenExportBackupModal
    case ViewAnalytics => Navigate("/projects/" + IntToDecimal(projectId) + "/analytics")
    case SetWebhooks => Navigate("/projects/" + IntToDecimal(projectId) + "/webhooks")
    case Delete => ConfirmDelete
  }

  /** Navigation targets name the project: different projects lead to different pages. */
  lemma NavigationNamesProject(a: int, b: int)
    requires ItemEffect(ViewAnalytics, a, false) == ItemEffect(ViewAnalytics, b, false)
    ensures a == b
  {
    var pa := "/projects/" + IntToDecimal(a) + "/analytics";
    var pb := "/projects/" + IntToDecimal(b) + "/analytics";
    assert pa == pb;
    assert |IntToDecimal(a)| == |IntToDecimal(b)|;
    assert IntToDecimal(a) == pa[10..|pa| - 10];
    assert IntToDecimal(b) == pb[10..|pb| - 10];
    IntToDecimalInjective(a, b);
  }

}
