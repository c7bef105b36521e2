/**
 * The "export as dataset" dialog: which storage an export goes to, the
 * archive name, the format pre-selected for tasks and jobs, which dumpers
 * are listed and enabled, and the help text describing the default storage.
 */
module ExportDataset {
  import opened Common
  import opened Storage

  datatype InstanceKind = ProjectInstance | TaskInstance | JobInstance

  /** The project, task or job being exported, as far as the dialog reads it. */
  datatype Instance = Instance(
    kind: InstanceKind,
    id: int,
    mode: string,
    dimension: Option<string>,
    targetStorage: StorageData)

  datatype Dumper = Dumper(name: string, dimension: string, enabled: bool)

  // ---------------------------------------------------------------------------
  // Default format

  /** The format the instance effect pre-selects, if any. */
  function DefaultFormat(inst: Instance): (f: Option<string>)
    ensures inst.kind == ProjectInstance ==> f.None?
    ensures f.Some? <==> inst.kind != ProjectInstance && inst.dimension == Some("2d")
                         && (inst.mode == "interpolation" || inst.mode == "annotation")
    ensures f == Some("CVAT for video 1.1") <==>
      inst.kind != ProjectInstance && inst.dimension == Some("2d") && inst.mode == "interpolation"
  {
    if inst.kind == ProjectInstance then None
    else if inst.mode == "interpolation" && inst.dimension == Some("2d") then Some("CVAT for video 1.1")
    else if inst.mode == "annotation" && inst.dimension == Some("2d") then Some("CVAT for images 1.1")
    else None
  }

  // ---------------------------------------------------------------------------
  // Dumper list

  /** A dumper is offered for the instance's dimension, or for a project without one. */
  predicate Listed(d: Dumper, inst: Option<Instance>)
  {
    inst.Some? &&
    (inst.value.dimension == Some(d.dimension) ||
     (inst.value.kind == ProjectInstance && inst.value.dimension.None?))
  }

  /** The dumpers offered in the format selector, in the given order. */
  function ListedDumpers(dumpers: seq<Dumper>, inst: Option<Instance>): (r: seq<Dumper>)
    ensures |r| <= |dumpers|
    ensures forall d :: d in r <==> d in dumpers && Listed(d, inst)
  {
    if |dumpers| == 0 then []
    else
      var rest := ListedDumpers(dumpers[1..], inst);
      assert forall d :: d in dumpers <==> d == dumpers[0] || d in dumpers[1..];
      if Listed(dumpers[0], inst) then [dumpers[0]] + rest else rest
  }

  /** Without an instance nothing is offered. */
  lemma NoInstanceNoDumpers(dumpers: seq<Dumper>)
    ensures ListedDumpers(dumpers, None) == []
  {
    var r := ListedDumpers(dumpers, None);
    assert forall d :: d !in r;
  }

  /** A dumper is pending when an export with its name is running for this instance. */
  predicate Pending(d: Dumper, inst: Option<Instance>, current: Option<seq<string>>)
  {
    inst.Some? && current.Some? && d.name in current.value
  }

  /** The option is disabled iff the dumper is disabled or already running. */
  function DumperDisabled(d: Dumper, inst: Option<Instance>, current: Option<seq<string>>): (disabled: bool)
    ensures disabled <==> !d.enabled || (inst.Some? && current.Some? && d.name in current.value)
    ensures d.enabled && current.None? ==> !disabled
  {
    !d.enabled || Pending(d, inst, current)
  }

  // ---------------------------------------------------------------------------
  // Export request

  /** The storage the export goes to: the instance's default, or the one chosen in the dialog. */
  function ExportStorage(useDefault: bool, defaultLocation: StorageLocation, defaultCloudId: Option<int>,
                         chosen: StorageData): (s: StorageData)
    ensures useDefault ==> s.location == defaultLocation && s.cloudStorageId == defaultCloudId
    ensures !useDefault ==> s == chosen
  {
    if useDefault then StorageData(defaultLocation, defaultCloudId) else chosen
  }

  /** `customName ? customName + '.zip' : undefined`. */
  function FileName(customName: Option<string>): (r: Option<string>)
    ensures r.Some? <==> TruthyString(customName)
    ensures r.Some? ==> |r.value| == |customName.value| + 4 && r.value[|customName.value|..] == ".zip"
  {
    if TruthyString(customName) then Some(customName.value + ".zip") else None
  }

  /** The archive name gives back the custom name: dropping the suffix recovers it. */
  lemma FileNameStripsBack(customName: Option<string>)
    requires TruthyString(customName)
    ensures FileName(customName).value[..|FileName(customName).value| - 4] == customName.value
  {
  }

  /** Distinct custom names give distinct archive names. */
  lemma FileNameInjective(a: Option<string>, b: Option<string>)
    requires TruthyString(a) && TruthyString(b) && FileName(a) == FileName(b)
    ensures a == b
  {
    FileNameStripsBack(a);
    FileNameStripsBack(b);
  }

  // ---------------------------------------------------------------------------
  // Help message

  /** How the help text names a storage location: local storage as 本地, cloud storage as "cloud". */
  function LocationLabel(loc: StorageLocation): string
  {
    match loc
    case Local => "本地"
    case CloudStorage => "cloud"
  }

  /** The label is `location.split('_')[0].replace('local', '本地')` of the location's enum value. */
  lemma LocationLabelIsSplitReplace(loc: StorageLocation)
    ensures Segment(LocationValue(loc), '_', 0).Some?
    ensures LocationLabel(loc) == ReplaceFirst(Segment(LocationValue(loc), '_', 0).value, "local", "本地")
  {
    if loc == Local {
      assert Split("local", '_') == ["local"];
    } else {
      SplitJoin(["cloud", "storage"], '_');
      assert Join(["cloud", "storage"], '_') == "cloud_storage";
      forall i | 0 <= i <= 5 ensures !OccursAt("cloud", "local", i) {
        assert "cloud"[0] != "local"[0];
      }
      ReplaceFirstAbsent("cloud", "local", "本地");
    }
  }

  /** `№<id>` for a truthy cloud storage id, nothing otherwise. */
  function CloudIdText(id: Option<int>): (t: string)
    ensures t == "" <==> !TruthyNumber(id)
  {
    if TruthyNumber(id) then "№" + IntToDecimal(id.value) else ""
  }

  /** The help text under the "use default storage" switch. */
  function HelpMessage(loc: StorageLocation, cloudId: Option<int>): string
  {
    "导出到 " + LocationLabel(loc) + " 存储 " + CloudIdText(cloudId)
  }

  /** The help text names the cloud storage id exactly when it is truthy, and different ids read differently. */
  lemma HelpMessageNamesId(loc: StorageLocation, a: Option<int>, b: Option<int>)
    ensures HelpMessage(loc, a)[|HelpMessage(loc, a)| - 1] == ' ' <==> !TruthyNumber(a)
    ensures TruthyNumber(a) && TruthyNumber(b) && HelpMessage(loc, a) == HelpMessage(loc, b) ==> a == b
  {
    var prefix := "导出到 " + LocationLabel(loc) + " 存储 ";
    assert HelpMessage(loc, a) == prefix + CloudIdText(a);
    assert HelpMessage(loc, b) == prefix + CloudIdText(b);
    if TruthyNumber(a) {
      var s := IntToDecimal(a.value);
      assert s[|s| - 1] != ' ' by {
        if a.value < 0 {
          assert s[|s| - 1] == NatToDecimal(-a.value)[|NatToDecimal(-a.value)| - 1];
        }
      }
      assert CloudIdText(a)[|CloudIdText(a)| - 1] == s[|s| - 1];
    }
    if TruthyNumber(a) && TruthyNumber(b) && HelpMessage(loc, a) == HelpMessage(loc, b) {
      assert CloudIdText(a) == HelpMessage(loc, a)[|prefix|..];
      assert CloudIdText(b) == HelpMessage(loc, b)[|prefix|..];
      assert IntToDecimal(a.value) == CloudIdText(a)[1..];
      assert IntToDecimal(b.value) == CloudIdText(b)[1..];
      IntToDecimalInjective(a.value, b.value);
    }
  }

  // ---------------------------------------------------------------------------
  // The dialog state

  datatype ExportForm = ExportForm(selectedFormat: Option<string>, saveImages: bool, customName: Option<string>)

  const InitialForm: ExportForm := ExportForm(None, false, None)

  /** What `exportDatasetAsync` is called with. */
  datatype ExportRequest = ExportRequest(
    instance: Option<Instance>,
    format: string,
    saveImages: bool,
    useDefaultStorage: bool,
    storage: StorageData,
    fileName: Option<string>)

  /** The actions the dialog dispatches. */
  datatype Action =
    | ExportDatasetAsync(request: ExportRequest)
    | CloseExportDatasetModal(closed: Option<Instance>)

  class ExportDatasetModal {
    var instance: Option<Instance>
    var useDefaultTargetStorage: bool
    var targetStorage: StorageData
    var defaultStorageLocation: StorageLocation
    var defaultStorageCloudId: Option<int>
    var helpMessage: string
    var form: ExportForm

    /** The help text always describes the current default storage. */
    predicate Valid()
      reads this
    {
      helpMessage == HelpMessage(defaultStorageLocation, defaultStorageCloudId)
    }

    /** The dialog as mounted, before any instance is set. */
    constructor ()
      ensures Valid()
      ensures instance.None? && useDefaultTargetStorage && targetStorage == LocalStorage
      ensures defaultStorageLocation == Local && defaultStorageCloudId.None? && form == InitialForm
    {
      instance := None;
      useDefaultTargetStorage := true;
      targetStorage := LocalStorage;
      defaultStorageLocation := Local;
      defaultStorageCloudId := None;
      form := InitialForm;
      helpMessage := HelpMessage(Local, None);
    }

    /**
     * The effects run when the instance changes: a task or job pre-selects
     * its default format, any instance supplies the default storage, and the
     * help text follows.
     */
    method OnInstanceChange(inst: Option<Instance>)
      requires Valid()
      modifies this
      ensures Valid()
      ensures instance == inst
      ensures inst.Some? && DefaultFormat(inst.value).Some? ==>
        form == old(form).(selectedFormat := DefaultFormat(inst.value))
      ensures inst.None? || DefaultFormat(inst.value).None? ==> form == old(form)
      ensures inst.Some? ==>
        defaultStorageLocation == inst.value.targetStorage.location
        && defaultStorageCloudId == inst.value.targetStorage.cloudStorageId
      ensures inst.None? ==>
        defaultStorageLocation == old(defaultStorageLocation)
        && defaultStorageCloudId == old(defaultStorageCloudId)
      ensures useDefaultTargetStorage == old(useDefaultTargetStorage) && targetStorage == old(targetStorage)
    {
      instance := inst;
      if inst.Some? {
        var f := DefaultFormat(inst.value);
        if f.Some? {
          form := form.(selectedFormat := f);
        }
        defaultStorageLocation := inst.value.targetStorage.location;
        defaultStorageCloudId := inst.value.targetStorage.cloudStorageId;
      }
      helpMessage := HelpMessage(defaultStorageLocation, defaultStorageCloudId);
    }

    /** The "use default storage" switch. */
    method OnChangeUseDefaultStorage(value: bool)
      requires Valid()
      modifies this
      ensures Valid()
      ensures useDefaultTargetStorage == value
      ensures targetStorage == old(targetStorage) && form == old(form) && instance == old(instance)
      ensures defaultStorageLocation == old(defaultStorageLocation) && defaultStorageCloudId == old(defaultStorageCloudId)
    {
      useDefaultTargetStorage := value;
    }

    /** Choosing a cloud storage entry replaces the chosen storage. */
    method OnChangeStorage(value: StorageData)
      requires Valid()
      modifies this
      ensures Valid()
      ensures targetStorage == value
      ensures useDefaultTargetStorage == old(useDefaultTargetStorage) && form == old(form) && instance == old(instance)
      ensures defaultStorageLocation == old(defaultStorageLocation) && defaultStorageCloudId == old(defaultStorageCloudId)
    {
      targetStorage := value;
    }

    /** Changing the location keeps only the location: any cloud storage id is dropped. */
    method OnChangeLocationValue(value: StorageLocation)
      requires Valid()
      modifies this
      ensures Valid()
      ensures targetStorage == StorageData(value, None)
      ensures useDefaultTargetStorage == old(useDefaultTargetStorage) && form == old(form) && instance == old(instance)
      ensures defaultStorageLocation == old(defaultStorageLocation) && defaultStorageCloudId == old(defaultStorageCloudId)
    {
      targetStorage := StorageData(value, None);
    }

    /**
     * `closeModal`: back to the default storage and an empty form, which
     * drops any pre-selected format, and the close action for the instance.
     */
    method CloseModal() returns (action: Action)
      requires Valid()
      modifies this
      ensures Valid()
      ensures action == CloseExportDatasetModal(instance)
      ensures useDefaultTargetStorage && targetStorage == LocalStorage && form == InitialForm
      ensures instance == old(instance)
      ensures defaultStorageLocation == old(defaultStorageLocation) && defaultStorageCloudId == old(defaultStorageCloudId)
    {
      useDefaultTargetStorage := true;
      targetStorage := LocalStorage;
      form := InitialForm;
      action := CloseExportDatasetModal(instance);
    }

    /**
     * Submitting the dialog: with a format selected, the export request
     * for the effective storage and archive name is dispatched, after which
     * the dialog is closed; without one, validation stops it and nothing
     * is dispatched or changed.
     */
    method HandleExport() returns (actions: seq<Action>)
      requires Valid()
      modifies this
      ensures Valid()
      ensures actions != [] <==> TruthyString(old(form).selectedFormat)
      ensures actions != [] ==>
        |actions| == 2 && actions[0].ExportDatasetAsync? && actions[1] == CloseExportDatasetModal(instance)
      ensures actions != [] ==>
        var req := actions[0].request;
        && req.instance == instance
        && req.format == old(form).selectedFormat.value
        && req.saveImages == old(form).saveImages
        && req.useDefaultStorage == old(useDefaultTargetStorage)
        && req.storage == ExportStorage(old(useDefaultTargetStorage), defaultStorageLocation,
                                            defaultStorageCloudId, old(targetStorage))
        && req.fileName == FileName(old(form).customName)
        && useDefaultTargetStorage && targetStorage == LocalStorage && form == InitialForm
      ensures actions == [] ==>
        useDefaultTargetStorage == old(useDefaultTargetStorage)
        && targetStorage == old(targetStorage) && form == old(form)
      ensures instance == old(instance)
      ensures defaultStorageLocation == old(defaultStorageLocation) && defaultStorageCloudId == old(defaultStorageCloudId)
    {
      if !TruthyString(form.selectedFormat) {
        return [];
      }
      var request := ExportRequest(
        instance, form.selectedFormat.value, form.saveImages, useDefaultTargetStorage,
        ExportStorage(useDefaultTargetStorage, defaultStorageLocation, defaultStorageCloudId, targetStorage),
        FileName(form.customName));
      var close := CloseModal();
      actions := [ExportDatasetAsync(request), close];
    }
  }
}
