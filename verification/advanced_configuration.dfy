/**
 * The advanced part of the task-creation form: the per-field rules
 * (integer ranges, segment size against overlap, start frame against stop
 * frame, bug-tracker URL), the initial values and the reset of the form
 * store, and the payload assembled on submit, including the resolution of
 * the source and target storages against the owning project.
 *
 * A field value is what the rules see after JavaScript's `+value`
 * coercion: `undefined`, the empty string, a finite number, or NaN.
 */
module AdvancedConfiguration {
  import opened Common
  import opened Storage
  import ValidationPatterns

  datatype FieldValue = Undefined | Blank | Num(x: real) | NotANumber

  /** The rules treat `undefined` and `''` as "no value". */
  predicate Present(v: FieldValue)
  {
    !v.Undefined? && !v.Blank?
  }

  /** `Number.isInteger(+value)`. */
  predicate IsIntegral(v: FieldValue)
  {
    v.Num? && v.x == v.x.Floor as real
  }

  datatype SortingMethod = Lexicographical | Natural | Predefined | Random

  datatype Field =
    | SortingMethodField | ImageQuality | OverlapSize | SegmentSize | StartFrame
    | StopFrame | FrameStep | DataChunkSize | BugTracker

  datatype RuleError =
    | Required                 // "The field is required." / required-rule message
    | NotAnInteger             // "Value must be a positive integer"
    | BelowMin(min: int)       // "Value must be more than ${min}"
    | AboveMax(max: int)       // "Value must be less than ${max}"
    | SegmentNotAboveOverlap   // "Segment size must be more than overlap size"
    | StartAfterStop           // "Start frame must not be more than stop frame"
    | InvalidUrl               // "URL is not a valid URL"

  datatype Outcome = Pass | Fail(error: RuleError)

  // ---------------------------------------------------------------------------
  // Rules

  /**
   * `isInteger({min, max})`: no value passes; otherwise the value must be an
   * integer, then at least `min`, then at most `max`.
   */
  function IsInteger(min: Option<int>, max: Option<int>, v: FieldValue): (r: Outcome)
    ensures !Present(v) ==> r == Pass
    ensures Present(v) && !IsIntegral(v) ==> r == Fail(NotAnInteger)
    ensures r == Pass <==>
      !Present(v) ||
      (IsIntegral(v) && (min.Some? ==> v.x >= min.value as real) && (max.Some? ==> v.x <= max.value as real))
    ensures r.Fail? && r.error.BelowMin? ==> min == Some(r.error.min) && v.x < r.error.min as real
    ensures r.Fail? && r.error.AboveMax? ==> max == Some(r.error.max) && v.x > r.error.max as real
  {
    if !Present(v) then Pass
    else if !IsIntegral(v) then Fail(NotAnInteger)
    else if min.Some? && v.x < min.value as real then Fail(BelowMin(min.value))
    else if max.Some? && v.x > max.value as real then Fail(AboveMax(max.value))
    else Pass
  }

  /** `+a <= +b` on coerced values: any comparison with NaN is false. */
  predicate NumLessEq(a: FieldValue, b: FieldValue)
  {
    a.Num? && b.Num? && a.x <= b.x
  }

  /** `validateOverlapSize`: with both present, the segment must be longer than the overlap. */
  function ValidateOverlapSize(overlap: FieldValue, segment: FieldValue): (r: Outcome)
    ensures r == Fail(SegmentNotAboveOverlap) || r == Pass
    ensures r.Fail? <==> Present(overlap) && Present(segment) && NumLessEq(segment, overlap)
  {
    if Present(overlap) && Present(segment) && NumLessEq(segment, overlap)
    then Fail(SegmentNotAboveOverlap) else Pass
  }

  /** `validateStopFrame`: with both present, the start frame must not exceed the stop frame. */
  function ValidateStopFrame(stop: FieldValue, start: FieldValue): (r: Outcome)
    ensures r == Fail(StartAfterStop) || r == Pass
    ensures r.Fail? <==> Present(stop) && Present(start) && start.Num? && stop.Num? && start.x > stop.x
  {
    if Present(stop) && Present(start) && start.Num? && stop.Num? && start.x > stop.x
    then Fail(StartAfterStop) else Pass
  }

  /** `validateURL`: no URL, or an empty one, passes; otherwise the URL pattern decides. */
  function ValidateUrl(url: Option<string>): (r: Outcome)
    ensures r == Fail(InvalidUrl) || r == Pass
    ensures r == Pass <==> !TruthyString(url) || ValidationPatterns.UrlPattern(ValidationPatterns.Utf16(url.value))
  {
    if TruthyString(url) && !ValidationPatterns.UrlPattern(ValidationPatterns.Utf16(url.value)) then Fail(InvalidUrl) else Pass
  }

  // ---------------------------------------------------------------------------
  // The form store

  datatype FormValues = FormValues(
    sortingMethod: Option<SortingMethod>,
    imageQuality: FieldValue,
    overlapSize: FieldValue,
    segmentSize: FieldValue,
    startFrame: FieldValue,
    stopFrame: FieldValue,
    frameStep: FieldValue,
    dataChunkSize: FieldValue,
    bugTracker: Option<string>,
    useZipChunks: bool,
    useCache: bool,
    copyData: bool,
    useProjectSourceStorage: bool,
    useProjectTargetStorage: bool,
    sourceStorage: StorageData,
    targetStorage: StorageData)

  /** The form's `initialValues`. */
  const InitialValues: FormValues := FormValues(
    Some(Lexicographical), Num(70.0), Undefined, Undefined, Undefined, Undefined,
    Undefined, Undefined, None, true, true, false, true, true, LocalStorage, LocalStorage)

  /** The required rule: `undefined` and `''` fail. */
  function RequiredRule(v: FieldValue): Outcome
  {
    if Present(v) then Pass else Fail(Required)
  }

  /** The error of the first failing rule among two rules attached to one field. */
  function FirstOf(a: Outcome, b: Outcome): (r: Option<RuleError>)
    ensures r.None? <==> a == Pass && b == Pass
  {
    if a.Fail? then Some(a.error) else if b.Fail? then Some(b.error) else None
  }

  function ErrorOf(a: Outcome): (r: Option<RuleError>)
    ensures r.None? <==> a == Pass
  {
    if a.Fail? then Some(a.error) else None
  }

  /**
   * The first failing rule of one field, in the order the rules are
   * attached: only the sorting method and the image quality are required,
   * only the image quality has a maximum (100), the minimum is 5 for the
   * image quality, 1 for the segment size, frame step and chunk size, 0 for
   * the overlap and the two frames, and each cross-field or URL error
   * belongs to one field.
   */
  function FieldError(f: Field, v: FormValues): (r: Option<RuleError>)
    ensures r == Some(Required) ==> f == SortingMethodField || f == ImageQuality
    ensures r.Some? && r.value.AboveMax? ==> f == ImageQuality && r.value.max == 100
    ensures r.Some? && r.value.BelowMin? ==>
      r.value.min == (if f == ImageQuality then 5
                      else if f == SegmentSize || f == FrameStep || f == DataChunkSize then 1
                      else 0)
      && f != SortingMethodField && f != BugTracker
    ensures r == Some(SegmentNotAboveOverlap) ==> f == OverlapSize
    ensures r == Some(StartAfterStop) ==> f == StopFrame
    ensures r == Some(InvalidUrl) ==> f == BugTracker
    ensures r == Some(NotAnInteger) ==> f != SortingMethodField && f != BugTracker
  {
    match f
    case SortingMethodField => if v.sortingMethod.None? then Some(Required) else None
    case ImageQuality => FirstOf(RequiredRule(v.imageQuality), IsInteger(Some(5), Some(100), v.imageQuality))
    case OverlapSize =>
      FirstOf(IsInteger(Some(0), None, v.overlapSize), ValidateOverlapSize(v.overlapSize, v.segmentSize))
    case SegmentSize => ErrorOf(IsInteger(Some(1), None, v.segmentSize))
    case StartFrame => ErrorOf(IsInteger(Some(0), None, v.startFrame))
    case StopFrame =>
      FirstOf(IsInteger(Some(0), None, v.stopFrame), ValidateStopFrame(v.stopFrame, v.startFrame))
    case FrameStep => ErrorOf(IsInteger(Some(1), None, v.frameStep))
    case DataChunkSize => ErrorOf(IsInteger(Some(1), None, v.dataChunkSize))
    case BugTracker => ErrorOf(ValidateUrl(v.bugTracker))
  }

  /** The fields in the order they are declared in the form. */
  const FieldOrder: seq<Field> := [
    SortingMethodField, ImageQuality, OverlapSize, SegmentSize, StartFrame,
    StopFrame, FrameStep, DataChunkSize, BugTracker]

  /** The first field, in declaration order, whose rules fail. */
  function FirstInvalid(fields: seq<Field>, v: FormValues): (r: Option<(Field, RuleError)>)
    ensures r.None? <==> forall i :: 0 <= i < |fields| ==> FieldError(fields[i], v).None?
    ensures r.Some? ==> r.value.0 in fields && FieldError(r.value.0, v) == Some(r.value.1)
    ensures r.Some? ==> exists i :: 0 <= i < |fields| && fields[i] == r.value.0
                                   && forall j :: 0 <= j < i ==> FieldError(fields[j], v).None?
  {
    if |fields| == 0 then None
    else
      var e := FieldError(fields[0], v);
      if e.Some? then Some((fields[0], e.value)) else FirstInvalid(fields[1..], v)
  }

  predicate AllValid(v: FormValues)
  {
    FirstInvalid(FieldOrder, v).None?
  }

  // ---------------------------------------------------------------------------
  // Submit

  /** The owning project's storages; a missing (falsy) storage is `None`. */
  datatype Project = Project(sourceStorage: Option<StorageData>, targetStorage: Option<StorageData>)

  /**
   * How the `core.projects.get` promise settles: it rejects, or it resolves
   * to a list whose first element (`const [project] = ...`) may be missing.
   */
  datatype ProjectFetch = Rejected | Resolved(first: Option<Project>)

  datatype Configuration = Configuration(
    values: FormValues,
    frameFilter: Option<string>,
    sourceStorage: StorageData,
    targetStorage: StorageData)

  datatype SubmitOutcome =
    | Submitted(config: Configuration)
    | Invalid(field: Field, error: RuleError)
    | FetchRejected     // the project request rejected, so `Promise.all` rejects
    | MissingProject    // a toggle dereferences the missing project and throws a TypeError

  /**
   * `frameStep ? `step=${frameStep}` : undefined`, on a frame step that has
   * passed its rule (absent, or an integer of at least 1).
   */
  function FrameFilter(frameStep: FieldValue): (r: Option<string>)
    requires !Present(frameStep) || (IsIntegral(frameStep) && frameStep.x >= 1.0)
    ensures r.Some? <==> Present(frameStep)
    ensures r.Some? ==> "step=" <= r.value && r.value[5..] == NatToDecimal(frameStep.x.Floor)
  {
    if Present(frameStep) then Some("step=" + NatToDecimal(frameStep.x.Floor)) else None
  }

  /**
   * The effective storage of one role: the project's own storage, or local
   * when the project has none, if the role's toggle is on and there is a
   * project; the form's storage otherwise.
   */
  function ResolveStorage(useProject: bool, project: Option<Project>, own: StorageData,
                          projectStorage: Project -> Option<StorageData>): (r: StorageData)
    ensures !useProject || project.None? ==> r == own
    ensures useProject && project.Some? ==>
      (projectStorage(project.value) == Some(r) || (projectStorage(project.value).None? && r == LocalStorage))
  {
    if useProject && project.Some? then
      var stored := projectStorage(project.value);
      if stored.Some? then stored.value else LocalStorage
    else own
  }

  /** The keys of the form store, as `Object.entries(values)` lists them. */
  const FormKeys: seq<string> := [
    "sortingMethod", "imageQuality", "overlapSize", "segmentSize", "startFrame",
    "stopFrame", "frameStep", "dataChunkSize", "bugTracker", "useZipChunks",
    "useCache", "copyData", "useProjectSourceStorage", "useProjectTargetStorage",
    "sourceStorage", "targetStorage"]

  /** `Object.entries(values).filter((entry) => entry[0] !== frameFilter)`, on the keys. */
  function KeptKeys(keys: seq<string>, frameFilter: Option<string>): (r: seq<string>)
    ensures |r| <= |keys|
  {
    if |keys| == 0 then []
    else (if frameFilter == Some(keys[0]) then [] else [keys[0]]) + KeptKeys(keys[1..], frameFilter)
  }

  /** The entry filter only drops keys equal to the frame filter. */
  lemma {:induction false} KeptKeysWithout(keys: seq<string>, frameFilter: Option<string>)
    requires frameFilter.None? || frameFilter.value !in keys
    ensures KeptKeys(keys, frameFilter) == keys
  {
    if |keys| > 0 {
      KeptKeysWithout(keys[1..], frameFilter);
      assert keys == [keys[0]] + keys[1..];
    }
  }

  /** The entry filter in submit removes nothing: no form key looks like `step=N`. */
  lemma KeptKeysKeepsForm(frameFilter: Option<string>)
    requires frameFilter.None? || "step=" <= frameFilter.value
    ensures KeptKeys(FormKeys, frameFilter) == FormKeys
  {
    if frameFilter.Some? {
      var f := frameFilter.value;
      assert f[2] == 'e' && f[3] == 'p';
      forall i | 0 <= i < |FormKeys| ensures FormKeys[i] != f {
        assert !(FormKeys[i][2] == 'e' && FormKeys[i][3] == 'p');
      }
    }
    KeptKeysWithout(FormKeys, frameFilter);
  }

  /** Whether submit requests the project: exactly when `projectId` is truthy. */
  predicate FetchesProject(projectId: Option<int>)
  {
    TruthyNumber(projectId)
  }

  /**
   * `submit()` with the form's values and, when `projectId` is truthy, the
   * settled `core.projects.get` call (ignored otherwise). Both storages of
   * the task are resolved from that one fetched project. A rejected
   * validation is reported before a rejected fetch.
   */
  function Submit(v: FormValues, projectId: Option<int>, fetch: ProjectFetch): (r: SubmitOutcome)
    ensures r.Invalid? <==> !AllValid(v)
    ensures r.Invalid? ==> FieldError(r.field, v) == Some(r.error)
    ensures r.FetchRejected? <==> AllValid(v) && TruthyNumber(projectId) && fetch.Rejected?
    ensures r.MissingProject? <==>
      AllValid(v) && TruthyNumber(projectId) && fetch == Resolved(None)
        && (v.useProjectSourceStorage || v.useProjectTargetStorage)
    ensures r.Submitted? ==> r.config.values == v
  {
    var invalid := FirstInvalid(FieldOrder, v);
    if invalid.Some? then Invalid(invalid.value.0, invalid.value.1)
    else if FetchesProject(projectId) && fetch.Rejected? then FetchRejected
    else if FetchesProject(projectId) && fetch.first.None?
            && (v.useProjectSourceStorage || v.useProjectTargetStorage) then MissingProject
    else
      assert FieldOrder[6] == FrameStep;
      var project := if FetchesProject(projectId) then fetch.first else None;
      Submitted(Configuration(
        v,
        FrameFilter(v.frameStep),
        ResolveStorage(v.useProjectSourceStorage, project, v.sourceStorage, (p: Project) => p.sourceStorage),
        ResolveStorage(v.useProjectTargetStorage, project, v.targetStorage, (p: Project) => p.targetStorage)))
  }

  // ---------------------------------------------------------------------------
  // Properties of the rules

  /** Field wiring: each numeric field's rules accept an integer exactly in its range. */
  lemma FieldRanges(v: FormValues)
    ensures v.imageQuality.Num? && IsIntegral(v.imageQuality) ==>
      (FieldError(ImageQuality, v).None? <==> 5.0 <= v.imageQuality.x <= 100.0)
    ensures FieldError(ImageQuality, v) == Some(Required) <==> !Present(v.imageQuality)
    ensures IsIntegral(v.segmentSize) ==> (FieldError(SegmentSize, v).None? <==> v.segmentSize.x >= 1.0)
    ensures IsIntegral(v.startFrame) ==> (FieldError(StartFrame, v).None? <==> v.startFrame.x >= 0.0)
    ensures IsIntegral(v.frameStep) ==> (FieldError(FrameStep, v).None? <==> v.frameStep.x >= 1.0)
    ensures IsIntegral(v.dataChunkSize) ==> (FieldError(DataChunkSize, v).None? <==> v.dataChunkSize.x >= 1.0)
  {
  }

  /** Overlap field: with integral values present, it passes iff 0 <= overlap < segment. */
  lemma OverlapRule(v: FormValues)
    requires IsIntegral(v.overlapSize) && IsIntegral(v.segmentSize)
    ensures FieldError(OverlapSize, v).None? <==> 0.0 <= v.overlapSize.x < v.segmentSize.x
  {
  }

  /** Stop frame field: with integral values present, it passes iff 0 <= start <= stop. */
  lemma StopFrameRule(v: FormValues)
    requires IsIntegral(v.stopFrame) && IsIntegral(v.startFrame) && v.startFrame.x >= 0.0
    ensures FieldError(StopFrame, v).None? <==> v.startFrame.x <= v.stopFrame.x
  {
  }

  /** The initial values pass every rule. */
  lemma InitialValuesValid()
    ensures AllValid(InitialValues)
  {
    assert (70.0).Floor == 70;
    assert FieldError(ImageQuality, InitialValues).None?;
    assert forall i :: 0 <= i < |FieldOrder| ==> FieldError(FieldOrder[i], InitialValues).None?;
  }

  // ---------------------------------------------------------------------------
  // Properties of submit

  /** A form that fails a rule is rejected, naming the first failing field in declaration order. */
  lemma SubmitRejectsInvalid(v: FormValues, projectId: Option<int>, fetch: ProjectFetch)
    requires !AllValid(v)
    ensures Submit(v, projectId, fetch).Invalid?
    ensures var r := Submit(v, projectId, fetch); FieldError(r.field, v) == Some(r.error)
    ensures var r := Submit(v, projectId, fetch);
      exists i :: 0 <= i < |FieldOrder| && FieldOrder[i] == r.field
                  && forall j :: 0 <= j < i ==> FieldError(FieldOrder[j], v).None?
  {
  }

  /**
   * An overlap equal to the segment size is rejected on the overlap field
   * whenever the two fields before it pass, whatever the later fields hold.
   */
  lemma EqualOverlapRejected(v: FormValues, projectId: Option<int>, fetch: ProjectFetch)
    requires FieldError(SortingMethodField, v).None? && FieldError(ImageQuality, v).None?
    requires IsIntegral(v.overlapSize) && v.overlapSize.x >= 0.0 && v.overlapSize == v.segmentSize
    ensures Submit(v, projectId, fetch) == Invalid(OverlapSize, SegmentNotAboveOverlap)
  {
    assert FieldError(OverlapSize, v) == Some(SegmentNotAboveOverlap);
    var rest := FieldOrder[2..];
    assert rest[0] == OverlapSize;
    assert FirstInvalid(rest, v) == Some((OverlapSize, SegmentNotAboveOverlap));
    assert FieldOrder[1..][1..] == rest;
    assert FieldOrder[1..][0] == ImageQuality;
    assert FirstInvalid(FieldOrder[1..], v) == Some((OverlapSize, SegmentNotAboveOverlap));
    assert FieldOrder[0] == SortingMethodField;
  }

  /** With a project, each storage is the project's (or local) when its toggle is on, the form's otherwise. */
  lemma SubmitWithProject(v: FormValues, projectId: Option<int>, p: Project)
    requires AllValid(v) && TruthyNumber(projectId)
    ensures Submit(v, projectId, Resolved(Some(p))).Submitted?
    ensures var c := Submit(v, projectId, Resolved(Some(p))).config;
      && c.sourceStorage == (if v.useProjectSourceStorage
                             then (if p.sourceStorage.Some? then p.sourceStorage.value else LocalStorage)
                             else v.sourceStorage)
      && c.targetStorage == (if v.useProjectTargetStorage
                             then (if p.targetStorage.Some? then p.targetStorage.value else LocalStorage)
                             else v.targetStorage)
      && c.values == v
  {
  }

  /** Without a project id, both storages come from the form whatever the toggles say. */
  lemma SubmitWithoutProject(v: FormValues, projectId: Option<int>, fetch: ProjectFetch)
    requires AllValid(v) && !TruthyNumber(projectId)
    ensures Submit(v, projectId, fetch).Submitted?
    ensures var c := Submit(v, projectId, fetch).config;
      c.sourceStorage == v.sourceStorage && c.targetStorage == v.targetStorage
  {
  }

  /** Without a project request, the fetch cannot affect the outcome. */
  lemma SubmitIgnoresFetchWithoutProject(v: FormValues, projectId: Option<int>, f1: ProjectFetch, f2: ProjectFetch)
    requires !FetchesProject(projectId)
    ensures Submit(v, projectId, f1) == Submit(v, projectId, f2)
  {
  }

  /** With a project request, the fetch decides a valid form's outcome: a rejection is reported as such. */
  lemma SubmitReportsRejectedFetch(v: FormValues, projectId: Option<int>)
    requires AllValid(v) && FetchesProject(projectId)
    ensures Submit(v, projectId, Rejected) == FetchRejected
  {
  }

  /**
   * A project fetch that resolves to no project: with both toggles off the
   * form's own storages are submitted, the missing project never being read;
   * with either toggle on the missing project is dereferenced and nothing is
   * submitted.
   */
  lemma SubmitWithEmptyResponse(v: FormValues, projectId: Option<int>)
    requires AllValid(v) && TruthyNumber(projectId)
    ensures !v.useProjectSourceStorage && !v.useProjectTargetStorage ==>
      Submit(v, projectId, Resolved(None)).Submitted?
      && Submit(v, projectId, Resolved(None)).config.sourceStorage == v.sourceStorage
      && Submit(v, projectId, Resolved(None)).config.targetStorage == v.targetStorage
    ensures v.useProjectSourceStorage || v.useProjectTargetStorage ==>
      Submit(v, projectId, Resolved(None)) == MissingProject
  {
  }

  /** After validation, the frame filter is `step=N` exactly when a frame step was given. */
  lemma SubmitFrameFilter(v: FormValues, projectId: Option<int>, fetch: ProjectFetch)
    requires Submit(v, projectId, fetch).Submitted?
    ensures var c := Submit(v, projectId, fetch).config;
      && (Present(v.frameStep) ==>
            (IsIntegral(v.frameStep) && v.frameStep.x >= 1.0 &&
             c.frameFilter == Some("step=" + NatToDecimal(v.frameStep.x.Floor))))
      && (!Present(v.frameStep) ==> c.frameFilter.None?)
  {
    assert FieldError(FrameStep, v).None? by {
      assert FieldOrder[6] == FrameStep;
    }
  }

  // ---------------------------------------------------------------------------
  // The form component

  /** The component, holding the form store its `formRef` points at. */
  class AdvancedConfigurationForm {
    var values: FormValues

    constructor ()
      ensures values == InitialValues
    {
      values := InitialValues;
    }

    /** `resetFields()`: the store returns to the initial values. */
    method ResetFields()
      modifies this
      ensures values == InitialValues
      ensures AllValid(values)
    {
      values := InitialValues;
      InitialValuesValid();
    }

    /** `submit()` against the current store; the store itself is left as it is. */
    method SubmitForm(projectId: Option<int>, fetch: ProjectFetch) returns (r: SubmitOutcome)
      ensures r == Submit(values, projectId, fetch)
      ensures r.Submitted? <==>
        AllValid(values) && (TruthyNumber(projectId) ==>
          fetch.Resolved? && (fetch.first.Some? || (!values.useProjectSourceStorage && !values.useProjectTargetStorage)))
      ensures r.Submitted? ==> r.config.values == values
      ensures r.Invalid? ==> FieldError(r.field, values) == Some(r.error)
    {
      r := Submit(values, projectId, fetch);
    }
  }
}
