/**
 * The ground-truth job form: a percentage ("quantity") and a frame count
 * kept in step with each other, and the payload sent on submit.
 */
module JobForm {
  import opened Common

  datatype JobType = GroundTruth
  datatype FrameSelectionMethod = RandomUniform

  const DefaultQuantity: int := 5

  /**
   * `Math.round(value * taskSize / 100)`: the integer nearest to
   * value * taskSize / 100, halves rounded up.
   */
  function QuantityToFrames(value: int, taskSize: int): (frames: int)
    ensures 100 * frames - 50 <= value * taskSize < 100 * frames + 50
  {
    (value * taskSize + 50) / 100
  }

  /** `Math.floor(value / taskSize * 100)`, computed exactly. */
  function FramesToQuantity(value: int, taskSize: int): (quantity: int)
    requires taskSize > 0
    ensures quantity * taskSize <= value * 100 < (quantity + 1) * taskSize
  {
    value * 100 / taskSize
  }

  /** The initial frame count, `Math.floor(5 * taskSize / 100)`. */
  function InitialFrameCount(taskSize: int): (frames: int)
    ensures 100 * frames <= DefaultQuantity * taskSize < 100 * frames + 100
  {
    DefaultQuantity * taskSize / 100
  }

  /** The initial frame count is the handler's rounding of 5%, or one less. */
  lemma InitialFrameCountVsHandler(taskSize: int)
    ensures InitialFrameCount(taskSize) <= QuantityToFrames(DefaultQuantity, taskSize) <= InitialFrameCount(taskSize) + 1
  {
    var i := InitialFrameCount(taskSize);
    var f := QuantityToFrames(DefaultQuantity, taskSize);
    assert 100 * i <= 5 * taskSize < 100 * i + 100;
    assert 100 * f - 50 <= 5 * taskSize < 100 * f + 50;
    assert 100 * i < 100 * f + 50;
    assert 100 * f - 50 < 100 * i + 100;
  }

  /** On a 10-frame task the two disagree: 5% starts at 0 frames, but typing 5 gives 1. */
  lemma InitialFrameCountDiffers()
    ensures InitialFrameCount(10) == 0 && QuantityToFrames(DefaultQuantity, 10) == 1
  {
    assert 100 * InitialFrameCount(10) <= 50 < 100 * InitialFrameCount(10) + 100;
    assert 100 * QuantityToFrames(DefaultQuantity, 10) - 50 <= 50 < 100 * QuantityToFrames(DefaultQuantity, 10) + 50;
  }

  /** When value * taskSize is a multiple of 100, percent -> frames -> percent is exact. */
  lemma QuantityRoundTripExact(value: int, taskSize: int)
    requires taskSize > 0 && (value * taskSize) % 100 == 0
    ensures FramesToQuantity(QuantityToFrames(value, taskSize), taskSize) == value
  {
    var f := QuantityToFrames(value, taskSize);
    var k := (value * taskSize) / 100;
    assert value * taskSize == 100 * k;
    assert f == k;
    var q := FramesToQuantity(f, taskSize);
    assert q * taskSize <= value * taskSize < (q + 1) * taskSize;
    MultiplyMonotone(q, value, taskSize);
    MultiplyMonotone(value, q + 1, taskSize);
  }

  /** a * t <= b * t with t > 0 gives a <= b; strict likewise. */
  lemma MultiplyMonotone(a: int, b: int, t: int)
    requires t > 0
    ensures a * t <= b * t ==> a <= b
    ensures a * t < b * t ==> a < b
  {
    if a > b {
      assert a * t - b * t == (a - b) * t;
    }
    if a >= b {
      assert a * t - b * t == (a - b) * t;
    }
  }

  /** On tasks of more than 50 frames, percent -> frames -> percent loses at most one point. */
  lemma QuantityRoundTripWithinOne(value: int, taskSize: int)
    requires taskSize > 50
    ensures value - 1 <= FramesToQuantity(QuantityToFrames(value, taskSize), taskSize) <= value
  {
    var f := QuantityToFrames(value, taskSize);
    var q := FramesToQuantity(f, taskSize);
    assert 100 * f - 50 <= value * taskSize < 100 * f + 50;
    assert q * taskSize <= f * 100 < (q + 1) * taskSize;
    // q * T <= 100 f < v T + 50 < v T + T = (v + 1) T
    assert q * taskSize < (value + 1) * taskSize;
    MultiplyMonotone(q, value + 1, taskSize);
    // (q + 1) T > 100 f >= v T - 50 > (v - 1) T
    assert (value - 1) * taskSize < (q + 1) * taskSize;
    MultiplyMonotone(value - 1, q + 1, taskSize);
  }

  /** On a 7-frame task, 50% becomes 4 frames, which reads back as 57%. */
  lemma SmallTaskDrifts()
    ensures QuantityToFrames(50, 7) == 4 && FramesToQuantity(4, 7) == 57
  {
  }

  /** Frames -> percent -> frames never overshoots, and on tasks of at most 100 frames loses at most one frame. */
  lemma FramesRoundTrip(count: int, taskSize: int)
    requires taskSize > 0
    ensures QuantityToFrames(FramesToQuantity(count, taskSize), taskSize) <= count
    ensures taskSize <= 100 ==> count - 1 <= QuantityToFrames(FramesToQuantity(count, taskSize), taskSize)
  {
    var q := FramesToQuantity(count, taskSize);
    var f := QuantityToFrames(q, taskSize);
    assert q * taskSize <= count * 100 < (q + 1) * taskSize;
    assert 100 * f - 50 <= q * taskSize < 100 * f + 50;
    assert 100 * f - 50 < 100 * count;
    assert (q + 1) * taskSize == q * taskSize + taskSize;
  }

  /** A percentage within the input's bounds 1..100 gives a frame count within 0..taskSize. */
  lemma QuantityToFramesBounds(value: int, taskSize: int)
    requires taskSize > 0 && 1 <= value <= 100
    ensures 0 <= QuantityToFrames(value, taskSize) <= taskSize
  {
    var f := QuantityToFrames(value, taskSize);
    assert value * taskSize <= 100 * taskSize by { MultiplyMonotoneLeft(value, 100, taskSize); }
    assert value * taskSize >= taskSize by { MultiplyMonotoneLeft(1, value, taskSize); }
  }

  lemma MultiplyMonotoneLeft(a: int, b: int, t: int)
    requires t > 0 && a <= b
    ensures a * t <= b * t
  {
    assert b * t - a * t == (b - a) * t;
  }

  /** A frame count within 1..taskSize gives a percentage within 0..100, and 0 exactly when 100 * count < taskSize. */
  lemma FramesToQuantityBounds(count: int, taskSize: int)
    requires taskSize > 0 && 1 <= count <= taskSize
    ensures 0 <= FramesToQuantity(count, taskSize) <= 100
    ensures FramesToQuantity(count, taskSize) == 0 <==> 100 * count < taskSize
  {
    var q := FramesToQuantity(count, taskSize);
    assert q * taskSize <= count * 100 < (q + 1) * taskSize;
    assert count * 100 <= 100 * taskSize;
    MultiplyMonotone(q, 100, taskSize);
    assert 0 * taskSize < (q + 1) * taskSize;
    MultiplyMonotone(0, q + 1, taskSize);
    if 100 * count < taskSize {
      assert q * taskSize < 1 * taskSize;
      MultiplyMonotone(q, 1, taskSize);
    }
  }

  /** The payload `submit` sends: the quantity is not part of it. */
  datatype JobData = JobData(
    taskId: int,
    frameSelectionMethod: FrameSelectionMethod,
    jobType: JobType,
    seed: Option<int>,
    frameCount: int)

  /** The form store of the job form, with the task it creates a job for. */
  class JobFormState {
    const taskId: int
    const taskSize: int
    var jobType: Option<JobType>
    var frameSelectionMethod: Option<FrameSelectionMethod>
    var quantity: Option<int>
    var frameCount: Option<int>
    var seed: Option<int>

    /** The form's initial values: ground truth, random selection, 5% and the floor of 5% of the frames. */
    constructor (taskId: int, taskSize: int)
      requires taskSize > 0
      ensures this.taskId == taskId && this.taskSize == taskSize
      ensures jobType == Some(GroundTruth) && frameSelectionMethod == Some(RandomUniform)
      ensures quantity == Some(DefaultQuantity) && frameCount == Some(InitialFrameCount(taskSize))
      ensures seed == None
    {
      this.taskId := taskId;
      this.taskSize := taskSize;
      jobType := Some(GroundTruth);
      frameSelectionMethod := Some(RandomUniform);
      quantity := Some(DefaultQuantity);
      frameCount := Some(InitialFrameCount(taskSize));
      seed := None;
    }

    /** `onQuantityChange`: a truthy percentage sets the frame count; nothing else changes. */
    method OnQuantityChange(value: Option<int>)
      modifies this
      ensures TruthyNumber(value) ==> frameCount == Some(QuantityToFrames(value.value, taskSize))
      ensures !TruthyNumber(value) ==> frameCount == old(frameCount)
      ensures quantity == old(quantity) && seed == old(seed)
      ensures jobType == old(jobType) && frameSelectionMethod == old(frameSelectionMethod)
    {
      if TruthyNumber(value) {
        frameCount := Some(QuantityToFrames(value.value, taskSize));
      }
    }

    /** `onFrameCountChange`: a truthy frame count sets the percentage; nothing else changes. */
    method OnFrameCountChange(value: Option<int>)
      requires taskSize > 0
      modifies this
      ensures TruthyNumber(value) ==> quantity == Some(FramesToQuantity(value.value, taskSize))
      ensures !TruthyNumber(value) ==> quantity == old(quantity)
      ensures frameCount == old(frameCount) && seed == old(seed)
      ensures jobType == old(jobType) && frameSelectionMethod == old(frameSelectionMethod)
    {
      if TruthyNumber(value) {
        quantity := Some(FramesToQuantity(value.value, taskSize));
      }
    }

    /** The user types a percentage: the field takes the value, then the handler runs once. */
    method EnterQuantity(value: Option<int>)
      modifies this
      ensures quantity == value
      ensures frameCount == if TruthyNumber(value) then Some(QuantityToFrames(value.value, taskSize)) else old(frameCount)
      ensures seed == old(seed) && jobType == old(jobType) && frameSelectionMethod == old(frameSelectionMethod)
    {
      quantity := value;
      OnQuantityChange(value);
    }

    /** The user types a frame count: the field takes the value, then the handler runs once. */
    method EnterFrameCount(value: Option<int>)
      requires taskSize > 0
      modifies this
      ensures frameCount == value
      ensures quantity == if TruthyNumber(value) then Some(FramesToQuantity(value.value, taskSize)) else old(quantity)
      ensures seed == old(seed) && jobType == old(jobType) && frameSelectionMethod == old(frameSelectionMethod)
    {
      frameCount := value;
      OnFrameCountChange(value);
    }

    /**
     * `submit`: the payload, or nothing when a required field (type, selection
     * method, quantity, frame count) is empty.
     */
    method Submit() returns (r: Option<JobData>)
      ensures r.Some? <==> jobType.Some? && frameSelectionMethod.Some? && quantity.Some? && frameCount.Some?
      ensures r.Some? ==>
        && r.value.taskId == taskId && r.value.frameCount == frameCount.value
        && r.value.seed == seed && r.value.jobType == jobType.value
        && r.value.frameSelectionMethod == frameSelectionMethod.value
    {
      if jobType.None? || frameSelectionMethod.None? || quantity.None? || frameCount.None? {
        return None;
      }
      r := Some(JobData(taskId, frameSelectionMethod.value, jobType.value, seed, frameCount.value));
    }
  }
}
