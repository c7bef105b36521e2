/**
 * The popover for drawing a new shape: the normalisation of the typed number
 * of points, and which controls the popover shows for a shape type and a
 * job dimension.
 */
module DrawShapePopover {

  /** `Number.MAX_SAFE_INTEGER`. */
  const MaxSafeInteger: int := 9007199254740991

  /** The value the points input hands to its handler, after `+value`. */
  datatype PointsInput = Missing | Value(x: real) | NotANumber

  /** What `onChangePoints` receives. */
  datatype PointsCount = Undefined | Count(n: int) | NaN

  /** `clamp(v, lo, hi)` as `min(max(v, lo), hi)`. */
  function Clamp(v: real, lo: real, hi: real): (r: real)
    ensures lo <= hi ==> lo <= r <= hi
    ensures lo <= v <= hi ==> r == v
    ensures lo <= hi && v < lo ==> r == lo
    ensures hi < v || hi < lo ==> r == hi
  {
    if v < lo then (if lo < hi then lo else hi)
    else if v < hi then v else hi
  }

  /** `Math.floor(clamp(v, minimumPoints, MAX_SAFE_INTEGER))` for a numeric value. */
  function NormalisePoints(v: real, minimumPoints: int): (n: int)
    requires minimumPoints <= MaxSafeInteger
    ensures minimumPoints <= n <= MaxSafeInteger
    ensures minimumPoints as real <= v <= MaxSafeInteger as real ==> n as real <= v < n as real + 1.0
  {
    Clamp(v, minimumPoints as real, MaxSafeInteger as real).Floor
  }

  /** The points input's change handler. */
  function OnPointsChange(input: PointsInput, minimumPoints: int): (r: PointsCount)
    requires minimumPoints <= MaxSafeInteger
    ensures input.Missing? <==> r.Undefined?
    ensures input.NotANumber? <==> r.NaN?
    ensures input.Value? ==> r == Count(NormalisePoints(input.x, minimumPoints))
  {
    match input
    case Missing => Undefined
    case Value(x) => Count(NormalisePoints(x, minimumPoints))
    case NotANumber => NaN
  }

  /** Normalising a normalised count changes nothing. */
  lemma NormaliseIdempotent(v: real, minimumPoints: int)
    requires minimumPoints <= MaxSafeInteger
    ensures NormalisePoints(NormalisePoints(v, minimumPoints) as real, minimumPoints) == NormalisePoints(v, minimumPoints)
  {
    var n := NormalisePoints(v, minimumPoints);
    assert Clamp(n as real, minimumPoints as real, MaxSafeInteger as real) == n as real;
  }

  /** A whole number already in range is kept as typed. */
  lemma NormaliseKeepsValidCounts(k: int, minimumPoints: int)
    requires minimumPoints <= k <= MaxSafeInteger
    ensures NormalisePoints(k as real, minimumPoints) == k
  {
  }

  /** More typed points never give fewer points. */
  lemma NormaliseMonotone(a: real, b: real, minimumPoints: int)
    requires minimumPoints <= MaxSafeInteger && a <= b
    ensures NormalisePoints(a, minimumPoints) <= NormalisePoints(b, minimumPoints)
  {
    var ca := Clamp(a, minimumPoints as real, MaxSafeInteger as real);
    var cb := Clamp(b, minimumPoints as real, MaxSafeInteger as real);
    assert ca <= cb;
    assert ca.Floor as real <= ca <= cb < cb.Floor as real + 1.0;
  }

  // ---------------------------------------------------------------------------
  // Controls

  datatype ShapeType = Rectangle | Polygon | Polyline | Points | Ellipse | Cuboid | Mask | Skeleton
  datatype Dimension = Dimension2D | Dimension3D

  datatype Control = RectangleMethod | CuboidMethod | PointsSelector | ShapeButton | TrackButton

  /** The controls below the label selector, for a shape type in a job of a dimension. */
  function Controls(shape: ShapeType, dimension: Dimension): (cs: set<Control>)
    ensures RectangleMethod in cs <==> dimension == Dimension2D && shape == Rectangle
    ensures CuboidMethod in cs <==> dimension == Dimension2D && shape == Cuboid
    ensures PointsSelector in cs <==> dimension == Dimension2D && (shape == Polygon || shape == Polyline || shape == Points)
    ensures ShapeButton in cs
    ensures TrackButton in cs <==> shape != Mask
  {
    var is2D := dimension == Dimension2D;
    (if is2D && shape == Rectangle then {RectangleMethod} else {})
    + (if is2D && shape == Cuboid then {CuboidMethod} else {})
    + (if is2D && (shape == Polygon || shape == Polyline || shape == Points) then {PointsSelector} else {})
    + {ShapeButton}
    + (if shape != Mask then {TrackButton} else {})
  }

  /** At most one of the drawing-method and points controls shows, and none in a 3D job. */
  lemma AtMostOneDrawingOption(shape: ShapeType, dimension: Dimension)
    ensures var cs := Controls(shape, dimension);
      && !(RectangleMethod in cs && CuboidMethod in cs)
      && !(RectangleMethod in cs && PointsSelector in cs)
      && !(CuboidMethod in cs && PointsSelector in cs)
    ensures dimension == Dimension3D ==>
      RectangleMethod !in Controls(shape, dimension) && CuboidMethod !in Controls(shape, dimension)
      && PointsSelector !in Controls(shape, dimension)
  {
  }
}
