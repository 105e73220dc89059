/**
 * Crop dimensions for a target aspect ratio (`computeCropDimensions` in src/editor.ts).
 *
 * The source starts from a 1x1 rectangle and adds the ratio's units (rw, rh) while the
 * width is below the source width AND the height is below the source height; it then
 * subtracts rw and rh, both from the height. This module states that result in closed form:
 * the number of steps taken is the least k at which one of the bounds is reached.
 */
module CropGeometry {
  import opened Wrappers
  import opened Decimal

  datatype CropSize = CropSize(width: int, height: int)

  /** What the metadata probe reports about the first video stream; None is `undefined`. */
  datatype ProbeResult =
    | ProbeError(message: string)
    | ProbeMetadata(width: Option<int>, height: Option<int>)

  /** Why a crop computation rejects. */
  datatype CropError = ProbeFailed(message: string) | DimensionsUnavailable

  const DIMENSIONS_ERROR: string := "Video width/height could not be found"

  /** The rejection value of each error, as passed to `reject`. */
  function CropErrorMessage(e: CropError): string {
    match e
    case ProbeFailed(m) => m
    case DimensionsUnavailable => DIMENSIONS_ERROR
  }

  /** A probe error rejects with the probe's own error; missing dimensions with the fixed message. */
  lemma CropErrorMessages(m: string)
    ensures CropErrorMessage(ProbeFailed(m)) == m
    ensures CropErrorMessage(DimensionsUnavailable) == "Video width/height could not be found"
  {
  }

  /** `aspectRatio.split(':')` followed by unary `+` on both parts, for a `digits:digits` string. */
  function ParseRatio(s: string): Option<(nat, nat)> {
    match SplitOnce(s, ':')
    case None => None
    case Some(parts) =>
      match (ParseNat(parts.0), ParseNat(parts.1))
      case (Some(rw), Some(rh)) => Some((rw, rh))
      case _ => None
  }

  /** The `${number}:${number}` string of a ratio. */
  function RatioString(rw: nat, rh: nat): string {
    NatToString(rw) + ":" + NatToString(rh)
  }

  /** A ratio string the stepping loop terminates on for every source size. */
  predicate SteppableRatio(s: string) {
    ParseRatio(s).Some? && (ParseRatio(s).value.0 > 0 || ParseRatio(s).value.1 > 0)
  }

  lemma ParseRatioString(rw: nat, rh: nat)
    ensures ParseRatio(RatioString(rw, rh)) == Some((rw, rh))
  {
    assert RatioString(rw, rh) == NatToString(rw) + [':'] + NatToString(rh);
    NoDigitIsSeparator(NatToString(rw), ':');
    SplitOnceJoin(NatToString(rw), ':', NatToString(rh));
    ParseNatToString(rw);
    ParseNatToString(rh);
  }

  /** The loop guard after k steps: both accumulated sides are still below the source. */
  predicate StepContinues(rw: nat, rh: nat, srcWidth: int, srcHeight: int, k: nat) {
    1 + k * rw < srcWidth && 1 + k * rh < srcHeight
  }

  /** After k steps of `unit`, a side starting at 1 has reached `bound`. */
  predicate Reaches(unit: nat, bound: int, k: nat) {
    1 + k * unit >= bound
  }

  /** The least k at which a side starting at 1 and growing by `unit` reaches `bound`. */
  function StepsToReach(unit: nat, bound: int): nat
    requires unit > 0
  {
    if bound <= 1 then 0 else (bound - 1 + unit - 1) / unit
  }

  /** The number of iterations the stepping loop makes. */
  function CropSteps(rw: nat, rh: nat, srcWidth: int, srcHeight: int): nat
    requires rw > 0 || rh > 0
  {
    if srcWidth <= 1 || srcHeight <= 1 then 0
    else if rw == 0 then StepsToReach(rh, srcHeight)
    else if rh == 0 then StepsToReach(rw, srcWidth)
    else Min(StepsToReach(rw, srcWidth), StepsToReach(rh, srcHeight))
  }

  function Min(a: nat, b: nat): nat {
    if a <= b then a else b
  }

  /** The stepped rectangle with the correction applied to the height only. */
  function CropDimensions(rw: nat, rh: nat, srcWidth: int, srcHeight: int): CropSize
    requires rw > 0 || rh > 0
  {
    var k := CropSteps(rw, rh, srcWidth, srcHeight);
    CropSize(1 + k * rw, 1 + k * rh - rw - rh)
  }

  predicate Truthy(d: Option<int>) {
    d.Some? && d.value != 0
  }

  /** The probe succeeded and both dimensions of its first stream pass the truthiness check. */
  predicate HasDimensions(probe: ProbeResult) {
    probe.ProbeMetadata? && Truthy(probe.height) && Truthy(probe.width)
  }

  /**
   * The settled value of the crop promise for ratio units (rw, rh). A probe error rejects
   * first; a missing or zero dimension rejects next. Later `reject`/`resolve` calls of the
   * source have no effect on a settled promise.
   */
  function CropFromUnits(rw: nat, rh: nat, probe: ProbeResult): (r: Result<CropSize, CropError>)
    requires rw > 0 || rh > 0
    ensures r.Success? <==> HasDimensions(probe)
    ensures probe.ProbeError? ==> r == Failure(ProbeFailed(probe.message))
    ensures probe.ProbeMetadata? && !HasDimensions(probe) ==> r == Failure(DimensionsUnavailable)
    ensures r.Success? ==> r.value == CropDimensions(rw, rh, probe.width.value, probe.height.value)
  {
    match probe
    case ProbeError(m) => Failure(ProbeFailed(m))
    case ProbeMetadata(w, h) =>
      if !Truthy(h) || !Truthy(w) then Failure(DimensionsUnavailable)
      else Success(CropDimensions(rw, rh, w.value, h.value))
  }

  /** The settled value of the crop promise for a ratio string. */
  function CropFromProbe(aspectRatio: string, probe: ProbeResult): Result<CropSize, CropError>
    requires SteppableRatio(aspectRatio)
  {
    var (rw, rh) := ParseRatio(aspectRatio).value;
    CropFromUnits(rw, rh, probe)
  }

  lemma MulMonotone(a: nat, b: nat, u: nat)
    requires a <= b
    ensures a * u <= b * u
  {
    assert b * u - a * u == (b - a) * u;
  }

  /** StepsToReach is the least step count at which the side reaches the bound. */
  lemma StepsToReachIsLeast(unit: nat, bound: int)
    requires unit > 0
    ensures Reaches(unit, bound, StepsToReach(unit, bound))
    ensures forall j: nat :: j < StepsToReach(unit, bound) ==> !Reaches(unit, bound, j)
  {
    var k := StepsToReach(unit, bound);
    if bound > 1 {
      var n := bound - 1;
      var r := (n + unit - 1) % unit;
      assert n + unit - 1 == k * unit + r;
      assert k * unit >= n;
      if k > 0 {
        assert (k - 1) * unit == k * unit - unit;
        forall j: nat | j < k ensures !Reaches(unit, bound, j) {
          MulMonotone(j, k - 1, unit);
        }
      }
    }
  }

  /** Loop shape: CropSteps is the least k after which the loop guard fails. */
  lemma CropStepsIsLeast(rw: nat, rh: nat, srcWidth: int, srcHeight: int)
    requires rw > 0 || rh > 0
    ensures !StepContinues(rw, rh, srcWidth, srcHeight, CropSteps(rw, rh, srcWidth, srcHeight))
    ensures forall j: nat :: j < CropSteps(rw, rh, srcWidth, srcHeight) ==>
      StepContinues(rw, rh, srcWidth, srcHeight, j)
  {
    var k := CropSteps(rw, rh, srcWidth, srcHeight);
    if srcWidth > 1 && srcHeight > 1 {
      if rw > 0 {
        StepsToReachIsLeast(rw, srcWidth);
      }
      if rh > 0 {
        StepsToReachIsLeast(rh, srcHeight);
      }
      forall j: nat | j < k ensures StepContinues(rw, rh, srcWidth, srcHeight, j) {
        if rw > 0 {
          assert j < StepsToReach(rw, srcWidth);
          assert !Reaches(rw, srcWidth, j);
        } else {
          assert 1 + j * rw == 1;
        }
        if rh > 0 {
          assert j < StepsToReach(rh, srcHeight);
          assert !Reaches(rh, srcHeight, j);
        } else {
          assert 1 + j * rh == 1;
        }
      }
      if rw > 0 && (rh == 0 || StepsToReach(rw, srcWidth) <= StepsToReach(rh, srcHeight)) {
        assert k == StepsToReach(rw, srcWidth);
        assert Reaches(rw, srcWidth, k);
      } else {
        assert k == StepsToReach(rh, srcHeight);
        assert Reaches(rh, srcHeight, k);
      }
    }
  }

  /**
   * Bounds: for a probed (non-zero, positive) source size the height ends strictly below
   * the source height, while the width either stayed at 1 or overshoots the source width
   * by less than one width unit.
   */
  lemma CropBounds(rw: nat, rh: nat, srcWidth: int, srcHeight: int)
    requires rw > 0 || rh > 0
    requires srcWidth >= 1 && srcHeight >= 1
    ensures CropDimensions(rw, rh, srcWidth, srcHeight).height < srcHeight
    ensures CropDimensions(rw, rh, srcWidth, srcHeight).width == 1 ||
            CropDimensions(rw, rh, srcWidth, srcHeight).width < srcWidth + rw
  {
    var k := CropSteps(rw, rh, srcWidth, srcHeight);
    CropStepsIsLeast(rw, rh, srcWidth, srcHeight);
    if k > 0 {
      assert StepContinues(rw, rh, srcWidth, srcHeight, k - 1);
      assert k * rw == (k - 1) * rw + rw;
      assert k * rh == (k - 1) * rh + rh;
    }
  }

  /** A source side of at most 1 pixel stops the loop before its first step. */
  lemma CropOfDegenerateSource(rw: nat, rh: nat, srcWidth: int, srcHeight: int)
    requires rw > 0 || rh > 0
    requires srcWidth <= 1 || srcHeight <= 1
    ensures CropDimensions(rw, rh, srcWidth, srcHeight) == CropSize(1, 1 - rw - rh)
  {
  }

  /**
   * Concrete crops for the reel ratio 9:16. A 1920x1080 source gives 613x1064, which is not
   * 9:16 (613 = 1 + 68 * 9 but 1064 + 25 = 1 + 68 * 16). A 1080x1920 source gives a width of
   * 1081, one pixel wider than the source.
   */
  lemma ReelCropExamples()
    ensures CropDimensions(9, 16, 1920, 1080) == CropSize(613, 1064)
    ensures CropDimensions(9, 16, 1080, 1920) == CropSize(1081, 1896)
    ensures CropDimensions(9, 16, 1080, 1920).width > 1080
  {
  }
}
