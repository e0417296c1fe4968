/**
 * The pure parts of CameraHelper: choosing a preview size from the sizes a
 * camera supports, the area comparator, the video-size filter, and the search
 * for a camera with a given lens direction. Camera queries are replaced by the
 * values they return, passed in as sequences.
 */
module CameraHelper {
  import opened Common

  /** Java's 32-bit int and 64-bit long. */
  newtype int32 = x: int | -0x8000_0000 <= x < 0x8000_0000
  newtype int64 = x: int | -0x8000_0000_0000_0000 <= x < 0x8000_0000_0000_0000

  /** android.util.Size: a width and a height, each a Java int. */
  datatype Size = Size(width: int32, height: int32)

  /** The mathematical area of a size (no overflow). */
  function Area(s: Size): int {
    s.width as int * s.height as int
  }

  function Sign(x: int): int {
    if x < 0 then -1 else if x == 0 then 0 else 1
  }

  /** Multiplying by a non-negative factor keeps a non-strict order. */
  lemma MulMonotone(x: int, y: int, z: int)
    requires x <= y && 0 <= z
    ensures x * z <= y * z
  {
    assert y * z - x * z == (y - x) * z;
  }

  /**
   * The product of two Java ints lies between -2^31 * (2^31 - 1) and 2^62
   * (reached by -2^31 * -2^31).
   */
  lemma Int32ProductBounds(a: int, b: int)
    requires -0x8000_0000 <= a < 0x8000_0000 && -0x8000_0000 <= b < 0x8000_0000
    ensures -0x3FFF_FFFF_8000_0000 <= a * b <= 0x4000_0000_0000_0000
  {
    if a < 0 && b < 0 {
      MulMonotone(-a, 0x8000_0000, -b);
      MulMonotone(-b, 0x8000_0000, 0x8000_0000);
      assert a * b == (-a) * (-b);
    } else if a < 0 {
      MulMonotone(b, 0x7FFF_FFFF, -a);
      MulMonotone(-a, 0x8000_0000, 0x7FFF_FFFF);
      assert a * b == -((-a) * b);
    } else if b < 0 {
      MulMonotone(a, 0x7FFF_FFFF, -b);
      MulMonotone(-b, 0x8000_0000, 0x7FFF_FFFF);
      assert a * b == -(a * (-b));
    } else {
      MulMonotone(a, 0x7FFF_FFFF, b);
      MulMonotone(b, 0x7FFF_FFFF, 0x7FFF_FFFF);
    }
  }

  /** `(long) s.getWidth() * s.getHeight()`: the area in 64-bit arithmetic, which cannot overflow. */
  function LongArea(s: Size): (a: int64)
    ensures a as int == Area(s)
    ensures -0x3FFF_FFFF_8000_0000 <= a as int <= 0x4000_0000_0000_0000
  {
    Int32ProductBounds(s.width as int, s.height as int);
    (s.width as int64) * (s.height as int64)
  }

  /**
   * CompareSizesByArea.compare: Long.signum of the difference of the two
   * widened areas. The result is the sign of the exact area difference: the
   * long subtraction cannot overflow either.
   */
  function CompareSizesByArea(lhs: Size, rhs: Size): (r: int)
    ensures r == Sign(Area(lhs) - Area(rhs))
  {
    var d: int64 := LongArea(lhs) - LongArea(rhs);
    if d < 0 then -1 else if d == 0 then 0 else 1
  }

  /** The comparator is antisymmetric and is zero exactly on equal areas. */
  lemma CompareAntisymmetric(a: Size, b: Size)
    ensures CompareSizesByArea(a, b) == -CompareSizesByArea(b, a)
    ensures CompareSizesByArea(a, b) == 0 <==> Area(a) == Area(b)
  {
  }

  /** The comparator's order is transitive. */
  lemma CompareTransitive(a: Size, b: Size, c: Size)
    requires CompareSizesByArea(a, b) <= 0 && CompareSizesByArea(b, c) <= 0
    ensures CompareSizesByArea(a, c) <= 0
  {
  }

  /** An option meets both requested minimum dimensions. */
  predicate BigEnough(option: Size, width: int32, height: int32) {
    option.width >= width && option.height >= height
  }

  /** The list chooseOptimalSize builds: the big-enough options, in order. */
  function FilterBigEnough(choices: seq<Size>, width: int32, height: int32): seq<Size>
  {
    if choices == [] then []
    else
      var last := choices[|choices| - 1];
      FilterBigEnough(choices[..|choices| - 1], width, height)
        + (if BigEnough(last, width, height) then [last] else [])
  }

  /** The filtered list holds exactly the big-enough options. */
  lemma {:induction false} FilterBigEnoughMembers(choices: seq<Size>, width: int32, height: int32)
    ensures forall x :: x in FilterBigEnough(choices, width, height) <==>
                        x in choices && BigEnough(x, width, height)
  {
    if choices != [] {
      var init := choices[..|choices| - 1];
      FilterBigEnoughMembers(init, width, height);
      assert choices == init + [choices[|choices| - 1]];
    }
  }

  /**
   * The filter keeps order: the element at position k of the filtered list
   * stands at some position i of the input, and every big-enough option
   * before i is among the first k filtered elements.
   */
  lemma {:induction false} FilterBigEnoughOrder(choices: seq<Size>, width: int32, height: int32, k: nat)
    requires k < |FilterBigEnough(choices, width, height)|
    ensures exists i :: 0 <= i < |choices| && choices[i] == FilterBigEnough(choices, width, height)[k] &&
              forall j :: 0 <= j < i && BigEnough(choices[j], width, height) ==>
                choices[j] in FilterBigEnough(choices, width, height)[..k]
  {
    var init := choices[..|choices| - 1];
    var last := choices[|choices| - 1];
    var f := FilterBigEnough(choices, width, height);
    var fi := FilterBigEnough(init, width, height);
    assert f == fi + (if BigEnough(last, width, height) then [last] else []);
    if k < |fi| {
      FilterBigEnoughOrder(init, width, height, k);
      var i :| 0 <= i < |init| && init[i] == fi[k] &&
               forall j :: 0 <= j < i && BigEnough(init[j], width, height) ==> init[j] in fi[..k];
      assert f[..k] == fi[..k];
      assert choices[i] == f[k];
    } else {
      assert k == |fi| && BigEnough(last, width, height);
      FilterBigEnoughMembers(init, width, height);
      assert f[..k] == fi;
      var i := |choices| - 1;
      assert choices[i] == f[k];
      forall j | 0 <= j < i && BigEnough(choices[j], width, height)
        ensures choices[j] in f[..k]
      {
        assert choices[j] == init[j];
      }
    }
  }

  /**
   * Collections.min with CompareSizesByArea: keeps the first element and
   * replaces it only by a strictly smaller one, so it returns the first
   * element of least area.
   */
  method MinByArea(xs: seq<Size>) returns (m: Size, ghost k: nat)
    requires |xs| > 0
    ensures k < |xs| && xs[k] == m
    ensures forall x :: x in xs ==> Area(m) <= Area(x)
    ensures forall j :: 0 <= j < k ==> Area(xs[j]) > Area(m)
  {
    m, k := xs[0], 0;
    var i := 1;
    while i < |xs|
      invariant 1 <= i <= |xs|
      invariant k < i && xs[k] == m
      invariant forall j :: 0 <= j < i ==> Area(m) <= Area(xs[j])
      invariant forall j :: 0 <= j < k ==> Area(xs[j]) > Area(m)
    {
      if CompareSizesByArea(xs[i], m) < 0 {
        m, k := xs[i], i;
      }
      i := i + 1;
    }
  }

  /**
   * chooseOptimalSize: the smallest-area option that meets both minimum
   * dimensions (the earliest such one on ties), or choices[0] when none does.
   * An empty array makes the Java code fail on choices[0], so it is excluded.
   */
  method ChooseOptimalSize(choices: seq<Size>, width: int32, height: int32) returns (r: Size)
    requires |choices| > 0
    ensures r in choices
    ensures (exists c :: c in choices && BigEnough(c, width, height)) ==>
              && BigEnough(r, width, height)
              && (forall c :: c in choices && BigEnough(c, width, height) ==> Area(r) <= Area(c))
              && (exists i :: 0 <= i < |choices| && choices[i] == r &&
                    forall j :: 0 <= j < i && BigEnough(choices[j], width, height) ==>
                      Area(choices[j]) > Area(r))
    ensures (forall c :: c in choices ==> !BigEnough(c, width, height)) ==> r == choices[0]
  {
    var bigEnough: seq<Size> := [];
    for i := 0 to |choices|
      invariant bigEnough == FilterBigEnough(choices[..i], width, height)
    {
      assert choices[..i + 1] == choices[..i] + [choices[i]];
      if BigEnough(choices[i], width, height) {
        bigEnough := bigEnough + [choices[i]];
      }
    }
    assert choices[..|choices|] == choices;
    FilterBigEnoughMembers(choices, width, height);
    if |bigEnough| > 0 {
      ghost var k;
      r, k := MinByArea(bigEnough);
      FilterBigEnoughOrder(choices, width, height, k);
      ghost var i :| 0 <= i < |choices| && choices[i] == bigEnough[k] &&
               forall j :: 0 <= j < i && BigEnough(choices[j], width, height) ==> choices[j] in bigEnough[..k];
      forall j | 0 <= j < i && BigEnough(choices[j], width, height)
        ensures Area(choices[j]) > Area(r)
      {
        var q :| 0 <= q < k && bigEnough[q] == choices[j];
      }
    } else {
      r := choices[0];
    }
  }

  /** verifyVideoSize: a size is safe to record when its width is at most 1080. */
  predicate VerifyVideoSize(option: Size) {
    option.width <= 1080
  }

  /** The video filter looks at the width alone, with 1080 as the last width let through. */
  lemma VerifyVideoSizeByWidth(option: Size, otherHeight: int32)
    ensures VerifyVideoSize(option) <==> VerifyVideoSize(Size(option.width, otherHeight))
    ensures VerifyVideoSize(Size(1080, otherHeight)) && !VerifyVideoSize(Size(1081, otherHeight))
  {
  }

  /** CameraCharacteristics.LENS_FACING values. */
  const LENS_FACING_FRONT: int := 0
  const LENS_FACING_BACK: int := 1

  /**
   * What the camera manager reports for one camera: its id and its
   * LENS_FACING value, which is a boxed Integer and may be absent.
   */
  datatype CameraInfo = CameraInfo(id: string, lensFacing: Option<int>)

  /**
   * The outcome of getPreferredCameraId: the IllegalArgumentException for a
   * camera type other than front or back, the null return, or a camera id.
   */
  datatype Selection = InvalidCameraType | NoCamera | Camera(id: string)

  /**
   * The search got past the first k cameras: each reported a facing, and it
   * was not the one asked for. An absent facing makes the comparison unbox
   * null; the resulting NullPointerException is caught and ends the search.
   */
  ghost predicate Passed(cameras: seq<CameraInfo>, k: int, cameraType: int)
    requires 0 <= k <= |cameras|
  {
    forall j :: 0 <= j < k ==> cameras[j].lensFacing.Some? && cameras[j].lensFacing.value != cameraType
  }

  /**
   * getPreferredCameraId over the list of cameras in the order the camera
   * manager lists them: the first camera whose facing is the requested one.
   */
  method GetPreferredCameraId(cameras: seq<CameraInfo>, cameraType: int) returns (r: Selection)
    ensures r == InvalidCameraType <==> cameraType != LENS_FACING_FRONT && cameraType != LENS_FACING_BACK
    ensures r.Camera? <==>
              r != InvalidCameraType &&
              exists k :: 0 <= k < |cameras| && Passed(cameras, k, cameraType) &&
                          cameras[k].lensFacing == Some(cameraType)
    ensures r.Camera? ==>
              exists k :: 0 <= k < |cameras| && Passed(cameras, k, cameraType) &&
                          cameras[k].lensFacing == Some(cameraType) && cameras[k].id == r.id
  {
    if cameraType != LENS_FACING_FRONT && cameraType != LENS_FACING_BACK {
      return InvalidCameraType;
    }
    var i := 0;
    while i < |cameras|
      invariant 0 <= i <= |cameras|
      invariant Passed(cameras, i, cameraType)
    {
      var facing := cameras[i].lensFacing;
      if facing.None? {
        // Unboxing the absent LENS_FACING throws; the handler returns null.
        forall k | i < k < |cameras| ensures !Passed(cameras, k, cameraType) {
          assert !(cameras[i].lensFacing.Some?);
        }
        return NoCamera;
      }
      if facing.value == cameraType {
        return Camera(cameras[i].id);
      }
      i := i + 1;
    }
    return NoCamera;
  }

  /**
   * When every camera reports its facing, the search finds a camera exactly
   * when one faces the requested way, and then it finds the first such one.
   */
  lemma {:induction false} PreferredCameraWhenFacingsKnown(cameras: seq<CameraInfo>, cameraType: int, k: nat)
    requires forall j :: 0 <= j < |cameras| ==> cameras[j].lensFacing.Some?
    requires k < |cameras| && cameras[k].lensFacing == Some(cameraType)
    requires forall j :: 0 <= j < k ==> cameras[j].lensFacing != Some(cameraType)
    ensures Passed(cameras, k, cameraType)
    ensures forall k' ::
              0 <= k' < |cameras| && Passed(cameras, k', cameraType) && cameras[k'].lensFacing == Some(cameraType)
              ==> k' == k
  {
  }
}
