/**
 * apply_lut: split a three-channel image into its planes, remap plane 0
 * through lut_r, plane 1 through lut_g and plane 2 through lut_b (cv2.LUT),
 * and merge the planes back in the same order.
 */
module LutApply {
  import opened ToneCurve
  import opened Wrappers

  /** A height × width grid of samples of one channel. */
  type Plane = seq<seq<Byte>>

  /**
   * A uint8 image of shape (height, width, channels), stored as rows of
   * pixels of samples. Images are values: an operation returns a new image
   * and cannot change the one it was given.
   */
  datatype Image = Image(height: nat, width: nat, channels: nat, samples: seq<seq<seq<Byte>>>)
  {
    /** The samples form a full height × width × channels array. */
    predicate Valid() {
      && |samples| == height
      && forall y :: 0 <= y < height ==>
           && |samples[y]| == width
           && forall x :: 0 <= x < width ==> |samples[y][x]| == channels
    }
  }

  /** Why `r, g, b = cv2.split(image)` fails: the image has a number of planes other than three. */
  datatype Error = UnpackMismatch(expected: nat, got: nat)

  predicate PlaneShaped(p: Plane, h: nat, w: nat) {
    |p| == h && forall y :: 0 <= y < h ==> |p[y]| == w
  }

  /** cv2.split: plane c holds sample c of every pixel. */
  function Split(img: Image): (planes: seq<Plane>)
    requires img.Valid()
    ensures |planes| == img.channels
    ensures forall c :: 0 <= c < |planes| ==> PlaneShaped(planes[c], img.height, img.width)
    ensures forall c, y, x :: 0 <= c < |planes| && 0 <= y < img.height && 0 <= x < img.width ==>
      PlaneShaped(planes[c], img.height, img.width) && planes[c][y][x] == img.samples[y][x][c]
  {
    seq(img.channels, c requires 0 <= c < img.channels =>
      seq(img.height, y requires 0 <= y < img.height =>
        seq(img.width, x requires 0 <= x < img.width => img.samples[y][x][c])))
  }

  /** cv2.LUT on one plane: every sample s becomes lut[s]. */
  function LookUp(p: Plane, lut: seq<Byte>): (q: Plane)
    requires |lut| == TableSize
    ensures forall h: nat, w: nat :: PlaneShaped(p, h, w) ==> PlaneShaped(q, h, w)
    ensures |q| == |p| && forall y :: 0 <= y < |p| ==>
      |q[y]| == |p[y]| && forall x :: 0 <= x < |p[y]| ==> q[y][x] == lut[p[y][x]]
  {
    seq(|p|, y requires 0 <= y < |p| =>
      seq(|p[y]|, x requires 0 <= x < |p[y]| => lut[p[y][x]]))
  }

  /** cv2.merge: pixel (y, x) of the result holds sample (y, x) of each plane, in plane order. */
  function Merge(h: nat, w: nat, planes: seq<Plane>): (img: Image)
    requires forall c :: 0 <= c < |planes| ==> PlaneShaped(planes[c], h, w)
    ensures img.Valid() && img.height == h && img.width == w && img.channels == |planes|
    ensures forall c, y, x :: 0 <= c < |planes| && 0 <= y < h && 0 <= x < w ==>
      PlaneShaped(planes[c], h, w) && img.samples[y][x][c] == planes[c][y][x]
  {
    Image(h, w, |planes|,
      seq(h, y requires 0 <= y < h =>
        seq(w, x requires 0 <= x < w =>
          seq(|planes|, c requires 0 <= c < |planes| =>
            assert PlaneShaped(planes[c], h, w); planes[c][y][x]))))
  }

  /**
   * apply_lut. An image without exactly three channels fails at the
   * unpacking of cv2.split's result; otherwise the result has the input's
   * height and width, three channels, and channel c of every pixel is the
   * c-th table applied to channel c of the input pixel.
   */
  function ApplyLut(img: Image, lutR: seq<Byte>, lutG: seq<Byte>, lutB: seq<Byte>): (res: Result<Image, Error>)
    requires img.Valid()
    requires |lutR| == TableSize && |lutG| == TableSize && |lutB| == TableSize
    ensures res.Success? <==> img.channels == 3
    ensures res.Failure? ==> res.error == UnpackMismatch(3, img.channels)
    ensures res.Success? ==>
      && res.value.Valid()
      && res.value.height == img.height && res.value.width == img.width && res.value.channels == 3
      && forall y, x :: 0 <= y < img.height && 0 <= x < img.width ==>
           && res.value.samples[y][x][0] == lutR[img.samples[y][x][0]]
           && res.value.samples[y][x][1] == lutG[img.samples[y][x][1]]
           && res.value.samples[y][x][2] == lutB[img.samples[y][x][2]]
  {
    var planes := Split(img);
    if |planes| != 3 then
      Failure(UnpackMismatch(3, |planes|))
    else
      var r, g, b := planes[0], planes[1], planes[2];
      Success(Merge(img.height, img.width, [LookUp(r, lutR), LookUp(g, lutG), LookUp(b, lutB)]))
  }

  /** Merging the planes that split produced gives back the image. */
  lemma MergeSplit(img: Image)
    requires img.Valid()
    ensures Merge(img.height, img.width, Split(img)) == img
  {
    var m := Merge(img.height, img.width, Split(img));
    forall y | 0 <= y < img.height ensures m.samples[y] == img.samples[y] {
      forall x | 0 <= x < img.width ensures m.samples[y][x] == img.samples[y][x] {
      }
    }
  }

  /** Splitting a merged image gives back the planes it was merged from. */
  lemma SplitMerge(h: nat, w: nat, planes: seq<Plane>)
    requires forall c :: 0 <= c < |planes| ==> PlaneShaped(planes[c], h, w)
    ensures Split(Merge(h, w, planes)) == planes
  {
    var s := Split(Merge(h, w, planes));
    forall c | 0 <= c < |planes| ensures s[c] == planes[c] {
      forall y | 0 <= y < h ensures s[c][y] == planes[c][y] {
      }
    }
  }

  /** Looking a plane up in the identity table gives back the plane. */
  lemma LookUpIdentity(p: Plane, lut: seq<Byte>)
    requires IsIdentityLut(lut)
    ensures LookUp(p, lut) == p
  {
    var q := LookUp(p, lut);
    forall y | 0 <= y < |p| ensures q[y] == p[y] {
    }
  }

  /** apply_lut with three identity tables returns the input image unchanged. */
  lemma ApplyIdentityLut(img: Image, id: seq<Byte>)
    requires img.Valid() && img.channels == 3 && IsIdentityLut(id)
    ensures ApplyLut(img, id, id, id) == Success(img)
  {
    var planes := Split(img);
    LookUpIdentity(planes[0], id);
    LookUpIdentity(planes[1], id);
    LookUpIdentity(planes[2], id);
    assert [planes[0], planes[1], planes[2]] == planes;
    MergeSplit(img);
  }
}
