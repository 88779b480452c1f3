/**
 * ImageAugmenter.augment (segmentation_augmentations.py): the list of
 * augmented images and the matching list of masks. Flips are modelled on the
 * pixel grid; resizing and rotation are library calls, so they are the
 * `Resampler` functions handed in (one for images, one for masks, as the
 * source resizes images bilinearly and masks by nearest neighbour).
 */
module SegmentationAugmentations {

  /** An image or mask: rows of pixels. */
  type Grid<P> = seq<seq<P>>

  function Reverse<T>(s: seq<T>): (r: seq<T>)
    ensures |r| == |s|
    ensures forall i :: 0 <= i < |s| ==> r[i] == s[|s| - 1 - i]
  {
    seq(|s|, i requires 0 <= i < |s| => s[|s| - 1 - i])
  }

  lemma ReverseTwice<T>(s: seq<T>)
    ensures Reverse(Reverse(s)) == s
  {
  }

  /** `np.flip(g, axis=1)`: each row reversed. */
  function FlipHorizontal<P>(g: Grid<P>): (r: Grid<P>)
    ensures |r| == |g|
  {
    seq(|g|, i requires 0 <= i < |g| => Reverse(g[i]))
  }

  /** `np.flip(g, axis=0)`: the order of the rows reversed. */
  function FlipVertical<P>(g: Grid<P>): (r: Grid<P>)
    ensures |r| == |g|
  {
    Reverse(g)
  }

  /** Flipping twice along one axis gives back the grid. */
  lemma FlipsAreInvolutions<P>(g: Grid<P>)
    ensures FlipHorizontal(FlipHorizontal(g)) == g
    ensures FlipVertical(FlipVertical(g)) == g
  {
    forall i | 0 <= i < |g| ensures FlipHorizontal(FlipHorizontal(g))[i] == g[i] {
      ReverseTwice(g[i]);
    }
  }

  /** The two flips commute, so the "both" flip is the same in either order. */
  lemma FlipsCommute<P>(g: Grid<P>)
    ensures FlipVertical(FlipHorizontal(g)) == FlipHorizontal(FlipVertical(g))
  {
  }

  /** The resize and rotate calls, as functions of the grid and the factor or angle. */
  datatype Resampler<!P> = Resampler(resize: (Grid<P>, real) -> Grid<P>, rotate: (Grid<P>, int) -> Grid<P>)

  /** One augmentation step. */
  datatype Step = FlipX | FlipY | Resize(factor: real) | Rotate(angle: int)

  function ApplyStep<P>(st: Step, g: Grid<P>, rs: Resampler<P>): Grid<P> {
    match st
    case FlipX => FlipHorizontal(g)
    case FlipY => FlipVertical(g)
    case Resize(f) => rs.resize(g, f)
    case Rotate(a) => rs.rotate(g, a)
  }

  /** The steps applied in order. */
  function Apply<P>(steps: seq<Step>, g: Grid<P>, rs: Resampler<P>): Grid<P> {
    if steps == [] then g
    else ApplyStep(steps[|steps| - 1], Apply(steps[..|steps| - 1], g, rs), rs)
  }

  /** The scale factors and rotation angles the augmenter uses. */
  const SCALES: seq<Step> := [Resize(0.5), Resize(1.5)]
  const ANGLES: seq<Step> := [Rotate(90), Rotate(180), Rotate(270)]

  /** Each plan followed by each option in turn: plan 0 with every option, then plan 1, and so on. */
  function Extend(plans: seq<seq<Step>>, options: seq<Step>): (r: seq<seq<Step>>)
    ensures |r| == |plans| * |options|
  {
    if plans == [] then []
    else
      var n := |plans| - 1;
      Extend(plans[..n], options) + seq(|options|, j requires 0 <= j < |options| => plans[n] + [options[j]])
  }

  /**
   * Which steps produce each output entry: the original and its three flips
   * (or just the original), then every entry so far at each scale, then
   * every entry so far at each angle.
   */
  function Plan(doFlip: bool, doScale: bool, doRotate: bool): seq<seq<Step>> {
    var base := if doFlip then [[], [FlipX], [FlipY], [FlipX, FlipY]] else [[]];
    var scaled := if doScale then base + Extend(base, SCALES) else base;
    if doRotate then scaled + Extend(scaled, ANGLES) else scaled
  }

  /** Scaling triples and rotating quadruples the number of entries; all off gives one. */
  lemma PlanSize(doFlip: bool, doScale: bool, doRotate: bool)
    ensures |Plan(doFlip, doScale, doRotate)| ==
      (if doFlip then 4 else 1) * (if doScale then 3 else 1) * (if doRotate then 4 else 1)
  {
    var base: seq<seq<Step>> := if doFlip then [[], [FlipX], [FlipY], [FlipX, FlipY]] else [[]];
    var scaled := if doScale then base + Extend(base, SCALES) else base;
    assert |scaled| == |base| * (if doScale then 3 else 1);
  }

  /** Scaling and rotating only append: the entries before them stay first, in order. */
  lemma PlanAppends(doFlip: bool, doScale: bool, doRotate: bool)
    ensures Plan(doFlip, doScale, false) == Plan(doFlip, doScale, doRotate)[..|Plan(doFlip, doScale, false)|]
    ensures Plan(doFlip, false, false) == Plan(doFlip, doScale, false)[..|Plan(doFlip, false, false)|]
  {
  }

  /** The grid each planned entry becomes. */
  function Realise<P>(plan: seq<seq<Step>>, g: Grid<P>, rs: Resampler<P>): (r: seq<Grid<P>>)
    ensures |r| == |plan|
  {
    seq(|plan|, k requires 0 <= k < |plan| => Apply(plan[k], g, rs))
  }

  /** Every grid with each option applied, grid by grid (the nested loops of the scale and rotate stages). */
  function Variants<P>(gs: seq<Grid<P>>, options: seq<Step>, rs: Resampler<P>): (r: seq<Grid<P>>)
  {
    if gs == [] then []
    else
      var n := |gs| - 1;
      Variants(gs[..n], options, rs) + seq(|options|, j requires 0 <= j < |options| => ApplyStep(options[j], gs[n], rs))
  }

  /**
   * augment: the images and masks it returns are the planned entries
   * applied to the image and to the mask, so entry k of both lists comes
   * from the same steps.
   */
  method Augment<P>(image: Grid<P>, mask: Grid<P>, doFlip: bool, doScale: bool, doRotate: bool,
                    imageRs: Resampler<P>, maskRs: Resampler<P>)
    returns (images: seq<Grid<P>>, masks: seq<Grid<P>>)
    ensures images == Realise(Plan(doFlip, doScale, doRotate), image, imageRs)
    ensures masks == Realise(Plan(doFlip, doScale, doRotate), mask, maskRs)
    ensures |images| == |masks| ==
      (if doFlip then 4 else 1) * (if doScale then 3 else 1) * (if doRotate then 4 else 1)
    ensures !doFlip && !doScale && !doRotate ==> images == [image] && masks == [mask]
    ensures doFlip && !doScale && !doRotate ==>
      images == [image, FlipHorizontal(image), FlipVertical(image), FlipVertical(FlipHorizontal(image))] &&
      masks == [mask, FlipHorizontal(mask), FlipVertical(mask), FlipVertical(FlipHorizontal(mask))]
  {
    PlanSize(doFlip, doScale, doRotate);
    images := [];
    masks := [];
    if !(doFlip || doScale || doRotate) {
      images := images + [image];
      masks := masks + [mask];
      RealiseBase(false, image, imageRs);
      RealiseBase(false, mask, maskRs);
      return;
    }
    if doFlip {
      images := images + [image, FlipHorizontal(image), FlipVertical(image), FlipVertical(FlipHorizontal(image))];
      masks := masks + [mask, FlipHorizontal(mask), FlipVertical(mask), FlipVertical(FlipHorizontal(mask))];
    } else {
      images := images + [image];
      masks := masks + [mask];
    }
    ghost var plan := if doFlip then [[], [FlipX], [FlipY], [FlipX, FlipY]] else [[]];
    RealiseBase(doFlip, image, imageRs);
    RealiseBase(doFlip, mask, maskRs);
    if doScale {
      images, masks := AppendStage(images, masks, SCALES, plan, image, mask, imageRs, maskRs);
      plan := plan + Extend(plan, SCALES);
    }
    if doRotate {
      images, masks := AppendStage(images, masks, ANGLES, plan, image, mask, imageRs, maskRs);
      plan := plan + Extend(plan, ANGLES);
    }
  }

  /**
   * The scale or rotate stage of augment: the entries so far, followed by
   * their variants under every option.
   */
  method AppendStage<P>(images: seq<Grid<P>>, masks: seq<Grid<P>>, options: seq<Step>, ghost plan: seq<seq<Step>>,
                        image: Grid<P>, mask: Grid<P>, imageRs: Resampler<P>, maskRs: Resampler<P>)
    returns (images': seq<Grid<P>>, masks': seq<Grid<P>>)
    requires images == Realise(plan, image, imageRs) && masks == Realise(plan, mask, maskRs)
    ensures images' == Realise(plan + Extend(plan, options), image, imageRs)
    ensures masks' == Realise(plan + Extend(plan, options), mask, maskRs)
  {
    var moreImages, moreMasks := Expand(images, masks, options, imageRs, maskRs);
    RealiseExtend(plan, options, image, imageRs);
    RealiseExtend(plan, options, mask, maskRs);
    RealiseConcat(plan, Extend(plan, options), image, imageRs);
    RealiseConcat(plan, Extend(plan, options), mask, maskRs);
    images' := images + moreImages;
    masks' := masks + moreMasks;
  }

  /** The first stage of the plan, realised. */
  lemma RealiseBase<P>(doFlip: bool, g: Grid<P>, rs: Resampler<P>)
    ensures doFlip ==> (Realise([[], [FlipX], [FlipY], [FlipX, FlipY]], g, rs) ==
      [g, FlipHorizontal(g), FlipVertical(g), FlipVertical(FlipHorizontal(g))])
    ensures Realise([[]], g, rs) == [g]
  {
    var xy: seq<Step> := [FlipX, FlipY];
    assert xy[..1] == [FlipX];
    assert [FlipX][..0] == [] && [FlipY][..0] == [];
    assert Apply([FlipX], g, rs) == FlipHorizontal(g);
    assert Apply([FlipY], g, rs) == FlipVertical(g);
    assert Apply(xy, g, rs) == FlipVertical(FlipHorizontal(g));
  }

  lemma RealiseConcat<P>(a: seq<seq<Step>>, b: seq<seq<Step>>, g: Grid<P>, rs: Resampler<P>)
    ensures Realise(a + b, g, rs) == Realise(a, g, rs) + Realise(b, g, rs)
  {
  }

  /** Realising the extended plan is the same as taking the variants of the realised plan. */
  lemma {:induction false} RealiseExtend<P>(plan: seq<seq<Step>>, options: seq<Step>, g: Grid<P>, rs: Resampler<P>)
    ensures Realise(Extend(plan, options), g, rs) == Variants(Realise(plan, g, rs), options, rs)
  {
    if plan != [] {
      var n := |plan| - 1;
      RealiseExtend(plan[..n], options, g, rs);
      var last := seq(|options|, j requires 0 <= j < |options| => plan[n] + [options[j]]);
      RealiseConcat(Extend(plan[..n], options), last, g, rs);
      assert Realise(plan, g, rs)[..n] == Realise(plan[..n], g, rs);
      forall j | 0 <= j < |options|
        ensures Apply(last[j], g, rs) == ApplyStep(options[j], Apply(plan[n], g, rs), rs)
      {
        assert last[j][..|last[j]| - 1] == plan[n];
      }
    }
  }

  /**
   * The scale or rotate stage of augment: for each image and mask pair, in
   * order, each option applied to both.
   */
  method Expand<P>(images: seq<Grid<P>>, masks: seq<Grid<P>>, options: seq<Step>, imageRs: Resampler<P>, maskRs: Resampler<P>)
    returns (outImages: seq<Grid<P>>, outMasks: seq<Grid<P>>)
    requires |images| == |masks|
    ensures outImages == Variants(images, options, imageRs)
    ensures outMasks == Variants(masks, options, maskRs)
  {
    outImages := [];
    outMasks := [];
    var i := 0;
    while i < |images|
      invariant 0 <= i <= |images|
      invariant outImages == Variants(images[..i], options, imageRs)
      invariant outMasks == Variants(masks[..i], options, maskRs)
    {
      var j := 0;
      ghost var doneImages := outImages;
      ghost var doneMasks := outMasks;
      while j < |options|
        invariant 0 <= j <= |options|
        invariant outImages == doneImages + seq(j, k requires 0 <= k < j => ApplyStep(options[k], images[i], imageRs))
        invariant outMasks == doneMasks + seq(j, k requires 0 <= k < j => ApplyStep(options[k], masks[i], maskRs))
      {
        outImages := outImages + [ApplyStep(options[j], images[i], imageRs)];
        outMasks := outMasks + [ApplyStep(options[j], masks[i], maskRs)];
        j := j + 1;
      }
      assert images[..i + 1][..i] == images[..i];
      assert masks[..i + 1][..i] == masks[..i];
      i := i + 1;
    }
    assert images[..i] == images;
    assert masks[..i] == masks;
  }
}
