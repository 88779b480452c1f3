/**
 * Building the segmentation training set (segmentation/dataset_pipeline.py):
 * which files of the upload folder are taken as images, which mask belongs
 * to each, and the train/validation split of the augmented rows. The upload
 * folder is its listing of file names; saving the CSVs is not modelled.
 */
module SegmentationDatasetPipeline {
  import opened Text
  import opened Sorting
  import opened Numbers

  /** The image type the pipeline accepts (models/config.py). */
  const SUPPORTED_IMAGE_TYPES: string := ".png"
  /** What marks a mask file (models/config.py). */
  const MASK_POSTFIX: string := "_mask"
  /** The train and validation fractions the preparer is built with. */
  const SPLIT_FRACTIONS: seq<real> := [1.0, 0.0]

  /** An image and its mask, with the base name the augmented copies are saved under. */
  datatype Sample = Sample(image: string, mask: string, baseName: string)

  /** `sorted` on file names, as a comparison for SortBy. */
  function ByName(): (le: (string, string) -> bool)
    ensures forall a, b :: le(a, b) == StrLe(a, b)
  {
    (a: string, b: string) => StrLe(a, b)
  }

  lemma ByNamePreorder()
    ensures TotalPreorder(ByName())
  {
    forall a, b ensures ByName()(a, b) || ByName()(b, a) {
      StrLeTotal(a, b);
    }
    forall a, b, c | ByName()(a, b) && ByName()(b, c) ensures ByName()(a, c) {
      StrLeTrans(a, b, c);
    }
  }

  /** A file is taken as an image when it ends in ".png" and does not contain "_mask". */
  predicate IsImageFile(f: string) {
    EndsWith(f, SUPPORTED_IMAGE_TYPES) && !Contains(f, MASK_POSTFIX)
  }

  /** The image files of a listing: the listing sorted by name, then filtered. */
  function ImageFiles(listing: seq<string>): (r: seq<string>)
    ensures forall i :: 0 <= i < |r| ==> r[i] in listing && IsImageFile(r[i])
    ensures forall f :: f in listing && IsImageFile(f) ==> f in r
    ensures SortedBy(r, ByName())
  {
    ByNamePreorder();
    SortThenFilter(listing, ByName(), IsImageFile);
    Filter(SortBy(listing, ByName()), IsImageFile)
  }

  /** `filename.split('.')[0]`: the name up to its first dot. */
  function Stem(f: string): (r: string)
    ensures StartsWith(f, r) && '.' !in r
  {
    var r := BeforeFirst(f, ".");
    assert '.' !in r by {
      if '.' in r {
        var k :| 0 <= k < |r| && r[k] == '.';
        assert OccursAt(r, ".", k);
      }
    }
    r
  }

  function MaskName(f: string): string {
    Stem(f) + MASK_POSTFIX + ".png"
  }

  /** A mask name is never itself taken as an image. */
  lemma MaskIsNotImage(f: string)
    ensures !IsImageFile(MaskName(f))
  {
    var m := MaskName(f);
    assert OccursAt(m, MASK_POSTFIX, |Stem(f)|);
  }

  /** Whether the listing holds the image's mask, as a test for Filter. */
  function HasMask(listing: seq<string>): (p: string -> bool)
    ensures forall f :: p(f) == (MaskName(f) in listing)
  {
    (f: string) => MaskName(f) in listing
  }

  function SampleOf(f: string): Sample {
    Sample(f, MaskName(f), Stem(f))
  }

  /** The samples create_dataset processes, in order: the image files whose mask file is in the listing. */
  function Samples(listing: seq<string>): seq<Sample> {
    var paired := Filter(ImageFiles(listing), HasMask(listing));
    seq(|paired|, i requires 0 <= i < |paired| => SampleOf(paired[i]))
  }

  /**
   * Every sample is a listed image paired with its listed mask; every listed
   * image whose mask is listed is a sample; images without a mask are
   * skipped; samples come in name order.
   */
  lemma SamplesSpec(listing: seq<string>)
    ensures forall i :: 0 <= i < |Samples(listing)| ==>
      Samples(listing)[i].image in listing && IsImageFile(Samples(listing)[i].image) &&
      Samples(listing)[i].mask in listing && Samples(listing)[i] == SampleOf(Samples(listing)[i].image)
    ensures forall f :: f in listing && IsImageFile(f) && MaskName(f) in listing ==>
      exists i :: 0 <= i < |Samples(listing)| && Samples(listing)[i].image == f
    ensures forall i, j :: 0 <= i < j < |Samples(listing)| ==> StrLe(Samples(listing)[i].image, Samples(listing)[j].image)
  {
    var images := ImageFiles(listing);
    var paired := Filter(images, HasMask(listing));
    var r := Samples(listing);
    forall i | 0 <= i < |r|
      ensures r[i].image in listing && IsImageFile(r[i].image) && r[i].mask in listing && r[i] == SampleOf(r[i].image)
    {
      assert r[i] == SampleOf(paired[i]);
      assert paired[i] in images && HasMask(listing)(paired[i]);
    }
    forall f | f in listing && IsImageFile(f) && MaskName(f) in listing
      ensures exists i :: 0 <= i < |r| && r[i].image == f
    {
      assert f in images;
      assert f in paired;
      var i :| 0 <= i < |paired| && paired[i] == f;
      assert r[i].image == f;
    }
    SubseqSorted(paired, images, ByName());
    forall i, j | 0 <= i < j < |r| ensures StrLe(r[i].image, r[j].image) {
      assert ByName()(paired[i], paired[j]);
    }
  }

  /** The number of training rows the fraction asks for: floor(fraction * total). */
  function TrainRows(fraction: real, total: nat): int {
    (fraction * total as real).Floor
  }

  /** Where `rows[:int(total * fraction)]` cuts: the truncated product as a slice bound. */
  function TrainCut(total: nat, fraction: real): (r: nat)
    ensures r <= total
  {
    SliceBound(Trunc(total as real * fraction), total)
  }

  /** For a fraction within 0..1 the cut is the requested number of rows; a fraction of 1 takes every row. */
  lemma TrainCount(total: nat, fraction: real)
    requires 0.0 <= fraction <= 1.0
    ensures TrainCut(total, fraction) == TrainRows(fraction, total)
    ensures fraction == 1.0 ==> TrainCut(total, fraction) == total
  {
    var x := total as real * fraction;
    assert x == fraction * total as real;
    assert x <= total as real by { MulAtMostOne(fraction, total as real); }
    assert 0.0 <= x by { MulNonNegative(total as real, fraction); }
  }

  lemma MulNonNegative(a: real, b: real)
    requires 0.0 <= a && 0.0 <= b
    ensures 0.0 <= a * b
  {
  }

  /**
   * _split_and_save: the first int(total * fraction) rows train, the rest
   * validate; when validation would be empty and training is not, the last
   * training row moves to validation.
   */
  method SplitAndSave<T>(rows: seq<T>, trainFraction: real) returns (train: seq<T>, val: seq<T>)
    ensures train + val == rows
    ensures |rows| >= 1 ==> |val| >= 1
    ensures 0.0 <= trainFraction <= 1.0 && |rows| >= 1 ==>
      |train| == Min(TrainRows(trainFraction, |rows|), |rows| - 1)
    ensures trainFraction == SPLIT_FRACTIONS[0] && |rows| >= 1 ==>
      train == rows[..|rows| - 1] && val == [rows[|rows| - 1]]
  {
    var total := |rows|;
    var trainCount := TrainCut(total, trainFraction);
    if 0.0 <= trainFraction <= 1.0 {
      TrainCount(total, trainFraction);
    }
    train := rows[..trainCount];
    val := rows[trainCount..];
    if val == [] && train != [] {
      val := train[|train| - 1..];
      train := train[..|train| - 1];
    }
    assert train + val == rows;
  }
}
