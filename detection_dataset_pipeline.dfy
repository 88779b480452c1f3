/**
 * Building the detection training set (detection/dataset_pipeline.py): nine
 * augmented entries per uploaded image, the train/test split of the shuffled
 * pool, and the conversion of a pool into a COCO file with consecutive ids.
 */
module DetectionDatasetPipeline {
  import opened Wrappers
  import opened Text
  import opened Sorting
  import opened Coco
  import opened DetectionAugmentations
  import opened Numbers

  /** One image of the CSV rows: its boxes and their labels, and the size the CSV states. */
  datatype CsvImage = CsvImage(name: string, boxes: seq<BBox>, labels: seq<string>, width: int, height: int)

  /**
   * The uploaded image file as the pipeline reads it: its pixel size, and the
   * factor that the `scale` augmentation drew for it.
   */
  datatype ImageFile = ImageFile(width: int, height: int, scaleFactor: real)

  /** An entry of the augmented pool. */
  datatype PoolItem = PoolItem(imageName: string, width: int, height: int, boxes: seq<BBox>, labels: seq<string>)

  /** The augmentations, in the order the pipeline applies them. */
  const AUGMENTATIONS: seq<string> :=
    ["original", "scale", "flip_hor", "flip_vert", "flip_both", "rotate_90", "rotate_180", "rotate_270", "bright"]

  /** `Path(image_name + ".png").name`. */
  function PngName(imageName: string): string {
    Basename(imageName) + ".png"
  }

  /** `Path(image_name + ".png").stem`: the name without its ".png" (a bare ".png" has no suffix). */
  function PngStem(imageName: string): string {
    if Basename(imageName) == [] then ".png" else Basename(imageName)
  }

  /** The file an augmentation writes: the source name for "original", else "{aug}_{stem}.png". */
  function AugFileName(aug: string, imageName: string): string {
    if aug == "original" then PngName(imageName) else aug + "_" + PngStem(imageName) + ".png"
  }

  /**
   * The k-th augmentation of an image. Boxes are transformed with the size
   * the CSV states; the entry's size is the pixel size of the augmented file.
   */
  function Entry(img: CsvImage, file: ImageFile, k: nat): (e: PoolItem)
    requires k < |AUGMENTATIONS|
    ensures e.imageName == AugFileName(AUGMENTATIONS[k], img.name) && e.labels == img.labels
  {
    var name := AugFileName(AUGMENTATIONS[k], img.name);
    var (w, h) := (file.width, file.height);
    var (cw, ch) := (img.width, img.height);
    if k == 0 then PoolItem(name, w, h, img.boxes, img.labels)
    else if k == 1 then
      var (sw, sh) := ScaledSize(w, h, file.scaleFactor);
      PoolItem(name, sw, sh, Scale(img.boxes, file.scaleFactor), img.labels)
    else if k == 2 then PoolItem(name, w, h, Flip(img.boxes, 1, cw, ch), img.labels)
    else if k == 3 then PoolItem(name, w, h, Flip(img.boxes, 0, cw, ch), img.labels)
    else if k == 4 then PoolItem(name, w, h, Flip(img.boxes, -1, cw, ch), img.labels)
    else if k == 8 then PoolItem(name, w, h, AdjustBrightness(img.boxes), img.labels)
    else
      var angle := if k == 5 then Clockwise90 else if k == 6 then Half else CounterClockwise90;
      var (rw, rh) := RotatedSize(angle, w, h);
      PoolItem(name, rw, rh, Rotate(img.boxes, angle, cw, ch), img.labels)
  }

  /** The nine pool entries of one image, in AUGMENTATIONS order, all carrying the image's labels. */
  function AugmentedEntries(img: CsvImage, file: ImageFile): (r: seq<PoolItem>)
    ensures |r| == |AUGMENTATIONS|
    ensures forall k :: 0 <= k < |r| ==> r[k] == Entry(img, file, k)
    ensures forall k :: 0 <= k < |r| ==> r[k].imageName == AugFileName(AUGMENTATIONS[k], img.name) && r[k].labels == img.labels
  {
    seq(|AUGMENTATIONS|, k requires 0 <= k < |AUGMENTATIONS| => Entry(img, file, k))
  }

  predicate AllInside(boxes: seq<BBox>, width: int, height: int) {
    forall i :: 0 <= i < |boxes| ==> Inside(boxes[i], width, height)
  }

  /**
   * When the CSV size is the file's pixel size and every box lies inside the
   * image, every augmented entry's boxes lie inside that entry's image.
   */
  lemma EntriesStayInside(img: CsvImage, file: ImageFile, k: nat)
    requires k < |AUGMENTATIONS|
    requires file.width == img.width && file.height == img.height && file.scaleFactor >= 0.0
    requires AllInside(img.boxes, img.width, img.height)
    ensures AllInside(Entry(img, file, k).boxes, Entry(img, file, k).width, Entry(img, file, k).height)
  {
    var e := Entry(img, file, k);
    forall i | 0 <= i < |e.boxes| ensures Inside(e.boxes[i], e.width, e.height) {
      var b := img.boxes[i];
      if k == 1 {
        ScaleStaysInside(b, file.scaleFactor, img.width, img.height);
      } else if k == 2 {
        FlipStaysInside(b, 1, img.width, img.height);
      } else if k == 3 {
        FlipStaysInside(b, 0, img.width, img.height);
      } else if k == 4 {
        FlipStaysInside(b, -1, img.width, img.height);
      } else if 5 <= k <= 7 {
        var angle := if k == 5 then Clockwise90 else if k == 6 then Half else CounterClockwise90;
        RotateStaysInside(b, angle, img.width, img.height);
      }
    }
  }

  /** Two different (non-empty) augmentation names never write the same file for one image. */
  lemma AugFileNameInjective(a: string, b: string, imageName: string)
    requires a != b && a != [] && b != []
    ensures AugFileName(a, imageName) != AugFileName(b, imageName)
  {
    if a == "original" {
      OriginalShorter(b, imageName);
    } else if b == "original" {
      OriginalShorter(a, imageName);
    } else {
      AugmentedInjective(a, b, imageName);
    }
  }

  /** The source name is shorter than the file name of any other non-empty augmentation. */
  lemma OriginalShorter(aug: string, imageName: string)
    requires aug != [] && aug != "original"
    ensures |AugFileName("original", imageName)| < |AugFileName(aug, imageName)|
  {
    assert AugFileName(aug, imageName) == aug + "_" + PngStem(imageName) + ".png";
  }

  /** Two different augmentations other than "original" write different files. */
  lemma AugmentedInjective(a: string, b: string, imageName: string)
    requires a != b && a != "original" && b != "original"
    ensures AugFileName(a, imageName) != AugFileName(b, imageName)
  {
    var t := "_" + PngStem(imageName) + ".png";
    assert AugFileName(a, imageName) == a + t;
    assert AugFileName(b, imageName) == b + t;
    SuffixInjective(a, b, t);
  }

  /** The nine file names of one image are pairwise different, and only "original" keeps the source name. */
  lemma AugFileNamesDistinct(imageName: string, i: nat, j: nat)
    requires i < j < |AUGMENTATIONS|
    ensures AugFileName(AUGMENTATIONS[i], imageName) != AugFileName(AUGMENTATIONS[j], imageName)
    ensures AugFileName(AUGMENTATIONS[i], imageName) == PngName(imageName) <==> i == 0
  {
    assert AUGMENTATIONS[i] != AUGMENTATIONS[j];
    AugFileNameInjective(AUGMENTATIONS[i], AUGMENTATIONS[j], imageName);
    if i > 0 {
      AugFileNameInjective(AUGMENTATIONS[i], "original", imageName);
    }
  }

  lemma SuffixInjective(a: string, b: string, t: string)
    requires a != b
    ensures a + t != b + t
  {
    if |a| == |b| {
      assert (a + t)[..|a|] == a;
      assert (b + t)[..|b|] == b;
    }
  }

  /** The pool of the images whose file exists, each contributing its nine entries in order. */
  function PoolOf(images: seq<CsvImage>, files: map<string, ImageFile>): (pool: seq<PoolItem>)
  {
    if images == [] then []
    else
      var n := |images| - 1;
      var img := images[n];
      PoolOf(images[..n], files) + (if img.name in files then AugmentedEntries(img, files[img.name]) else [])
  }

  /** The number of images whose file exists. */
  function FoundCount(images: seq<CsvImage>, files: map<string, ImageFile>): nat
  {
    if images == [] then 0
    else FoundCount(images[..|images| - 1], files) + (if images[|images| - 1].name in files then 1 else 0)
  }

  lemma {:induction false} PoolSize(images: seq<CsvImage>, files: map<string, ImageFile>)
    ensures |PoolOf(images, files)| == |AUGMENTATIONS| * FoundCount(images, files)
  {
    if images != [] {
      PoolSize(images[..|images| - 1], files);
    }
  }

  /**
   * The image loop of create_coco_dataset: an image whose file is missing is
   * skipped, every other one adds its nine entries. `files` maps an image name
   * to its uploaded file.
   */
  method BuildPool(images: seq<CsvImage>, files: map<string, ImageFile>) returns (pool: seq<PoolItem>)
    ensures pool == PoolOf(images, files)
    ensures |pool| == 9 * FoundCount(images, files)
  {
    pool := [];
    var k := 0;
    while k < |images|
      invariant 0 <= k <= |images|
      invariant pool == PoolOf(images[..k], files)
    {
      PrefixSnoc(images, k);
      assert images[..k + 1][..k] == images[..k];
      var img := images[k];
      if img.name in files {
        pool := pool + AugmentedEntries(img, files[img.name]);
      }
      k := k + 1;
    }
    TakeAll(images);
    PoolSize(images, files);
  }

  /** `pool[:int(ratio*len(pool))]` and the rest, of the shuffled pool. */
  function Split<T>(shuffled: seq<T>, ratio: real): (r: (seq<T>, seq<T>))
    ensures r.0 + r.1 == shuffled
    ensures 0.0 <= ratio <= 1.0 ==> |r.0| == (ratio * |shuffled| as real).Floor
  {
    var cut := SliceBound(Trunc(ratio * |shuffled| as real), |shuffled|);
    assert 0.0 <= ratio <= 1.0 ==> ratio * |shuffled| as real <= |shuffled| as real by {
      if 0.0 <= ratio <= 1.0 {
        MulAtMostOne(ratio, |shuffled| as real);
      }
    }
    assert shuffled[..cut] + shuffled[cut..] == shuffled;
    (shuffled[..cut], shuffled[cut..])
  }

  /** The train and test sets together hold exactly the entries of the pool, whatever the shuffle did. */
  lemma SplitKeepsPool<T>(pool: seq<T>, shuffled: seq<T>, ratio: real)
    requires multiset(shuffled) == multiset(pool)
    ensures multiset(Split(shuffled, ratio).0) + multiset(Split(shuffled, ratio).1) == multiset(pool)
  {
    var r := Split(shuffled, ratio);
    assert r.0 + r.1 == shuffled;
  }

  /** The categories _pool_to_coco creates for a list of labels: ids 1.. in first-seen order. */
  function CategoriesOf(names: seq<string>): (r: seq<Category>)
    ensures |r| == |names|
    ensures forall i :: 0 <= i < |r| ==> r[i] == Category(i + 1, names[i], Some("Undefined"))
  {
    seq(|names|, i requires 0 <= i < |names| => Category(i + 1, names[i], Some("Undefined")))
  }

  /** Every label of the pool, item by item. */
  function AllLabels(pool: seq<PoolItem>): seq<string> {
    if pool == [] then [] else AllLabels(pool[..|pool| - 1]) + pool[|pool| - 1].labels
  }

  /** A box as _pool_to_coco writes it: fix_bbox of the box as [x, y, w, h]. */
  function FixedBox(b: BBox, width: int, height: int): (r: seq<int>)
    ensures |r| == 4 && r[2] >= 1 && r[3] >= 1
  {
    var q := FixBbox(b.x, b.y, b.w, b.h, width, height);
    [q.x, q.y, q.w, q.h]
  }

  /** The annotations of one pool item, numbered from `firstId`. */
  function ItemAnnotations(item: PoolItem, imageId: int, firstId: int, catIds: map<string, int>): (r: seq<Annotation>)
    requires |item.labels| >= |item.boxes|
    requires forall j :: 0 <= j < |item.labels| ==> item.labels[j] in catIds
    ensures |r| == |item.boxes|
  {
    seq(|item.boxes|, j requires 0 <= j < |item.boxes| =>
      var bbox := FixedBox(item.boxes[j], item.width, item.height);
      Annotation(firstId + j, imageId, catIds[item.labels[j]], bbox, bbox[2] * bbox[3]))
  }

  predicate LabelsCoverBoxes(pool: seq<PoolItem>) {
    forall i :: 0 <= i < |pool| ==> |pool[i].labels| >= |pool[i].boxes|
  }

  predicate Labelled(pool: seq<PoolItem>, catIds: map<string, int>) {
    forall i, j :: 0 <= i < |pool| && 0 <= j < |pool[i].labels| ==> pool[i].labels[j] in catIds
  }

  function TotalBoxes(pool: seq<PoolItem>): nat {
    if pool == [] then 0 else TotalBoxes(pool[..|pool| - 1]) + |pool[|pool| - 1].boxes|
  }

  /**
   * The annotations of a pool: items in order, image ids 1.., annotation ids
   * 1.. running on across items.
   */
  function PoolAnnotations(pool: seq<PoolItem>, catIds: map<string, int>): (r: seq<Annotation>)
    requires LabelsCoverBoxes(pool) && Labelled(pool, catIds)
    ensures |r| == TotalBoxes(pool)
    ensures forall t :: 0 <= t < |r| ==> r[t].id == t + 1
    ensures forall t :: 0 <= t < |r| ==> 1 <= r[t].imageId <= |pool|
    ensures forall t :: 0 <= t < |r| ==> |r[t].bbox| == 4 && r[t].area == r[t].bbox[2] * r[t].bbox[3] >= 1
  {
    if pool == [] then []
    else
      var n := |pool| - 1;
      var prev := PoolAnnotations(pool[..n], catIds);
      var item := pool[n];
      prev + ItemAnnotations(item, n + 1, TotalBoxes(pool[..n]) + 1, catIds)
  }

  /** The image record of a pool item: the augmented file under "images/", with the item's size. */
  function ImageOf(item: PoolItem, id: int): (img: Image)
    ensures img.id == id && img.fileName == "images/" + item.imageName
    ensures img.width == item.width && img.height == item.height
  {
    Image(id, "images/" + item.imageName, item.width, item.height)
  }

  /**
   * _pool_to_coco. Fails (the IndexError) when an item has fewer labels than
   * boxes; otherwise categories, images and annotations are numbered 1.. .
   */
  method PoolToCoco(pool: seq<PoolItem>) returns (r: Result<CocoFile>)
    ensures r.Err? <==> !LabelsCoverBoxes(pool)
    ensures r.Ok? ==> r.value.categories == Some(CategoriesOf(FirstSeen(AllLabels(pool))))
    ensures r.Ok? ==> forall c :: c in r.value.categories.value ==> c.supercategory == Some("Undefined")
    ensures r.Ok? ==> |r.value.images| == |pool| && forall i :: 0 <= i < |pool| ==> r.value.images[i] == ImageOf(pool[i], i + 1)
    ensures r.Ok? ==> (Labelled(pool, FirstSeenIds(AllLabels(pool))) &&
      r.value.annotations == Some(PoolAnnotations(pool, FirstSeenIds(AllLabels(pool)))))
  {
    var catIds, cats := CollectCategories(pool);
    LabelledByCategoryIds(pool);
    var images: seq<Image> := [];
    var anns: seq<Annotation> := [];
    var i := 0;
    while i < |pool|
      invariant 0 <= i <= |pool|
      invariant Built(pool, i, catIds, images, anns)
    {
      if |pool[i].labels| < |pool[i].boxes| {
        assert !LabelsCoverBoxes(pool);
        return Err("IndexError: list index out of range");
      }
      images, anns := AddItem(pool, i, catIds, images, anns);
      i := i + 1;
    }
    TakeAll(pool);
    r := Ok(CocoFile(images, Some(anns), Some(cats), None, None));
  }

  /** What the image loop of _pool_to_coco has produced after its first i items. */
  ghost predicate Built(pool: seq<PoolItem>, i: nat, catIds: map<string, int>, images: seq<Image>, anns: seq<Annotation>)
    requires i <= |pool| && Labelled(pool, catIds)
  {
    && (forall t :: 0 <= t < i ==> |pool[t].labels| >= |pool[t].boxes|)
    && |images| == i
    && (forall t :: 0 <= t < i ==> images[t] == ImageOf(pool[t], t + 1))
    && anns == PoolAnnotations(pool[..i], catIds)
  }

  /** One pass of the image loop: the item's image record, then its annotations. */
  method AddItem(pool: seq<PoolItem>, i: nat, catIds: map<string, int>, images: seq<Image>, anns: seq<Annotation>)
    returns (images': seq<Image>, anns': seq<Annotation>)
    requires i < |pool| && Labelled(pool, catIds) && Built(pool, i, catIds, images, anns)
    requires |pool[i].labels| >= |pool[i].boxes|
    ensures Built(pool, i + 1, catIds, images', anns')
  {
    var item := pool[i];
    images' := images + [ImageOf(item, i + 1)];
    PoolAnnotationsSnoc(pool, i, catIds);
    anns' := AppendItem(anns, item, i + 1, catIds);
  }

  /** The category dictionary and list hold the labels of `seen`: ids 1.. in first-seen order. */
  ghost predicate Collected(seen: seq<string>, categories: map<string, int>, cats: seq<Category>) {
    categories == FirstSeenIds(seen) && cats == CategoriesOf(FirstSeen(seen))
  }

  /** The category loop of _pool_to_coco: every label of every item, ids given in first-seen order. */
  method CollectCategories(pool: seq<PoolItem>) returns (categories: map<string, int>, cats: seq<Category>)
    ensures Collected(AllLabels(pool), categories, cats)
  {
    categories, cats := map[], [];
    var k := 0;
    while k < |pool|
      invariant 0 <= k <= |pool|
      invariant Collected(AllLabels(pool[..k]), categories, cats)
    {
      categories, cats := AddLabels(AllLabels(pool[..k]), categories, cats, pool[k].labels);
      AllLabelsSnoc(pool, k);
      k := k + 1;
    }
    TakeAll(pool);
  }

  /** The inner category loop over one item's labels. */
  method AddLabels(ghost seen: seq<string>, categories: map<string, int>, cats: seq<Category>, labels: seq<string>)
    returns (categories': map<string, int>, cats': seq<Category>)
    requires Collected(seen, categories, cats)
    ensures Collected(seen + labels, categories', cats')
  {
    categories', cats' := categories, cats;
    ghost var cur := seen;
    AppendTake(seen, labels, 0);
    var j := 0;
    while j < |labels|
      invariant 0 <= j <= |labels|
      invariant cur == seen + labels[..j]
      invariant Collected(cur, categories', cats')
    {
      var x := labels[j];
      categories', cats' := AddLabel(cur, categories', cats', x);
      AppendTake(seen, labels, j + 1);
      cur := cur + [x];
      j := j + 1;
    }
    TakeAll(labels);
  }

  /** One label: a new name gets the next id and a category record, a known one changes nothing. */
  method AddLabel(ghost cur: seq<string>, categories: map<string, int>, cats: seq<Category>, x: string)
    returns (categories': map<string, int>, cats': seq<Category>)
    requires Collected(cur, categories, cats)
    ensures Collected(cur + [x], categories', cats')
  {
    if x !in categories {
      var id := |categories| + 1;
      CollectedNew(cur, categories, cats, x);
      categories' := categories[x := id];
      cats' := cats + [Category(id, x, Some("Undefined"))];
    } else {
      CollectedKnown(cur, categories, cats, x);
      categories', cats' := categories, cats;
    }
  }

  lemma CollectedNew(cur: seq<string>, categories: map<string, int>, cats: seq<Category>, x: string)
    requires Collected(cur, categories, cats) && x !in categories
    ensures Collected(cur + [x], categories[x := |categories| + 1], cats + [Category(|categories| + 1, x, Some("Undefined"))])
  {
    NewLabel(cur, x);
  }

  lemma CollectedKnown(cur: seq<string>, categories: map<string, int>, cats: seq<Category>, x: string)
    requires Collected(cur, categories, cats) && x in categories
    ensures Collected(cur + [x], categories, cats)
  {
    FirstSeenIdsKnown(cur, x);
  }

  lemma AppendTake<T>(a: seq<T>, b: seq<T>, j: nat)
    requires j <= |b|
    ensures j == 0 ==> a + b[..j] == a
    ensures j > 0 ==> a + b[..j] == a + b[..j - 1] + [b[j - 1]]
  {
    if j > 0 {
      AppendAssoc(a, b[..j - 1], [b[j - 1]]);
      PrefixSnoc(b, j - 1);
    }
  }

  lemma CategoriesOfSnoc(names: seq<string>, x: string)
    ensures CategoriesOf(names + [x]) == CategoriesOf(names) + [Category(|names| + 1, x, Some("Undefined"))]
  {
  }

  /** The annotation loop of one item: its boxes fixed and numbered on from the annotations so far. */
  method AppendItem(anns: seq<Annotation>, item: PoolItem, imageId: int, catIds: map<string, int>)
    returns (anns': seq<Annotation>)
    requires |item.labels| >= |item.boxes|
    requires forall j :: 0 <= j < |item.labels| ==> item.labels[j] in catIds
    ensures anns' == anns + ItemAnnotations(item, imageId, |anns| + 1, catIds)
  {
    var all := ItemAnnotations(item, imageId, |anns| + 1, catIds);
    anns' := anns;
    var b := 0;
    while b < |item.boxes|
      invariant 0 <= b <= |item.boxes|
      invariant anns' == anns + all[..b]
    {
      var bbox := FixedBox(item.boxes[b], item.width, item.height);
      anns' := anns' + [Annotation(|anns| + 1 + b, imageId, catIds[item.labels[b]], bbox, bbox[2] * bbox[3])];
      AppendAssoc(anns, all[..b], [all[b]]);
      PrefixSnoc(all, b);
      b := b + 1;
    }
    TakeAll(all);
  }

  lemma PoolAnnotationsSnoc(pool: seq<PoolItem>, i: nat, catIds: map<string, int>)
    requires i < |pool| && Labelled(pool, catIds)
    requires forall t :: 0 <= t <= i ==> |pool[t].labels| >= |pool[t].boxes|
    ensures LabelsCoverBoxes(pool[..i]) && Labelled(pool[..i], catIds) && Labelled(pool[..i + 1], catIds)
    ensures |PoolAnnotations(pool[..i], catIds)| == TotalBoxes(pool[..i])
    ensures PoolAnnotations(pool[..i + 1], catIds) ==
      PoolAnnotations(pool[..i], catIds) + ItemAnnotations(pool[i], i + 1, TotalBoxes(pool[..i]) + 1, catIds)
  {
    assert pool[..i + 1][..i] == pool[..i];
  }

  lemma NewLabel(cur: seq<string>, x: string)
    requires x !in FirstSeenIds(cur)
    ensures FirstSeenIds(cur + [x]) == FirstSeenIds(cur)[x := |FirstSeenIds(cur)| + 1]
    ensures CategoriesOf(FirstSeen(cur + [x])) ==
      CategoriesOf(FirstSeen(cur)) + [Category(|FirstSeenIds(cur)| + 1, x, Some("Undefined"))]
  {
    FirstSeenIdsNew(cur, x);
    FirstSeenIdsKeys(cur);
    FirstSeenIdsSize(cur);
    assert x !in cur;
    FirstSeenSnoc(cur, x);
    assert FirstSeen(cur + [x]) == FirstSeen(cur) + [x];
    CategoriesOfSnoc(FirstSeen(cur), x);
  }

  lemma AllLabelsSnoc(pool: seq<PoolItem>, k: nat)
    requires k < |pool|
    ensures AllLabels(pool[..k + 1]) == AllLabels(pool[..k]) + pool[k].labels
  {
    assert pool[..k + 1][..k] == pool[..k];
  }

  lemma {:induction false} AllLabelsHolds(pool: seq<PoolItem>, i: nat, j: nat)
    requires i < |pool| && j < |pool[i].labels|
    ensures pool[i].labels[j] in AllLabels(pool)
  {
    var n := |pool| - 1;
    if i < n {
      AllLabelsHolds(pool[..n], i, j);
    } else {
      assert AllLabels(pool)[|AllLabels(pool[..n])| + j] == pool[i].labels[j];
    }
  }

  lemma LabelledByCategoryIds(pool: seq<PoolItem>)
    ensures Labelled(pool, FirstSeenIds(AllLabels(pool)))
  {
    forall i, j | 0 <= i < |pool| && 0 <= j < |pool[i].labels|
      ensures pool[i].labels[j] in FirstSeenIds(AllLabels(pool))
    {
      AllLabelsHolds(pool, i, j);
      FirstSeenIdsKeys(AllLabels(pool));
    }
  }
}
