/**
 * The data side of detection training and inference (dino_data_processor.py):
 * picking a stage's batch from the shuffled image list, writing the batch's
 * COCO file, reading class names in id order, and gluing the per-image
 * inference results into one JSON text. Which files exist on disk is the
 * set `existing` of paths.
 */
module DinoDataProcessor {
  import opened Wrappers
  import opened Text
  import opened Sorting
  import opened Coco
  import Json
  import opened Numbers

  /** Where the source looks for an image: `os.path.join(image_dir, os.path.basename(file_name))`. */
  function ImagePath(imageDir: string, img: Image): string {
    PathJoin(imageDir, Basename(img.fileName))
  }

  /** The test "this image's file exists", as a function value for Filter. */
  function OnDisk(imageDir: string, existing: set<string>): (p: Image -> bool)
    ensures forall img :: p(img) == (ImagePath(imageDir, img) in existing)
  {
    (img: Image) => ImagePath(imageDir, img) in existing
  }

  /** `s[stage*size : min(stage*size + size, len(s))]`; a start past the end gives []. */
  function BatchSlice<T>(s: seq<T>, stage: nat, size: nat): (r: seq<T>)
    ensures |r| <= size
    ensures stage * size < |s| ==> r == s[stage * size..Min(stage * size + size, |s|)]
    ensures stage * size >= |s| ==> r == []
  {
    var start := Min(stage * size, |s|);
    var end := Min(stage * size + size, |s|);
    s[start..end]
  }

  /**
   * select_batch_images: the stage's slice of the shuffled list, keeping the
   * images whose file exists. Errors on an empty list and when no file of the
   * slice exists.
   */
  method SelectBatchImages(shuffled: seq<Image>, batchSize: nat, imageDir: string, stage: nat, existing: set<string>)
    returns (r: Result<seq<Image>>)
    ensures shuffled == [] ==> r.Err?
    ensures r.Ok? <==> shuffled != [] && Filter(BatchSlice(shuffled, stage, batchSize), OnDisk(imageDir, existing)) != []
    ensures r.Ok? ==> r.value == Filter(BatchSlice(shuffled, stage, batchSize), OnDisk(imageDir, existing))
    ensures r.Ok? ==> 1 <= |r.value| <= batchSize
  {
    if |shuffled| == 0 {
      return Err("No images available in the dataset.");
    }
    var selected := BatchSlice(shuffled, stage, batchSize);
    var same := (img: Image) => img;
    var valid := KeepAndMap(selected, OnDisk(imageDir, existing), same);
    MapEachIdentity(Filter(selected, OnDisk(imageDir, existing)), same);
    if |valid| == 0 {
      return Err("No valid images found for stage");
    }
    r := Ok(valid);
  }

  /** The batch is empty exactly when no image of the stage's slice is on disk. */
  lemma NoValidImages(shuffled: seq<Image>, batchSize: nat, imageDir: string, stage: nat, existing: set<string>)
    ensures var slice := BatchSlice(shuffled, stage, batchSize);
      Filter(slice, OnDisk(imageDir, existing)) == [] <==> forall i :: 0 <= i < |slice| ==> ImagePath(imageDir, slice[i]) !in existing
  {
    FilterEmpty(BatchSlice(shuffled, stage, batchSize), OnDisk(imageDir, existing));
  }

  /** The slices of stages 0 .. k-1, in order. */
  function StageSlices<T>(s: seq<T>, size: nat, k: nat): (r: seq<seq<T>>)
    ensures |r| == k
  {
    if k == 0 then [] else StageSlices(s, size, k - 1) + [BatchSlice(s, k - 1, size)]
  }

  /** The first k slices, back to back, are the first min(k*size, |s|) elements. */
  lemma {:induction false} StageSlicesPrefix<T>(s: seq<T>, size: nat, k: nat)
    ensures Flatten(StageSlices(s, size, k)) == s[..Min(k * size, |s|)]
  {
    if k > 0 {
      StageSlicesPrefix(s, size, k - 1);
      FlattenAppend(StageSlices(s, size, k - 1), BatchSlice(s, k - 1, size));
      var start := (k - 1) * size;
      assert start + size == k * size;
      TakeConcat(s, Min(start, |s|), Min(start + size, |s|));
    }
  }

  /** Number of stages for n images in batches of `size`: the ceiling of n / size. */
  function CeilDiv(n: nat, size: nat): (k: nat)
    requires size >= 1
    ensures k * size >= n
    ensures k > 0 ==> (k - 1) * size < n
  {
    (n + size - 1) / size
  }

  /**
   * Over stages 0 .. ceil(n/size)-1 the slices, back to back, are exactly the
   * shuffled list: every image falls in one stage and no image in two.
   */
  lemma SlicesCover<T>(s: seq<T>, size: nat)
    requires size >= 1
    ensures Flatten(StageSlices(s, size, CeilDiv(|s|, size))) == s
  {
    StageSlicesPrefix(s, size, CeilDiv(|s|, size));
  }

  /** An image moved into `imageDir`: its `file_name` becomes the path the source checked. */
  function Relocate(imageDir: string): (f: Image -> Image)
    ensures forall img :: f(img) == img.(fileName := ImagePath(imageDir, img))
  {
    (img: Image) => img.(fileName := ImagePath(imageDir, img))
  }

  /** The images with `file_name` replaced by the path the source checked. */
  function Retarget(images: seq<Image>, imageDir: string): (r: seq<Image>)
    ensures |r| == |images|
    ensures forall i :: 0 <= i < |r| ==> r[i] == images[i].(fileName := ImagePath(imageDir, images[i]))
  {
    MapEach(images, Relocate(imageDir))
  }

  /** The annotation filter of create_batch_coco_json, as a function value. */
  function OfImages(ids: set<int>): (p: Annotation -> bool)
    ensures forall ann :: p(ann) == (ann.imageId in ids)
  {
    (ann: Annotation) => ann.imageId in ids
  }

  /**
   * create_batch_coco_json: the batch file holds the images whose file exists,
   * relocated into `imageDir` and in their order, the annotations of exactly
   * those images, the categories of the full file, and its "info" and
   * "licenses" (`{}` and `[]` when absent); it is an error when no image is
   * kept.
   */
  method CreateBatchCocoJson(selected: seq<Image>, coco: CocoFile, imageDir: string, existing: set<string>)
    returns (r: Result<CocoFile>)
    ensures r.Ok? <==> Filter(selected, OnDisk(imageDir, existing)) != []
    ensures r.Ok? ==> r.value.images == Retarget(Filter(selected, OnDisk(imageDir, existing)), imageDir)
    ensures r.Ok? ==> r.value.categories == Some(if coco.categories.Some? then coco.categories.value else [])
    ensures r.Ok? ==> r.value.annotations == Some(Filter(if coco.annotations.Some? then coco.annotations.value else [], OfImages(ImageIds(r.value.images))))
    ensures r.Ok? ==> r.value.info == Some(if coco.info.Some? then coco.info.value else Json.JObject([]))
    ensures r.Ok? ==> r.value.licenses == Some(if coco.licenses.Some? then coco.licenses.value else Json.JArray([]))
  {
    var images := BatchImages(selected, imageDir, existing);
    var all := if coco.annotations.Some? then coco.annotations.value else [];
    var anns := Filter(all, OfImages(ImageIds(images)));
    if images == [] {
      return Err("No valid images found for batch after path validation.");
    }
    var info := if coco.info.Some? then coco.info.value else Json.JObject([]);
    var licenses := if coco.licenses.Some? then coco.licenses.value else Json.JArray([]);
    r := Ok(CocoFile(images, Some(anns), Some(if coco.categories.Some? then coco.categories.value else []), Some(info), Some(licenses)));
  }

  /** The image loop of create_batch_coco_json: each image whose file exists, relocated into `imageDir`. */
  method BatchImages(selected: seq<Image>, imageDir: string, existing: set<string>) returns (images: seq<Image>)
    ensures images == Retarget(Filter(selected, OnDisk(imageDir, existing)), imageDir)
    ensures images == [] <==> Filter(selected, OnDisk(imageDir, existing)) == []
  {
    images := KeepAndMap(selected, OnDisk(imageDir, existing), Relocate(imageDir));
  }

  /**
   * What the batch file promises: its images are files that exist, and its
   * annotations are exactly the annotations of the full file whose image is in
   * the batch, in their order.
   */
  lemma BatchFileContents(selected: seq<Image>, coco: CocoFile, imageDir: string, existing: set<string>, all: seq<Annotation>)
    requires all == if coco.annotations.Some? then coco.annotations.value else []
    ensures var images := Retarget(Filter(selected, OnDisk(imageDir, existing)), imageDir);
      var anns := Filter(all, OfImages(ImageIds(images)));
      && (forall i :: 0 <= i < |images| ==> images[i].fileName in existing)
      && (forall i :: 0 <= i < |anns| ==> anns[i] in all && anns[i].imageId in ImageIds(images))
      && (forall i :: 0 <= i < |all| && all[i].imageId in ImageIds(images) ==> all[i] in anns)
      && IsSubseq(anns, all)
  {
    var kept := Filter(selected, OnDisk(imageDir, existing));
    assert forall i :: 0 <= i < |kept| ==> OnDisk(imageDir, existing)(kept[i]);
  }

  /** Categories ordered by id, as `sorted(..., key=lambda x: x['id'])`. */
  function ById(): (le: (Category, Category) -> bool)
    ensures forall a, b :: le(a, b) == (a.id <= b.id)
  {
    (a: Category, b: Category) => a.id <= b.id
  }

  lemma ByIdPreorder()
    ensures TotalPreorder(ById())
  {
  }

  /**
   * extract_classes_from_coco_json: the category names in id order; a file
   * without "categories" is an error (the KeyError).
   */
  function ExtractClasses(file: CocoFile): (r: Result<seq<string>>)
    ensures file.categories.None? <==> r.Err?
    ensures r.Ok? ==> |r.value| == |file.categories.value|
    ensures r.Ok? ==> exists sorted: seq<Category> ::
      && SortedBy(sorted, ById())
      && multiset(sorted) == multiset(file.categories.value)
      && |sorted| == |r.value|
      && (forall i :: 0 <= i < |sorted| ==> r.value[i] == sorted[i].name)
  {
    if file.categories.None? then Err("categories")
    else
      var sorted := SortBy(file.categories.value, ById());
      ByIdPreorder();
      SortBySorted(file.categories.value, ById());
      Ok(seq(|sorted|, i requires 0 <= i < |sorted| => sorted[i].name))
  }

  /** Whether a category has the given id. */
  function IdIs(id: int): Category -> bool
  {
    (c: Category) => c.id == id
  }

  /**
   * The names come from the stable sort of the categories by id: categories
   * sharing an id keep their order in the file.
   */
  lemma ExtractClassesStable(file: CocoFile, id: int)
    requires file.categories.Some?
    ensures var sorted := SortBy(file.categories.value, ById());
      && ExtractClasses(file).value == seq(|sorted|, i requires 0 <= i < |sorted| => sorted[i].name)
      && Filter(sorted, IdIs(id)) == Filter(file.categories.value, IdIs(id))
  {
    SortByStable(file.categories.value, ById(), IdIs(id));
  }

  /** The separator after the i-th result: "}" when the path is the last one's, else ",". */
  function Separator(paths: seq<string>, i: nat): string
    requires i < |paths|
  {
    if paths[|paths| - 1] != paths[i] then "," else "}"
  }

  /** The text appended for the first n images: each result followed by its separator. */
  function Glued(paths: seq<string>, results: seq<string>, n: nat): string
    requires n <= |paths| == |results|
  {
    if n == 0 then "" else Glued(paths, results, n - 1) + results[n - 1] + Separator(paths, n - 1)
  }

  /**
   * The output.json text of process_predictions: "{" followed by each image's
   * result path and a separator; `results[i]` is what the result processor
   * returned for `paths[i]`.
   */
  method GlobJsonString(paths: seq<string>, results: seq<string>) returns (text: string)
    requires |results| == |paths|
    ensures text == "{" + Glued(paths, results, |paths|)
    ensures paths == [] ==> text == "{"
  {
    text := "{";
    var i := 0;
    while i < |paths|
      invariant 0 <= i <= |paths|
      invariant text == "{" + Glued(paths, results, i)
    {
      text := text + results[i];
      text := text + Separator(paths, i);
      i := i + 1;
    }
  }

  /** When only the last entry is the last path (glob lists each file once), the text is "{" + results joined by "," + "}". */
  lemma GlobDistinct(paths: seq<string>, results: seq<string>)
    requires |results| == |paths| >= 1
    requires forall i :: 0 <= i < |paths| - 1 ==> paths[i] != paths[|paths| - 1]
    ensures "{" + Glued(paths, results, |paths|) == "{" + Join(results, ",") + "}"
  {
    var n := |paths| - 1;
    var head := Glued(paths, results, n);
    GluedPrefix(paths, results, n);
    assert Glued(paths, results, n + 1) == head + results[n] + "}";
    if n == 0 {
      assert Join(results, ",") == head + results[n];
    } else {
      JoinLast(results, n);
    }
    AppendAssoc("{", head + results[n], "}");
  }

  lemma JoinLast(results: seq<string>, n: nat)
    requires n >= 1 && |results| == n + 1
    ensures Join(results, ",") == Join(results[..n], ",") + "," + results[n]
  {
    JoinSnoc(results[..n], results[n], ",");
    PrefixSnoc(results, n);
    TakeAll(results);
  }

  lemma {:induction false} GluedPrefix(paths: seq<string>, results: seq<string>, n: nat)
    requires |results| == |paths| && n <= |paths| - 1
    requires forall i :: 0 <= i < |paths| - 1 ==> paths[i] != paths[|paths| - 1]
    ensures n >= 1 ==> Glued(paths, results, n) == Join(results[..n], ",") + ","
    ensures n == 0 ==> Glued(paths, results, n) == ""
  {
    if n >= 1 {
      GluedPrefix(paths, results, n - 1);
      assert Separator(paths, n - 1) == ",";
      if n >= 2 {
        JoinSnoc(results[..n - 1], results[n - 1], ",");
        PrefixSnoc(results, n - 1);
      } else {
        assert results[..1] == [results[0]];
      }
    }
  }
}
