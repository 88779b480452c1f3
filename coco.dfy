/**
 * The parts of a COCO annotation file the worker reads and writes. A key the
 * source reads with `.get(key, default)` is a plain field holding that
 * default when absent; "annotations" and "categories", whose absence the
 * source tests, are optional.
 */
module Coco {
  import opened Wrappers
  import Json

  /** An entry of "images"; `fileName` is "" when the entry has no "file_name". */
  datatype Image = Image(id: int, fileName: string, width: int, height: int)

  /** An entry of "categories"; "supercategory" may be missing. */
  datatype Category = Category(id: int, name: string, supercategory: Option<string>)

  /** An entry of "annotations"; `bbox` is [x, y, w, h]. */
  datatype Annotation = Annotation(id: int, imageId: int, categoryId: int, bbox: seq<int>, area: int)

  /**
   * A COCO file. "info" and "licenses" are kept as the JSON values they
   * hold (None when the key is absent): only the DINO batch file copies them.
   */
  datatype CocoFile = CocoFile(images: seq<Image>, annotations: Option<seq<Annotation>>, categories: Option<seq<Category>>,
                               info: Option<Json.Json>, licenses: Option<Json.Json>)

  /** The ids of a list of images, as the set comprehension `{img["id"] for img in images}`. */
  function ImageIds(images: seq<Image>): (ids: set<int>)
    ensures forall i :: 0 <= i < |images| ==> images[i].id in ids
    ensures forall id :: id in ids ==> exists i :: 0 <= i < |images| && images[i].id == id
  {
    set i | 0 <= i < |images| :: images[i].id
  }
}
