/**
 * The converters of quantitave_analysis/utils/file_converter1.py: hex colour
 * parsing, the palette-index mask to RGBA image and RGB mask to
 * palette-index rules, CSV rows to a COCO file, and the bbox JSON to
 * per-image CSV files. Pixels are listed row by row; file reading and
 * writing are not modelled, only the values read and written.
 */
module FileConverter {
  import opened Wrappers
  import opened Text
  import opened Numbers
  import opened Sorting
  import opened Coco
  import opened Json

  datatype Rgb = Rgb(r: int, g: int, b: int)
  datatype Rgba = Rgba(r: int, g: int, b: int, a: int)

  const BLACK: Rgb := Rgb(0, 0, 0)
  const TRANSPARENT: Rgba := Rgba(0, 0, 0, 0)

  // ---------------------------------------------------------------- hex colours

  /** `int(s, 16)` on the one- or two-character slices hex_to_rgb takes; anything else raises. */
  function ParseHexPair(s: string): (r: Option<nat>)
    ensures r.Some? <==> (1 <= |s| <= 2 && forall i :: 0 <= i < |s| ==> IsHexDigit(s[i]))
    ensures r.Some? ==> r.value < 256
  {
    if |s| == 1 && IsHexDigit(s[0]) then Some(HexValue(s[0]))
    else if |s| == 2 && IsHexDigit(s[0]) && IsHexDigit(s[1]) then Some(16 * HexValue(s[0]) + HexValue(s[1]))
    else None
  }

  /** Two hex digits for a channel value, as a colour picker writes them. */
  function HexByte(n: nat): (s: string)
    requires n < 256
    ensures |s| == 2 && ParseHexPair(s) == Some(n)
  {
    [HexDigit(n / 16), HexDigit(n % 16)]
  }

  /** `s.lstrip(c)`: every leading `c` removed. */
  function LStrip(s: string, c: char): (r: string)
    ensures |r| <= |s| && r == s[|s| - |r|..]
    ensures r == [] || r[0] != c
    ensures forall i :: 0 <= i < |s| - |r| ==> s[i] == c
  {
    if s != [] && s[0] == c then LStrip(s[1..], c) else s
  }

  /** `s[i:j]` for 0 <= i <= j: clamped to the string. */
  function PySlice(s: string, i: nat, j: nat): (r: string)
    requires i <= j
    ensures |r| <= j - i
  {
    s[Min(i, |s|)..Min(j, |s|)]
  }

  /** hex_to_rgb: leading '#' removed, then the pairs at offsets 0, 2 and 4 read in base 16. */
  function HexToRgb(hex: string): (r: Result<Rgb>)
    ensures r.Ok? ==> 0 <= r.value.r < 256 && 0 <= r.value.g < 256 && 0 <= r.value.b < 256
  {
    var h := LStrip(hex, '#');
    var red := ParseHexPair(PySlice(h, 0, 2));
    var green := ParseHexPair(PySlice(h, 2, 4));
    var blue := ParseHexPair(PySlice(h, 4, 6));
    if red.Some? && green.Some? && blue.Some? then Ok(Rgb(red.value, green.value, blue.value))
    else Err("ValueError: invalid literal for int() with base 16")
  }

  /** Every "#RRGGBB" colour reads back as its three channels. */
  lemma HexRoundTrip(c: Rgb)
    requires 0 <= c.r < 256 && 0 <= c.g < 256 && 0 <= c.b < 256
    ensures HexToRgb("#" + HexByte(c.r) + HexByte(c.g) + HexByte(c.b)) == Ok(c)
  {
    var red, green, blue := HexByte(c.r), HexByte(c.g), HexByte(c.b);
    var digits := red + green + blue;
    SliceThree(red, green, blue);
    LStripOnce("#", digits);
    assert "#" + red + green + blue == "#" + digits;
  }

  /** One leading '#' before a string that does not start with '#' is all lstrip removes. */
  lemma LStripOnce(hash: string, digits: string)
    requires hash == "#" && |digits| >= 1 && digits[0] != '#'
    ensures LStrip(hash + digits, '#') == digits
  {
    assert (hash + digits)[1..] == digits;
  }

  lemma SliceThree(a: string, b: string, c: string)
    requires |a| == 2 && |b| == 2 && |c| == 2
    ensures PySlice(a + b + c, 0, 2) == a && PySlice(a + b + c, 2, 4) == b && PySlice(a + b + c, 4, 6) == c
  {
  }

  /** Fewer than five digits after the '#'s leave the last slice empty, and parsing raises. */
  lemma ShortHexFails(hex: string)
    requires |LStrip(hex, '#')| <= 4
    ensures HexToRgb(hex).Err?
  {
  }

  // ---------------------------------------------------------------- palettes

  /** Every label colour parses. */
  predicate ColoursParse(colours: seq<string>) {
    forall i :: 0 <= i < |colours| ==> HexToRgb(colours[i]).Ok?
  }

  /** The palette both mask converters build: black, then each label colour in order; a bad colour raises. */
  function Palette(colours: seq<string>): (r: Result<seq<Rgb>>)
    ensures r.Ok? <==> ColoursParse(colours)
    ensures r.Ok? ==> |r.value| == |colours| + 1 && r.value[0] == BLACK
    ensures r.Ok? ==> forall i :: 0 <= i < |colours| ==> r.value[i + 1] == HexToRgb(colours[i]).value
  {
    if ColoursParse(colours) then
      Ok([BLACK] + seq(|colours|, i requires 0 <= i < |colours| && ColoursParse(colours) => HexToRgb(colours[i]).value))
    else
      Err("ValueError: invalid literal for int() with base 16")
  }

  /** What ConvertorPalette2Rgba paints a pixel holding palette index v. */
  function IndexColour(palette: seq<Rgb>, v: int): (c: Rgba)
    ensures 0 <= v < |palette| ==> c.r == palette[v].r && c.g == palette[v].g && c.b == palette[v].b
    ensures v == 0 ==> c.a == 0
    ensures 0 < v < |palette| ==> c.a == 255
    ensures !(0 <= v < |palette|) ==> c == TRANSPARENT
  {
    if 0 <= v < |palette| then Rgba(palette[v].r, palette[v].g, palette[v].b, if v == 0 then 0 else 255)
    else TRANSPARENT
  }

  /**
   * The painting loop of ConvertorPalette2Rgba: start from an all-zero
   * image, then for each palette index in turn paint the pixels holding it.
   */
  method PaintPalette(palette: seq<Rgb>, pixels: seq<int>) returns (rgba: seq<Rgba>)
    ensures |rgba| == |pixels|
    ensures forall p :: 0 <= p < |pixels| ==> rgba[p] == IndexColour(palette, pixels[p])
  {
    rgba := seq(|pixels|, p => TRANSPARENT);
    var index := 0;
    while index < |palette|
      invariant 0 <= index <= |palette| && |rgba| == |pixels|
      invariant forall p :: 0 <= p < |pixels| ==>
        rgba[p] == (if 0 <= pixels[p] < index then IndexColour(palette, pixels[p]) else TRANSPARENT)
    {
      var colour := palette[index];
      var alpha := if index == 0 then 0 else 255;
      rgba := seq(|rgba|, p requires 0 <= p < |rgba| =>
        if pixels[p] == index then Rgba(colour.r, colour.g, colour.b, alpha) else rgba[p]);
      index := index + 1;
    }
  }

  /** ConvertorPalette2Rgba.execute on the first layer of an index image, given as its pixels. */
  method Palette2Rgba(colours: seq<string>, pixels: seq<int>) returns (r: Result<seq<Rgba>>)
    ensures r.Err? <==> Palette(colours).Err?
    ensures r.Ok? ==> (|r.value| == |pixels| &&
      forall p :: 0 <= p < |pixels| ==> r.value[p] == IndexColour(Palette(colours).value, pixels[p]))
  {
    var palette := Palette(colours);
    if palette.Err? {
      return Err(palette.error);
    }
    var rgba := PaintPalette(palette.value, pixels);
    return Ok(rgba);
  }

  function Sq(x: int): nat { x * x }

  /** The squared Euclidean distance between two colours. */
  function Dist2(a: Rgb, b: Rgb): (d: nat)
    ensures d == 0 <==> a == b
  {
    Sq(a.r - b.r) + Sq(a.g - b.g) + Sq(a.b - b.b)
  }

  /** `np.argmin` of the distances: the nearest palette colour, the lowest index on ties. */
  function Nearest(palette: seq<Rgb>, p: Rgb): (k: nat)
    requires |palette| >= 1
    ensures k < |palette|
    ensures forall j :: 0 <= j < |palette| ==> Dist2(p, palette[k]) <= Dist2(p, palette[j])
    ensures forall j :: 0 <= j < k ==> Dist2(p, palette[j]) > Dist2(p, palette[k])
  {
    if |palette| == 1 then 0
    else
      var n := |palette| - 1;
      var k := Nearest(palette[..n], p);
      assert forall j :: 0 <= j < n ==> palette[..n][j] == palette[j];
      if Dist2(p, palette[n]) < Dist2(p, palette[k]) then n else k
  }

  /**
   * ConvertorRgb2Palette.execute: each pixel's nearest palette index, the
   * first one on a tie (argmin).
   */
  function Rgb2Palette(colours: seq<string>, pixels: seq<Rgb>): (r: Result<seq<nat>>)
    ensures r.Err? <==> Palette(colours).Err?
    ensures r.Ok? ==> (|r.value| == |pixels| &&
      forall p :: 0 <= p < |pixels| ==> r.value[p] < |colours| + 1)
    ensures r.Ok? ==> forall p, j :: 0 <= p < |pixels| && 0 <= j < |colours| + 1 ==>
      Dist2(pixels[p], Palette(colours).value[r.value[p]]) <= Dist2(pixels[p], Palette(colours).value[j])
    ensures r.Ok? ==> forall p, j :: 0 <= p < |pixels| && 0 <= j < r.value[p] ==>
      Dist2(pixels[p], Palette(colours).value[j]) > Dist2(pixels[p], Palette(colours).value[r.value[p]])
  {
    var palette := Palette(colours);
    if palette.Err? then Err(palette.error)
    else Ok(seq(|pixels|, p requires 0 <= p < |pixels| => Nearest(palette.value, pixels[p])))
  }

  predicate Distinct<T(==)>(s: seq<T>) {
    forall i, j :: 0 <= i < j < |s| ==> s[i] != s[j]
  }

  function RgbOf(c: Rgba): Rgb { Rgb(c.r, c.g, c.b) }

  /** A palette colour is its own nearest colour when the palette has no repeated colour. */
  lemma NearestOfPaletteColour(palette: seq<Rgb>, v: nat)
    requires v < |palette| && Distinct(palette)
    ensures Nearest(palette, palette[v]) == v
  {
    var k := Nearest(palette, palette[v]);
    assert Dist2(palette[v], palette[k]) <= Dist2(palette[v], palette[v]);
  }

  /** Reading back a painted index mask against a palette with no repeated colour gives the indices. */
  lemma PaintThenReadBack(palette: seq<Rgb>, pixels: seq<int>, rgba: seq<Rgba>)
    requires |palette| >= 1 && Distinct(palette)
    requires forall p :: 0 <= p < |pixels| ==> 0 <= pixels[p] < |palette|
    requires |rgba| == |pixels| && forall p :: 0 <= p < |pixels| ==> rgba[p] == IndexColour(palette, pixels[p])
    ensures seq(|rgba|, p requires 0 <= p < |rgba| => Nearest(palette, RgbOf(rgba[p]))) == pixels
  {
    forall p | 0 <= p < |pixels| ensures Nearest(palette, RgbOf(rgba[p])) == pixels[p] {
      assert RgbOf(rgba[p]) == palette[pixels[p]];
      NearestOfPaletteColour(palette, pixels[p]);
    }
  }

  /**
   * Painting an index mask with ConvertorPalette2Rgba and reading it back
   * with ConvertorRgb2Palette gives the indices again, when black and the
   * label colours are all different.
   */
  lemma PaletteRoundTrip(colours: seq<string>, pixels: seq<int>, rgba: seq<Rgba>)
    requires Palette(colours).Ok? && Distinct(Palette(colours).value)
    requires forall p :: 0 <= p < |pixels| ==> 0 <= pixels[p] <= |colours|
    requires |rgba| == |pixels| && forall p :: 0 <= p < |pixels| ==> rgba[p] == IndexColour(Palette(colours).value, pixels[p])
    ensures Rgb2Palette(colours, seq(|rgba|, p requires 0 <= p < |rgba| => RgbOf(rgba[p]))) == Ok(pixels)
  {
    var palette := Palette(colours).value;
    var rgb := seq(|rgba|, p requires 0 <= p < |rgba| => RgbOf(rgba[p]));
    PaintThenReadBack(palette, pixels, rgba);
    assert Rgb2Palette(colours, rgb).value == seq(|rgba|, p requires 0 <= p < |rgba| => Nearest(palette, RgbOf(rgba[p])));
  }

  // ---------------------------------------------------------------- CSV to COCO

  /** One CSV row, with its numeric fields already read (the float parsing and rounding are not modelled). */
  datatype CsvRow = CsvRow(imageName: string, labelName: string, imageWidth: int, imageHeight: int, bbox: seq<int>, area: int)

  const REQUIRED_COLUMNS: seq<string> :=
    ["bbox_x", "bbox_y", "bbox_width", "bbox_height", "label_name", "image_name", "image_width", "image_height"]

  function ImageNames(rows: seq<CsvRow>): (r: seq<string>)
    ensures |r| == |rows| && forall i :: 0 <= i < |rows| ==> r[i] == rows[i].imageName
  {
    seq(|rows|, i requires 0 <= i < |rows| => rows[i].imageName)
  }

  function LabelNames(rows: seq<CsvRow>): (r: seq<string>)
    ensures |r| == |rows| && forall i :: 0 <= i < |rows| ==> r[i] == rows[i].labelName
  {
    seq(|rows|, i requires 0 <= i < |rows| => rows[i].labelName)
  }

  lemma NamesSnoc(rows: seq<CsvRow>, i: nat)
    requires i < |rows|
    ensures ImageNames(rows[..i + 1]) == ImageNames(rows[..i]) + [rows[i].imageName]
    ensures LabelNames(rows[..i + 1]) == LabelNames(rows[..i]) + [rows[i].labelName]
  {
  }

  /** The "images" list: one entry per distinct image name in order of first appearance, numbered from 1, sized from the name's first row. */
  function ImageEntries(rows: seq<CsvRow>): (r: seq<Image>)
    ensures |r| == |FirstSeen(ImageNames(rows))|
  {
    var names := ImageNames(rows);
    var order := FirstSeen(names);
    seq(|order|, k requires 0 <= k < |order| =>
      var first := rows[FirstIndex(names, order[k])];
      Image(k + 1, "images/" + order[k], first.imageWidth, first.imageHeight))
  }

  /** The "annotations" list: one per row, numbered from 1, with the ids its row's image and label were numbered with. */
  function AnnotationsOf(rows: seq<CsvRow>): (r: seq<Annotation>)
    ensures |r| == |rows|
  {
    var images := FirstSeenIds(ImageNames(rows));
    var labels := FirstSeenIds(LabelNames(rows));
    FirstSeenIdsKeys(ImageNames(rows));
    FirstSeenIdsKeys(LabelNames(rows));
    seq(|rows|, t requires 0 <= t < |rows| =>
      Annotation(t + 1, images[rows[t].imageName], labels[rows[t].labelName], rows[t].bbox, rows[t].area))
  }

  /** The "categories" list: each label in order of appearance with its id. */
  function CsvCategories(labels: seq<string>): (r: seq<Category>)
    ensures |r| == |labels| && forall k :: 0 <= k < |labels| ==> r[k] == Category(k + 1, labels[k], None)
  {
    seq(|labels|, k requires 0 <= k < |labels| => Category(k + 1, labels[k], None))
  }

  /** The images list and its name-to-id dictionary after `i` rows. */
  ghost predicate ImagesAfter(rows: seq<CsvRow>, i: nat, images: seq<Image>, imageIds: map<string, int>) {
    i <= |rows| && images == ImageEntries(rows[..i]) && imageIds == FirstSeenIds(ImageNames(rows[..i]))
  }

  /** The labels in order and the label-to-id dictionary after `i` rows. */
  ghost predicate LabelsAfter(rows: seq<CsvRow>, i: nat, labelOrder: seq<string>, categories: map<string, int>) {
    i <= |rows| && labelOrder == FirstSeen(LabelNames(rows[..i])) && categories == FirstSeenIds(LabelNames(rows[..i]))
  }

  /** A row whose image name was seen before adds no image entry. */
  lemma EntriesKnown(rows: seq<CsvRow>, i: nat)
    requires i < |rows| && rows[i].imageName in FirstSeenIds(ImageNames(rows[..i]))
    ensures ImageEntries(rows[..i + 1]) == ImageEntries(rows[..i])
  {
    var s := ImageNames(rows[..i]);
    var s' := ImageNames(rows[..i + 1]);
    NamesSnoc(rows, i);
    FirstSeenIdsKnown(s, rows[i].imageName);
    var order := FirstSeen(s);
    forall k | 0 <= k < |order|
      ensures FirstIndex(s', order[k]) == FirstIndex(s, order[k])
    {
      TakeSnoc(s, rows[i].imageName);
      FirstIndexPrefix(s', |s|, order[k]);
    }
  }

  /** A new row does not change the entry of an image name seen before it. */
  lemma EntryKept(rows: seq<CsvRow>, i: nat, k: nat)
    requires i < |rows| && k < |FirstSeen(ImageNames(rows[..i]))|
    ensures k < |ImageEntries(rows[..i + 1])| && ImageEntries(rows[..i + 1])[k] == ImageEntries(rows[..i])[k]
  {
    var s := ImageNames(rows[..i]);
    NamesSnoc(rows, i);
    FirstSeenKept(s, rows[i].imageName, k);
    ImageEntryAt(rows[..i + 1], k);
    ImageEntryAt(rows[..i], k);
    var j := FirstIndex(s, FirstSeen(s)[k]);
    assert rows[..i + 1][j] == rows[..i][j];
  }

  /** A row with a new image name makes one more entry, sized from that row. */
  lemma EntryLast(rows: seq<CsvRow>, i: nat)
    requires i < |rows| && rows[i].imageName !in FirstSeenIds(ImageNames(rows[..i]))
    ensures |ImageEntries(rows[..i + 1])| == |ImageEntries(rows[..i])| + 1
    ensures ImageEntries(rows[..i + 1])[|ImageEntries(rows[..i])|] ==
      Image(|ImageEntries(rows[..i])| + 1, "images/" + rows[i].imageName, rows[i].imageWidth, rows[i].imageHeight)
  {
    var x := rows[i].imageName;
    var s := ImageNames(rows[..i]);
    var s' := ImageNames(rows[..i + 1]);
    NamesSnoc(rows, i);
    FirstSeenIdsNew(s, x);
    FirstSeenIdsKeys(s);
    TakeSnoc(s, x);
    assert FirstIndex(s', x) == i;
  }

  /** A row with a new image name adds its entry at the end, with the next id. */
  lemma EntriesNew(rows: seq<CsvRow>, i: nat)
    requires i < |rows| && rows[i].imageName !in FirstSeenIds(ImageNames(rows[..i]))
    ensures ImageEntries(rows[..i + 1]) == ImageEntries(rows[..i]) +
      [Image(|FirstSeenIds(ImageNames(rows[..i]))| + 1, "images/" + rows[i].imageName, rows[i].imageWidth, rows[i].imageHeight)]
  {
    var e := ImageEntries(rows[..i + 1]);
    var p := ImageEntries(rows[..i]);
    EntryLast(rows, i);
    assert |FirstSeenIds(ImageNames(rows[..i]))| == |p| by { FirstSeenIdsSize(ImageNames(rows[..i])); }
    forall k | 0 <= k < |p| ensures e[k] == p[k] {
      EntryKept(rows, i, k);
    }
  }

  /** A new row leaves the earlier annotations as they were. */
  lemma AnnotationsSnoc(rows: seq<CsvRow>, i: nat)
    requires i < |rows|
    ensures AnnotationsOf(rows[..i + 1])[..i] == AnnotationsOf(rows[..i])
  {
    NamesSnoc(rows, i);
    FirstSeenIdsStableAll(ImageNames(rows[..i]), rows[i].imageName);
    FirstSeenIdsStableAll(LabelNames(rows[..i]), rows[i].labelName);
    var a := AnnotationsOf(rows[..i + 1]);
    var b := AnnotationsOf(rows[..i]);
    forall t | 0 <= t < i ensures a[t] == b[t] {
      assert rows[..i + 1][t] == rows[..i][t];
      assert ImageNames(rows[..i])[t] == rows[..i][t].imageName;
      assert LabelNames(rows[..i])[t] == rows[..i][t].labelName;
    }
  }

  /** How the label order and the label-to-id dictionary grow with row i. */
  lemma LabelsStep(rows: seq<CsvRow>, i: nat, labelOrder: seq<string>, categories: map<string, int>)
    requires i < |rows| && LabelsAfter(rows, i, labelOrder, categories)
    ensures var x := rows[i].labelName;
      LabelsAfter(rows, i + 1,
        if x in categories then labelOrder else labelOrder + [x],
        if x in categories then categories else categories[x := |categories| + 1])
  {
    NamesSnoc(rows, i);
    FirstSeenStep(LabelNames(rows[..i]), rows[i].labelName, LabelNames(rows[..i + 1]));
  }

  /** How the images list and the image-to-id dictionary grow with row i. */
  lemma ImagesStep(rows: seq<CsvRow>, i: nat, images: seq<Image>, imageIds: map<string, int>)
    requires i < |rows| && ImagesAfter(rows, i, images, imageIds)
    ensures var row := rows[i];
      ImagesAfter(rows, i + 1,
        if row.imageName in imageIds then images
        else images + [Image(|imageIds| + 1, "images/" + row.imageName, row.imageWidth, row.imageHeight)],
        if row.imageName in imageIds then imageIds else imageIds[row.imageName := |imageIds| + 1])
  {
    NamesSnoc(rows, i);
    FirstSeenStep(ImageNames(rows[..i]), rows[i].imageName, ImageNames(rows[..i + 1]));
    if rows[i].imageName in imageIds {
      EntriesKnown(rows, i);
    } else {
      EntriesNew(rows, i);
    }
  }

  /** The image step of one row: a new name gets the next id and an entry. */
  method AddImage(rows: seq<CsvRow>, i: nat, images: seq<Image>, imageIds: map<string, int>)
    returns (images': seq<Image>, imageIds': map<string, int>)
    requires i < |rows| && ImagesAfter(rows, i, images, imageIds)
    ensures ImagesAfter(rows, i + 1, images', imageIds')
  {
    var row := rows[i];
    images', imageIds' := images, imageIds;
    if row.imageName !in imageIds {
      images' := images + [Image(|imageIds| + 1, "images/" + row.imageName, row.imageWidth, row.imageHeight)];
      imageIds' := imageIds[row.imageName := |imageIds| + 1];
    }
    ImagesStep(rows, i, images, imageIds);
  }

  /** The category step of one row: a new label gets the next id. */
  method AddCategory(rows: seq<CsvRow>, i: nat, labelOrder: seq<string>, categories: map<string, int>)
    returns (labelOrder': seq<string>, categories': map<string, int>)
    requires i < |rows| && LabelsAfter(rows, i, labelOrder, categories)
    ensures LabelsAfter(rows, i + 1, labelOrder', categories')
  {
    var row := rows[i];
    labelOrder', categories' := labelOrder, categories;
    if row.labelName !in categories {
      categories' := categories[row.labelName := |categories| + 1];
      labelOrder' := labelOrder + [row.labelName];
    }
    LabelsStep(rows, i, labelOrder, categories);
  }

  /** The annotation step of one row: the next id, and the row's image and category ids. */
  method AddAnnotation(rows: seq<CsvRow>, i: nat, imageIds: map<string, int>, categories: map<string, int>, annotations: seq<Annotation>)
    returns (annotations': seq<Annotation>)
    requires i < |rows| && imageIds == FirstSeenIds(ImageNames(rows[..i + 1])) && categories == FirstSeenIds(LabelNames(rows[..i + 1]))
    requires annotations == AnnotationsOf(rows[..i])
    ensures annotations' == AnnotationsOf(rows[..i + 1])
  {
    AnnotationStep(rows, i, imageIds, categories);
    annotations' := annotations + [Annotation(i + 1, imageIds[rows[i].imageName], categories[rows[i].labelName], rows[i].bbox, rows[i].area)];
  }

  /** How the annotations grow with row i: one more, numbered i + 1, with the row's image and category ids. */
  lemma AnnotationStep(rows: seq<CsvRow>, i: nat, imageIds: map<string, int>, categories: map<string, int>)
    requires i < |rows| && imageIds == FirstSeenIds(ImageNames(rows[..i + 1])) && categories == FirstSeenIds(LabelNames(rows[..i + 1]))
    ensures rows[i].imageName in imageIds && rows[i].labelName in categories
    ensures AnnotationsOf(rows[..i + 1]) == AnnotationsOf(rows[..i]) +
      [Annotation(i + 1, imageIds[rows[i].imageName], categories[rows[i].labelName], rows[i].bbox, rows[i].area)]
  {
    var row := rows[i];
    assert row.imageName in imageIds && row.labelName in categories by {
      NamesSnoc(rows, i);
      FirstSeenIdsKeys(ImageNames(rows[..i + 1]));
      FirstSeenIdsKeys(LabelNames(rows[..i + 1]));
    }
    var a := AnnotationsOf(rows[..i + 1]);
    assert a[i] == Annotation(i + 1, imageIds[row.imageName], categories[row.labelName], row.bbox, row.area) by {
      assert rows[..i + 1][i] == row;
    }
    assert a[..i] == AnnotationsOf(rows[..i]) by { AnnotationsSnoc(rows, i); }
    assert a == a[..i] + [a[i]];
  }

  /**
   * ConvertorCsv2CocoJson.execute: a missing required column raises
   * KeyError; otherwise one image per distinct image name and one category
   * per distinct label, both numbered from 1 in order of first appearance,
   * and one annotation per row numbered from 1.
   */
  method Csv2CocoJson(fieldnames: seq<string>, rows: seq<CsvRow>) returns (r: Result<CocoFile>)
    ensures r.Err? <==> exists c :: c in REQUIRED_COLUMNS && c !in fieldnames
    ensures r.Ok? ==> r.value == CocoFile(ImageEntries(rows), Some(AnnotationsOf(rows)), Some(CsvCategories(FirstSeen(LabelNames(rows)))), None, None)
  {
    for k := 0 to |REQUIRED_COLUMNS|
      invariant forall j :: 0 <= j < k ==> REQUIRED_COLUMNS[j] in fieldnames
    {
      if REQUIRED_COLUMNS[k] !in fieldnames {
        return Err("KeyError: Missing mandatory column: " + REQUIRED_COLUMNS[k]);
      }
    }
    var images: seq<Image> := [];
    var imageIds: map<string, int> := map[];
    var labelOrder: seq<string> := [];
    var categories: map<string, int> := map[];
    var annotations: seq<Annotation> := [];
    var i := 0;
    while i < |rows|
      invariant ImagesAfter(rows, i, images, imageIds) && LabelsAfter(rows, i, labelOrder, categories)
      invariant annotations == AnnotationsOf(rows[..i])
    {
      images, imageIds := AddImage(rows, i, images, imageIds);
      labelOrder, categories := AddCategory(rows, i, labelOrder, categories);
      annotations := AddAnnotation(rows, i, imageIds, categories, annotations);
      i := i + 1;
    }
    TakeAll(rows);
    assert LabelsAfter(rows, |rows|, labelOrder, categories);
    CategoryEntriesOfRows(rows, labelOrder, categories);
    return Ok(CocoFile(images, Some(annotations), Some(CategoryEntries(labelOrder, categories)), None, None));
  }

  /** The "categories" comprehension over the label dictionary, in insertion order. */
  function CategoryEntries(labelOrder: seq<string>, categories: map<string, int>): seq<Category>
    requires forall k :: 0 <= k < |labelOrder| ==> labelOrder[k] in categories
  {
    seq(|labelOrder|, k requires 0 <= k < |labelOrder| => Category(categories[labelOrder[k]], labelOrder[k], None))
  }

  /** After all rows, the comprehension lists each label in order of appearance with ids 1, 2, ... */
  lemma CategoryEntriesOfRows(rows: seq<CsvRow>, labelOrder: seq<string>, categories: map<string, int>)
    requires LabelsAfter(rows, |rows|, labelOrder, categories)
    ensures forall k :: 0 <= k < |labelOrder| ==> labelOrder[k] in categories
    ensures CategoryEntries(labelOrder, categories) == CsvCategories(FirstSeen(LabelNames(rows)))
  {
    TakeAll(rows);
    FirstSeenIdsAgree(LabelNames(rows));
  }

  /** Each annotation points at the image entry of its own row. */
  lemma AnnotationImage(rows: seq<CsvRow>, t: nat)
    requires t < |rows|
    ensures 1 <= AnnotationsOf(rows)[t].imageId <= |ImageEntries(rows)|
    ensures ImageEntries(rows)[AnnotationsOf(rows)[t].imageId - 1].fileName == "images/" + rows[t].imageName
  {
    var names := ImageNames(rows);
    var x := rows[t].imageName;
    assert x in names by {
      assert names[t] == x;
    }
    AnnotationAt(rows, t);
    var id := AnnotationsOf(rows)[t].imageId;
    assert ImageEntries(rows)[id - 1].fileName == "images/" + x by {
      ImageIdEntry(rows, x, id);
    }
  }

  /** The k-th image entry: numbered k + 1, named after the k-th image name in order of first appearance, sized from that name's first row. */
  lemma ImageEntryAt(rows: seq<CsvRow>, k: nat)
    requires k < |FirstSeen(ImageNames(rows))|
    ensures FirstSeen(ImageNames(rows))[k] in ImageNames(rows)
    ensures var x := FirstSeen(ImageNames(rows))[k];
      var first := rows[FirstIndex(ImageNames(rows), x)];
      ImageEntries(rows)[k] == Image(k + 1, "images/" + x, first.imageWidth, first.imageHeight)
  {
  }

  /** The id the dictionary gives an image name picks out the image entry made for that name. */
  lemma ImageIdEntry(rows: seq<CsvRow>, x: string, id: int)
    requires x in ImageNames(rows) && x in FirstSeenIds(ImageNames(rows)) && id == FirstSeenIds(ImageNames(rows))[x]
    ensures 1 <= id <= |ImageEntries(rows)|
    ensures ImageEntries(rows)[id - 1].fileName == "images/" + x
  {
    FirstSeenIdsPlace(ImageNames(rows), x);
    ImageEntryAt(rows, id - 1);
  }

  /** The annotation of row t carries the ids the dictionaries gave that row's image name and label. */
  lemma AnnotationAt(rows: seq<CsvRow>, t: nat)
    requires t < |rows|
    ensures rows[t].imageName in FirstSeenIds(ImageNames(rows)) && rows[t].labelName in FirstSeenIds(LabelNames(rows))
    ensures AnnotationsOf(rows)[t] == Annotation(t + 1, FirstSeenIds(ImageNames(rows))[rows[t].imageName],
      FirstSeenIds(LabelNames(rows))[rows[t].labelName], rows[t].bbox, rows[t].area)
  {
    FirstSeenIdsKeys(ImageNames(rows));
    FirstSeenIdsKeys(LabelNames(rows));
    assert ImageNames(rows)[t] == rows[t].imageName && LabelNames(rows)[t] == rows[t].labelName;
  }

  /** Each annotation points at the category of its own row. */
  lemma AnnotationCategory(rows: seq<CsvRow>, t: nat)
    requires t < |rows|
    ensures 1 <= AnnotationsOf(rows)[t].categoryId <= |FirstSeen(LabelNames(rows))|
    ensures CsvCategories(FirstSeen(LabelNames(rows)))[AnnotationsOf(rows)[t].categoryId - 1].name == rows[t].labelName
  {
    var labels := LabelNames(rows);
    var x := rows[t].labelName;
    assert x in labels by {
      assert labels[t] == x;
    }
    LabelCategory(labels, x);
    AnnotationAt(rows, t);
  }

  /** The id the dictionary gives a label picks out that label's entry in the categories list. */
  lemma LabelCategory(labels: seq<string>, x: string)
    requires x in labels
    ensures x in FirstSeenIds(labels) && 1 <= FirstSeenIds(labels)[x] <= |FirstSeen(labels)|
    ensures CsvCategories(FirstSeen(labels))[FirstSeenIds(labels)[x] - 1].name == x
  {
    FirstSeenIdsPlace(labels, x);
  }

  /** The header row of every CSV file written by the bbox JSON converter. */
  const BBOX_HEADER: seq<string> :=
    ["label_name", "bbox_x", "bbox_y", "bbox_width", "bbox_height", "image_name", "image_width", "image_height"]

  /** The annotation fields each row reads, in the order the row lists them (the image name comes from the key). */
  const BBOX_FIELDS: seq<string> :=
    ["label_name", "bbox_x", "bbox_y", "bbox_width", "bbox_height", "image_width", "image_height"]

  /** One CSV file as written: its name, its header and the data rows written before it was closed. */
  datatype CsvFile = CsvFile(name: string, header: seq<string>, rows: seq<seq<Json>>)

  /** `obj[key]` for each key in turn; the first key that is missing raises KeyError. */
  function Lookup(entries: seq<(string, Json)>, keys: seq<string>): (r: Result<seq<Json>>)
    ensures r.Ok? <==> forall k :: 0 <= k < |keys| ==> keys[k] in Keys(entries)
    ensures r.Ok? ==> |r.value| == |keys| && forall k :: 0 <= k < |keys| ==> Some(r.value[k]) == Get(entries, keys[k])
    ensures r.Err? ==> exists k :: 0 <= k < |keys| && keys[k] !in Keys(entries) && r.error == "KeyError: " + keys[k]
  {
    if keys == [] then Ok([])
    else
      GetSpec(entries, keys[0]);
      match Get(entries, keys[0])
      case None => Err("KeyError: " + keys[0])
      case Some(v) =>
        match Lookup(entries, keys[1..])
        case Err(e) => Err(e)
        case Ok(vs) => Ok([v] + vs)
  }

  /** The CSV row of one annotation of image `imageName`. */
  function AnnotationRow(ann: Json, imageName: string): (r: Result<seq<Json>>)
    ensures r.Ok? <==> ann.JObject? && forall k :: 0 <= k < |BBOX_FIELDS| ==> BBOX_FIELDS[k] in Keys(ann.entries)
    ensures !ann.JObject? ==> r == Err("ValueError: Expected annotation to be a dictionary")
    ensures r.Ok? ==> |r.value| == |BBOX_HEADER| && r.value[5] == JString(imageName)
    ensures r.Ok? ==> forall k :: 0 <= k < |BBOX_HEADER| && k != 5 ==> Some(r.value[k]) == Get(ann.entries, BBOX_HEADER[k])
  {
    if !ann.JObject? then Err("ValueError: Expected annotation to be a dictionary")
    else
      match Lookup(ann.entries, BBOX_FIELDS)
      case Err(e) => Err(e)
      case Ok(vs) => Ok(vs[..5] + [JString(imageName)] + vs[5..])
  }

  /**
   * Applies `f` to each element in turn and collects the results until the
   * first error, which ends the run.
   */
  function UntilError<A, R>(xs: seq<A>, f: A -> Result<R>): (r: (seq<R>, Option<string>))
    ensures |r.0| <= |xs|
  {
    if xs == [] then ([], None)
    else
      var prev := UntilError(xs[..|xs| - 1], f);
      if prev.1.Some? then prev
      else
        match f(xs[|xs| - 1])
        case Ok(y) => (prev.0 + [y], None)
        case Err(e) => (prev.0, Some(e))
  }

  /**
   * The results collected are exactly those of the elements before the
   * first error, and the error is that element's; with no error every
   * element has its result.
   */
  lemma {:induction false} UntilErrorSpec<A, R>(xs: seq<A>, f: A -> Result<R>)
    ensures forall j :: 0 <= j < |UntilError(xs, f).0| ==> f(xs[j]) == Ok(UntilError(xs, f).0[j])
    ensures UntilError(xs, f).1 == None <==> forall j :: 0 <= j < |xs| ==> f(xs[j]).Ok?
    ensures UntilError(xs, f).1 == None ==> |UntilError(xs, f).0| == |xs|
    ensures UntilError(xs, f).1.Some? ==>
      |UntilError(xs, f).0| < |xs| && f(xs[|UntilError(xs, f).0|]) == Err(UntilError(xs, f).1.value)
  {
    if xs != [] {
      var n := |xs| - 1;
      UntilErrorSpec(xs[..n], f);
      assert forall j :: 0 <= j < n ==> xs[..n][j] == xs[j];
    }
  }

  /** Once an error has stopped the run, further elements change nothing. */
  lemma {:induction false} UntilErrorStops<A, R>(xs: seq<A>, f: A -> Result<R>, j: nat)
    requires j <= |xs| && UntilError(xs[..j], f).1.Some?
    ensures UntilError(xs, f) == UntilError(xs[..j], f)
  {
    if j < |xs| {
      var n := |xs| - 1;
      assert xs[..n][..j] == xs[..j];
      UntilErrorStops(xs[..n], f, j);
    } else {
      assert xs[..j] == xs;
    }
  }

  /** The rows written for the annotations of one image, and the error that stopped the writing, if any. */
  function RowsOf(anns: seq<Json>, imageName: string): (r: (seq<seq<Json>>, Option<string>))
    ensures |r.0| <= |anns|
  {
    UntilError(anns, ann => AnnotationRow(ann, imageName))
  }

  /**
   * The loop of execute over one image's annotations: each annotation is
   * written as a row as soon as it is read, and the first bad one raises.
   */
  method WriteRows(anns: seq<Json>, imageName: string) returns (rows: seq<seq<Json>>, err: Option<string>)
    ensures rows == RowsOf(anns, imageName).0 && err == RowsOf(anns, imageName).1
  {
    var f := ann => AnnotationRow(ann, imageName);
    rows, err := [], None;
    var j := 0;
    while j < |anns|
      invariant 0 <= j <= |anns|
      invariant (rows, err) == UntilError(anns[..j], f)
    {
      assert anns[..j + 1][..j] == anns[..j];
      match f(anns[j])
      case Ok(row) =>
        rows := rows + [row];
        j := j + 1;
      case Err(e) =>
        err := Some(e);
        j := j + 1;
        break;
    }
    if err.Some? {
      UntilErrorStops(anns, f, j);
    } else {
      assert anns[..j] == anns;
    }
  }

  /** The files written for the first keys of the object, and the error that stopped the conversion, if any. */
  function FilesOf(names: seq<string>, entries: seq<(string, Json)>): (r: (seq<CsvFile>, Option<string>))
    requires forall k :: 0 <= k < |names| ==> names[k] in Keys(entries)
    ensures |r.0| <= |names|
  {
    if names == [] then ([], None)
    else
      var n := |names| - 1;
      var prev := FilesOf(names[..n], entries);
      var v := ValueOf(entries, names[n]);
      if prev.1.Some? || v.JString? then prev
      else if !v.JArray? then (prev.0, Some("ValueError: Expected annotations for " + names[n] + " to be a list"))
      else
        var rows := RowsOf(v.items, names[n]);
        (prev.0 + [CsvFile(names[n] + ".csv", BBOX_HEADER, rows.0)], rows.1)
  }

  /** The value of a key is converted cleanly: skipped as a string, or a list of good annotations. */
  predicate CleanValue(v: Json, imageName: string)
  {
    v.JString? || (v.JArray? && forall j :: 0 <= j < |v.items| ==> AnnotationRow(v.items[j], imageName).Ok?)
  }

  /** The conversion ends without error exactly when every key's value is clean. */
  lemma {:induction false} FilesOfClean(names: seq<string>, entries: seq<(string, Json)>)
    requires forall k :: 0 <= k < |names| ==> names[k] in Keys(entries)
    ensures FilesOf(names, entries).1 == None <==>
      forall k :: 0 <= k < |names| ==> CleanValue(ValueOf(entries, names[k]), names[k])
  {
    if names != [] {
      var n := |names| - 1;
      var prefix := names[..n];
      assert forall k :: 0 <= k < n ==> prefix[k] == names[k];
      FilesOfClean(prefix, entries);
      var v := ValueOf(entries, names[n]);
      if v.JArray? {
        UntilErrorSpec(v.items, ann => AnnotationRow(ann, names[n]));
      }
    }
  }

  /** A file written for key `name`: the header, then at most one row per annotation, each naming the image. */
  predicate FileFor(f: CsvFile, name: string, v: Json)
  {
    f.name == name + ".csv" && f.header == BBOX_HEADER && v.JArray? && |f.rows| <= |v.items| &&
    forall j :: 0 <= j < |f.rows| ==> |f.rows[j]| == |BBOX_HEADER| && f.rows[j][5] == JString(name)
  }

  /**
   * Every file written belongs to a key with a list value; without error it
   * has one row per annotation of that key.
   */
  lemma {:induction false} FilesOfShape(names: seq<string>, entries: seq<(string, Json)>)
    requires forall k :: 0 <= k < |names| ==> names[k] in Keys(entries)
    ensures forall f :: f in FilesOf(names, entries).0 ==>
      exists k :: 0 <= k < |names| && FileFor(f, names[k], ValueOf(entries, names[k])) &&
        (FilesOf(names, entries).1 == None ==> |f.rows| == |ValueOf(entries, names[k]).items|)
  {
    if names != [] {
      var n := |names| - 1;
      var prefix := names[..n];
      assert forall k :: 0 <= k < n ==> prefix[k] == names[k];
      FilesOfShape(prefix, entries);
      FilesOfSnoc(names, entries, n);
      assert names[..n + 1] == names;
      var prev := FilesOf(prefix, entries);
      var r := FilesOf(names, entries);
      var v := ValueOf(entries, names[n]);
      forall f | f in r.0
        ensures exists k :: 0 <= k < |names| && FileFor(f, names[k], ValueOf(entries, names[k])) &&
                  (r.1 == None ==> |f.rows| == |ValueOf(entries, names[k]).items|)
      {
        if f in prev.0 {
          var k :| 0 <= k < n && FileFor(f, prefix[k], ValueOf(entries, prefix[k])) &&
            (prev.1 == None ==> |f.rows| == |ValueOf(entries, prefix[k]).items|);
          assert prefix[k] == names[k];
        } else {
          UntilErrorSpec(v.items, ann => AnnotationRow(ann, names[n]));
          assert FileFor(f, names[n], v);
        }
      }
    }
  }

  /** Without error, every key with a list value has its file, holding one converted row per annotation. */
  lemma {:induction false} FilesOfComplete(names: seq<string>, entries: seq<(string, Json)>)
    requires forall k :: 0 <= k < |names| ==> names[k] in Keys(entries)
    ensures FilesOf(names, entries).1 == None ==>
      forall k :: 0 <= k < |names| && ValueOf(entries, names[k]).JArray? ==>
        CsvFile(names[k] + ".csv", BBOX_HEADER, RowsOf(ValueOf(entries, names[k]).items, names[k]).0) in FilesOf(names, entries).0
  {
    if names != [] && FilesOf(names, entries).1 == None {
      var n := |names| - 1;
      var prefix := names[..n];
      assert forall k :: 0 <= k < n ==> prefix[k] == names[k];
      FilesOfComplete(prefix, entries);
      FilesOfSnoc(names, entries, n);
      assert names[..n + 1] == names;
      var prev := FilesOf(prefix, entries);
      assert prev.1 == None;
      assert forall f :: f in prev.0 ==> f in FilesOf(names, entries).0;
    }
  }

  /** One more key, as the loop of execute handles it. */
  lemma FilesOfSnoc(names: seq<string>, entries: seq<(string, Json)>, i: nat)
    requires forall k :: 0 <= k < |names| ==> names[k] in Keys(entries)
    requires i < |names|
    ensures var prev := FilesOf(names[..i], entries);
      var v := ValueOf(entries, names[i]);
      FilesOf(names[..i + 1], entries) ==
        if prev.1.Some? || v.JString? then prev
        else if !v.JArray? then (prev.0, Some("ValueError: Expected annotations for " + names[i] + " to be a list"))
        else (prev.0 + [CsvFile(names[i] + ".csv", BBOX_HEADER, RowsOf(v.items, names[i]).0)], RowsOf(v.items, names[i]).1)
  {
    assert names[..i + 1][..i] == names[..i];
  }

  /** Once an error has stopped the conversion, further keys change nothing. */
  lemma {:induction false} FilesOfStops(names: seq<string>, entries: seq<(string, Json)>, i: nat)
    requires forall k :: 0 <= k < |names| ==> names[k] in Keys(entries)
    requires i <= |names| && FilesOf(names[..i], entries).1.Some?
    ensures FilesOf(names, entries) == FilesOf(names[..i], entries)
  {
    if i < |names| {
      var n := |names| - 1;
      assert names[..n][..i] == names[..i];
      FilesOfStops(names[..n], entries, i);
    } else {
      assert names[..i] == names;
    }
  }

  /**
   * ConvertorBboxJson2Csv.execute on the loaded JSON: for each key of the
   * object (in order of first appearance, a repeated key keeping its last
   * value) a string value is skipped, a list value becomes the file
   * "<key>.csv" with the header and one row per annotation, and anything
   * else stops the conversion with ValueError. A file is written row by
   * row, so the file being written when an error occurs keeps the rows
   * written before it.
   */
  method BboxJson2Csv(data: Json) returns (files: seq<CsvFile>, err: Option<string>)
    ensures !data.JObject? ==> files == [] && err == Some("ValueError: Expected JSON data to be a dictionary")
    ensures data.JObject? ==> files == FilesOf(ObjectKeys(data.entries), data.entries).0
    ensures data.JObject? ==> err == FilesOf(ObjectKeys(data.entries), data.entries).1
  {
    if !data.JObject? {
      return [], Some("ValueError: Expected JSON data to be a dictionary");
    }
    var entries := data.entries;
    var names := ObjectKeys(entries);
    files, err := [], None;
    var i := 0;
    while i < |names|
      invariant 0 <= i <= |names|
      invariant files == FilesOf(names[..i], entries).0 && err == FilesOf(names[..i], entries).1
      invariant err.None?
    {
      FilesOfSnoc(names, entries, i);
      var name := names[i];
      var annotations := ValueOf(entries, name);
      if annotations.JString? {
        i := i + 1;
        continue;
      }
      if !annotations.JArray? {
        err := Some("ValueError: Expected annotations for " + name + " to be a list");
        i := i + 1;
        break;
      }
      var rows, rowErr := WriteRows(annotations.items, name);
      files := files + [CsvFile(name + ".csv", BBOX_HEADER, rows)];
      err := rowErr;
      i := i + 1;
      if err.Some? {
        break;
      }
    }
    if err.Some? {
      FilesOfStops(names, entries, i);
    } else {
      assert names[..i] == names;
    }
  }
}
