# active-ml-server and web-platform helpers, modelled in Dafny

This project models the active-learning ML worker (`active-ml-server`) and a few pure
helpers of the web platform's backend, and proves properties about them.

The worker side covers:

- detection post-processing: rectangle overlap, IoU, containment, greedy score-ordered
  suppression, the confidence filter;
- bounding-box augmentation: flip, rotate, clamp;
- the on-disk model version store (`v<N>-<timestamp>[_temp]` directories) and the
  promotion of a temporary model over the final one;
- class aliasing (`classN`) and rewriting of COCO files;
- batch selection and batch COCO files for the detection model;
- the detection dataset pipeline (augmentation names, COCO id assignment, split);
- segmentation chunk arithmetic, image/mask pairing and the train/validation split;
- class remapping, segmentation augmentation counts, palette/RGB pixel rules;
- CSV/COCO/bbox-JSON conversion;
- converters between the platform and the task folders (download counting, URL to
  record maps, batched upload);
- the job state machine that reports package status;
- the server's polling tick with its busy flag.

The web side covers:

- label-tree leaf extraction and colour assignment;
- dataset naming with default label properties;
- the name given to a dataset copy, and the copy's progress: the steps it counts, the steps it takes, and the percentage it reports after each;
- removal of a deleted class's annotations from detection files.

One Dafny module stands for each source file:

- pure code becomes datatypes, functions and lemmas;
- code that updates objects becomes classes whose methods state their new state;
- loops become methods proved against the functions that specify them.

Filesystems, HTTP responses, training results and other library outcomes enter as values or
oracle parameters. Shared modules are `Wrappers` (Option/Result), `Text`, `Numbers`,
`Sorting` and `Json`.

`extract_leaf_classes`, `process_label_properties` and `generate_unique_color` appear twice
in the web backend (`services.py` and `tasks.py`) with the same body. Both copies are
modelled by the single definitions in `LabelProperties`.

## Model

| member | source | states |
|---|---|---|
| ResultsProcessor.Overlap1D | active-ml-server/quantitave_analysis/models/detection/results_processor.py:31-36 | the shared extent on one axis is positive exactly when both lengths are positive and the extents overlap, and is never more than either length |
| ResultsProcessor.IntersectionArea | active-ml-server/quantitave_analysis/models/detection/results_processor.py:29-39 | the area is never negative, is positive exactly when the interiors of the two boxes meet on both axes, and is then no more than either box's area |
| ResultsProcessor.IntersectionSymmetric | active-ml-server/quantitave_analysis/models/detection/results_processor.py:29-39 | the intersection area does not depend on the order of the boxes |
| ResultsProcessor.Iou | active-ml-server/quantitave_analysis/models/detection/results_processor.py:41-49 | IoU is 0 exactly when the intersection is 0; otherwise the union is positive and IoU times the union is the intersection; IoU lies in [0, 1] |
| ResultsProcessor.IouSymmetric | active-ml-server/quantitave_analysis/models/detection/results_processor.py:41-49 | IoU does not depend on the order of the boxes |
| ResultsProcessor.ContainmentOverlaps | active-ml-server/quantitave_analysis/models/detection/results_processor.py:51-69 | a box inside the other (in either direction) counts as touching whatever the IoU threshold |
| ResultsProcessor.TouchingSymmetric | active-ml-server/quantitave_analysis/models/detection/results_processor.py:51-69 | the touching-or-contained test is symmetric |
| ResultsProcessor.DisjointNeverSuppressed | active-ml-server/quantitave_analysis/models/detection/results_processor.py:51-69 | with a non-negative threshold, boxes whose interiors do not meet and neither of which contains the other do not touch |
| ResultsProcessor.SortByScore | active-ml-server/quantitave_analysis/models/detection/results_processor.py:78 | the sort is a permutation of its input in non-increasing score order |
| ResultsProcessor.SortByScoreStable | active-ml-server/quantitave_analysis/models/detection/results_processor.py:78 | the sort is stable: for every score, the boxes with that score come out in their input order (so of tied boxes the earlier is kept by suppression) |
| Sorting.SortByStable | active-ml-server/quantitave_analysis/models/detection/results_processor.py:78 | the insertion sort keeps every class of mutually equal elements in input order, as Python's sort does |
| ResultsProcessor.Survivors | active-ml-server/quantitave_analysis/models/detection/results_processor.py:88-95 | the boxes kept after taking the current one are a subsequence of the rest: exactly those the current box does not touch |
| ResultsProcessor.FilterOverlappingRectangles | active-ml-server/quantitave_analysis/models/detection/results_processor.py:71-98 | the loop keeps the detections of greedy suppression over the score-sorted boxes; an empty input gives an empty result |
| ResultsProcessor.GreedySubseq | active-ml-server/quantitave_analysis/models/detection/results_processor.py:81-95 | greedy suppression returns a subsequence of its input |
| ResultsProcessor.KeptOrdered | active-ml-server/quantitave_analysis/models/detection/results_processor.py:71-98 | the kept boxes are a subsequence of the sorted input, in non-increasing score order, drawn from the input; none are kept from an empty input |
| ResultsProcessor.GreedyApart | active-ml-server/quantitave_analysis/models/detection/results_processor.py:81-95 | no kept box touches a later kept box |
| ResultsProcessor.GreedyOfApart | active-ml-server/quantitave_analysis/models/detection/results_processor.py:81-95 | a list of mutually apart boxes passes through greedy suppression unchanged |
| ResultsProcessor.DroppedAreCovered | active-ml-server/quantitave_analysis/models/detection/results_processor.py:81-95 | every box of a sorted input is kept, or touched by a kept box whose score is at least its own |
| ResultsProcessor.FilterGuarantees | active-ml-server/quantitave_analysis/models/detection/results_processor.py:71-98 | for any input, no two kept boxes touch in either order, and every dropped box is touched by a kept box with at least its score |
| ResultsProcessor.FilterIdempotent | active-ml-server/quantitave_analysis/models/detection/results_processor.py:71-98 | filtering the detections the filter returned, rebuilt into rectangles, returns them unchanged |
| ResultsProcessor.RebuiltRectangles | active-ml-server/quantitave_analysis/models/detection/results_processor.py:146-154 | rectangles built from detections, and any selection of them, are rebuilt unchanged from their detections |
| ResultsProcessor.ToDetection | active-ml-server/quantitave_analysis/models/detection/results_processor.py:131-143 | a label missing from the reverse mapping passes through, a mapped one is replaced; x and y are the first corner, width and height the corner differences; score, image name, image width and image height are kept |
| ResultsProcessor.ProcessImageBoxes | active-ml-server/quantitave_analysis/models/detection/results_processor.py:126-158 | the candidates are exactly, in order, the detections of the boxes scoring strictly above the confidence threshold, and the filtered list is the overlap filter of their rectangles |
| ResultsProcessor.CollectCandidates | active-ml-server/quantitave_analysis/models/detection/results_processor.py:128-156 | the loop collects the candidates left to right, with one rectangle per candidate built from it |
| ResultsProcessor.CandidatesAll | active-ml-server/quantitave_analysis/models/detection/results_processor.py:128-156 | collecting left to right gives the boxes above the threshold, in order, each made a detection |
| ResultsProcessor.CandidatesSpec | active-ml-server/quantitave_analysis/models/detection/results_processor.py:128-156 | every candidate scores strictly above the threshold and is the detection of some box, and every box above the threshold has its detection among them |
| DetectionAugmentations.ScaleBox | active-ml-server/quantitave_analysis/augmentations/detection_augmentations.py:17-26 | scaling a box keeps its other keys |
| DetectionAugmentations.Scale | active-ml-server/quantitave_analysis/augmentations/detection_augmentations.py:12-28 | every box is scaled, one for one and in order |
| DetectionAugmentations.ScaleStaysInside | active-ml-server/quantitave_analysis/augmentations/detection_augmentations.py:12-28 | a box inside the image stays inside the scaled image, all coordinates truncated |
| DetectionAugmentations.FlipBox | active-ml-server/quantitave_analysis/augmentations/detection_augmentations.py:36-41 | codes 1 and -1 set x to W - x - w, codes 0 and -1 set y to H - y - h; otherwise x and y are kept; width, height and other keys are kept |
| DetectionAugmentations.Flip | active-ml-server/quantitave_analysis/augmentations/detection_augmentations.py:31-43 | every box is flipped, one for one and in order |
| DetectionAugmentations.FlipStaysInside | active-ml-server/quantitave_analysis/augmentations/detection_augmentations.py:36-41 | a box inside the image stays inside after a flip |
| DetectionAugmentations.FlipTwice | active-ml-server/quantitave_analysis/augmentations/detection_augmentations.py:31-43 | flipping twice with the same code and image size gives the original boxes back |
| DetectionAugmentations.RotateBox | active-ml-server/quantitave_analysis/augmentations/detection_augmentations.py:56-63 | 90 clockwise gives (y, W-x-w, h, w), 180 gives (W-x-w, H-y-h, w, h), 270 gives (H-y-h, x, h, w); the rotated box has only the four bbox keys |
| DetectionAugmentations.Rotate | active-ml-server/quantitave_analysis/augmentations/detection_augmentations.py:46-65 | every box is rotated, one for one and in order |
| DetectionAugmentations.RotateStaysInside | active-ml-server/quantitave_analysis/augmentations/detection_augmentations.py:53-63 | a box inside the image stays inside the rotated image (width and height swapped for quarter turns) |
| DetectionAugmentations.HalfTurnIsDoubleFlip | active-ml-server/quantitave_analysis/augmentations/detection_augmentations.py:59-60 | a half turn is the flip with code -1 of the box stripped to its four keys |
| DetectionAugmentations.QuarterTurnsCancel | active-ml-server/quantitave_analysis/augmentations/detection_augmentations.py:53-63 | a quarter turn on W×H followed by the opposite quarter turn on H×W restores boxes that have only the four keys |
| DetectionAugmentations.AdjustBrightness | active-ml-server/quantitave_analysis/augmentations/detection_augmentations.py:68-71 | the boxes come back unchanged |
| DetectionAugmentations.FixBbox | active-ml-server/quantitave_analysis/augmentations/detection_augmentations.py:74-79 | x and y are at least 0, width and height at least 1; for a non-empty image x ≤ W-1 and x+w ≤ W (likewise y); coordinates already inside are kept |
| DetectionAugmentations.FixBboxIdempotent | active-ml-server/quantitave_analysis/augmentations/detection_augmentations.py:74-79 | fixing a fixed box changes nothing |
| TemporaryStorage.DigitRunEnd | active-ml-server/quantitave_analysis/utils/temporary_storage.py:133 | the run of digits matched by `\d+` from a position is maximal: every character in it is a digit and the next one, if any, is not |
| TemporaryStorage.DigitRunStops | active-ml-server/quantitave_analysis/utils/temporary_storage.py:133 | a digit run stops at the first non-digit |
| TemporaryStorage.VersionNameParses | active-ml-server/quantitave_analysis/utils/temporary_storage.py:176-181 | a name `v<N>-<timestamp>` (with or without `_temp`) matches the `v*-*` glob and the `v(\d+)-` search reads N back |
| TemporaryStorage.ParsedVersionsAdd | active-ml-server/quantitave_analysis/utils/temporary_storage.py:125-135 | the version numbers parsed from a set of names grow by exactly the number parsed from an added name, if it is globbed and parses |
| TemporaryStorage.VersionNumberStep | active-ml-server/quantitave_analysis/utils/temporary_storage.py:130-137 | one step of the parse-and-max loop keeps the result equal to the maximum parsed number, or -1 when nothing parsed |
| TemporaryStorage.NextVersionNameFresh | active-ml-server/quantitave_analysis/utils/temporary_storage.py:173-181 | the name built from the current version number plus one is not yet in the folder, so the clash-and-retry branch cannot fire when saves happen one at a time |
| TemporaryStorage.NextVersionAfterSave | active-ml-server/quantitave_analysis/utils/temporary_storage.py:173-192 | after adding the new version directory, the version number of the folder is that new number |
| TemporaryStorage.ModelFolder.GetNumberOfVersion | active-ml-server/quantitave_analysis/utils/temporary_storage.py:110-137 | -1 when the folder is missing, has no `v*-*` entry or no entry parses; otherwise the largest parsed N, `_temp` directories included |
| TemporaryStorage.ModelFolder.GetNextVersion | active-ml-server/quantitave_analysis/utils/temporary_storage.py:58-81 | the next version's name is `v<N+1>-<timestamp>` where N is the folder's version number |
| TemporaryStorage.ModelFolder.GetLatestModelPath | active-ml-server/quantitave_analysis/utils/temporary_storage.py:84-108 | creates the folder; None (the folder itself) iff no entry is globbed; otherwise a globbed entry with the greatest ctime, `_temp` included |
| TemporaryStorage.ModelFolder.SaveModelPath | active-ml-server/quantitave_analysis/utils/temporary_storage.py:158-192 | creates the folder and one new entry `v<N+1>-<timestamp>[_temp]` that was not there before, nothing else changes, and the folder's version number becomes N+1 |
| TemporaryStorage.CountImages | active-ml-server/quantitave_analysis/utils/temporary_storage.py:51 | the count is at most the number of files and is 0 iff no file ends in .jpg/.jpeg/.png, case-insensitively |
| TemporaryStorage.CountTrainingSamples | active-ml-server/quantitave_analysis/utils/temporary_storage.py:42-56 | an error iff no file is an image; otherwise the image count, between 1 and the number of files |
| TemporaryStorage.StorageManager.CreateStorage | active-ml-server/quantitave_analysis/utils/temporary_storage.py:212-220 | the folder exists afterwards with its old contents (empty if new); other folders are unchanged |
| TemporaryStorage.StorageManager.DeleteStorage | active-ml-server/quantitave_analysis/utils/temporary_storage.py:222-228 | the folder is gone afterwards, whether it existed or not; other folders are unchanged |
| TemporaryStorage.StorageManager.ListContents | active-ml-server/quantitave_analysis/utils/temporary_storage.py:230-239 | an error iff the folder does not exist; otherwise its contents |
| TemporaryStorage.StorageManager.ResetDirectory | active-ml-server/quantitave_analysis/utils/temporary_storage.py:241-243 | the folder exists and is empty afterwards; other folders are unchanged |
| TemporaryStorage.Created | active-ml-server/quantitave_analysis/utils/temporary_storage.py:212-220 | the folder is present with its old contents or empty; every other folder is as before |
| TemporaryStorage.CreateIdempotent | active-ml-server/quantitave_analysis/utils/temporary_storage.py:212-220 | creating a folder twice is the same as creating it once |
| DinoModelManager.GetBestScore | active-ml-server/quantitave_analysis/models/detection/dino_model_manager.py:143-151 | a missing or unreadable file gives None; a missing `best_score` gives 0.0; null or "null" gives None; otherwise the numeric score |
| DinoModelManager.FinalNameOfTempVersion | active-ml-server/quantitave_analysis/models/detection/dino_model_manager.py:93 | removing "_temp" from a temporary version name gives the plain version name, which differs from it |
| DinoModelManager.FinalDiffers | active-ml-server/quantitave_analysis/models/detection/dino_model_manager.py:93 | a path containing "_temp" differs from its final path |
| DinoModelManager.PromotionRule | active-ml-server/quantitave_analysis/models/detection/dino_model_manager.py:98-121 | the temp version replaces the final one when the temp score is None or no final version exists; with final assets whose score is None, only a temp score above 0.0 promotes |
| DinoModelManager.FinalizeModelVersion | active-ml-server/quantitave_analysis/models/detection/dino_model_manager.py:90-141 | afterwards the temp entry is gone and every other entry except the final one is unchanged; the final path is returned iff the temp dir existed and the class names could be read; the final entry is the promoted one (temp or old final) with labels.txt holding the class names joined by newlines |
| DinoModelManager.CheckClassesConsistency | active-ml-server/quantitave_analysis/models/detection/dino_model_manager.py:153-181 | true only if the latest version has labels.txt with as many lines as the current labels; false when there is no version, the latest has no labels.txt, or the counts differ; an error when the current labels.txt is missing; names are not compared |
| DinoModelManager.WrittenLabelsAgree | active-ml-server/quantitave_analysis/models/detection/dino_model_manager.py:126-127 | labels.txt files written from non-empty class names have equal line counts iff the class lists have equal length |
| DinoModelManager.InitializePredictor | active-ml-server/quantitave_analysis/models/detection/dino_model_manager.py:22-88 | on success a new `_temp` version is added and nothing else changes; a fresh predictor is built iff no version exists or the class counts differ, otherwise the latest is loaded; a load failure adds no version |
| DetectionModel.StageCount | active-ml-server/quantitave_analysis/models/detection/detection_model.py:109-111 | the stage count is ceil(n/30): enough stages of 30 to hold every image, one fewer would not, and 0 only for no images |
| DetectionModel.StagesVisitEveryImage | active-ml-server/quantitave_analysis/models/detection/detection_model.py:109-111 | the batches of 30 over ceil(n/30) stages, put together, are exactly the shuffled image list |
| DetectionModel.CheckMemoryAvailable | active-ml-server/quantitave_analysis/models/detection/detection_model.py:203-211 | no clear when the first reading reaches the minimum, otherwise exactly one clear; it fails iff both readings fall below the minimum |
| DetectionModel.Alias | active-ml-server/quantitave_analysis/models/detection/detection_model.py:224 | an alias is a non-empty single line starting with "class" |
| DetectionModel.AliasInjective | active-ml-server/quantitave_analysis/models/detection/detection_model.py:224 | distinct positions get distinct aliases |
| DetectionModel.NonBlank | active-ml-server/quantitave_analysis/models/detection/detection_model.py:220 | the kept lines are no more than the input lines, each stripped and non-empty |
| DetectionModel.RealClasses | active-ml-server/quantitave_analysis/models/detection/detection_model.py:219-220 | the real classes read line by line from labels.txt are stripped and non-empty |
| Text.UniversalNewlines | active-ml-server/quantitave_analysis/models/detection/detection_model.py:219-220 | reading labels.txt in text mode turns "\r\n" and a lone "\r" into "\n": no "\r" is left and every other character survives |
| DetectionModel.AliasList | active-ml-server/quantitave_analysis/models/detection/detection_model.py:235-236 | the alias list has one entry per class, the i-th being "class{i}" |
| DetectionModel.AliasLabelsText | active-ml-server/quantitave_analysis/models/detection/detection_model.py:233-236 | the alias labels.txt splits back into "class1" … "class{n}" |
| DetectionModel.AliasFresh | active-ml-server/quantitave_analysis/models/detection/detection_model.py:223-225 | the next alias is not among the ones already given |
| DetectionModel.MapsStep | active-ml-server/quantitave_analysis/models/detection/detection_model.py:223-225 | one loop step keeps the forward map, the reverse map and their inverse relation in step with the classes seen |
| DetectionModel.ForwardStep | active-ml-server/quantitave_analysis/models/detection/detection_model.py:224 | after one step every seen class maps to the alias of its last position |
| DetectionModel.ReverseStep | active-ml-server/quantitave_analysis/models/detection/detection_model.py:225 | after one step "class{n}" maps back to the n-th class for every seen n |
| DetectionModel.CreateClassMapping | active-ml-server/quantitave_analysis/models/detection/detection_model.py:213-242 | a missing labels.txt gives empty maps and writes nothing; otherwise the alias labels.txt has one line per real class, "class{i}" maps back to the i-th class, each class maps to an alias, and every class comes back from its alias |
| DetectionModel.Renamed | active-ml-server/quantitave_analysis/models/detection/detection_model.py:260-274 | a mapped category gets the 1-based position as id, its alias as name and a supercategory (its own or ""); an unmapped one is kept as it is |
| DetectionModel.IdMapKeys | active-ml-server/quantitave_analysis/models/detection/detection_model.py:258-274 | the old-to-new id map holds exactly the old category ids |
| DetectionModel.IdMapLast | active-ml-server/quantitave_analysis/models/detection/detection_model.py:264-273 | for an id that occurs last at a position, the map sends it to the new id of that category |
| DetectionModel.Remapped | active-ml-server/quantitave_analysis/models/detection/detection_model.py:281-286 | a known category id is rewritten through the map; an unknown one is left unchanged |
| DetectionModel.RenameCategories | active-ml-server/quantitave_analysis/models/detection/detection_model.py:258-277 | the loop renames every category in place and builds the id map |
| DetectionModel.RemapAnnotations | active-ml-server/quantitave_analysis/models/detection/detection_model.py:280-286 | the loop rewrites every annotation's category id through the map, one for one |
| DetectionModel.UpdateJsonClasses | active-ml-server/quantitave_analysis/models/detection/detection_model.py:244-290 | a missing file or a missing 'categories' key writes nothing; otherwise images, info and licenses are kept, each category is renamed and each annotation remapped, in order |
| DetectionModel.AnnotationsFollowCategories | active-ml-server/quantitave_analysis/models/detection/detection_model.py:258-286 | with distinct category ids, an annotation of a mapped category ends up pointing at that category's new id, which carries its alias |
| DinoDataProcessor.OnDisk | active-ml-server/quantitave_analysis/models/detection/dino_data_processor.py:92-94 | an image is kept iff image_dir joined with its base name exists |
| DinoDataProcessor.BatchSlice | active-ml-server/quantitave_analysis/models/detection/dino_data_processor.py:83-87 | the stage's slice is shuffled[s·bs : min(s·bs+bs, n)], empty past the end, and holds at most bs images |
| DinoDataProcessor.BatchImages | active-ml-server/quantitave_analysis/models/detection/dino_data_processor.py:45-54 | the image loop keeps exactly the selected images whose file exists in the image directory, relocated there, in order; it is empty iff none exists |
| Sorting.KeepAndMap | active-ml-server/quantitave_analysis/models/detection/dino_data_processor.py:45-54 | a loop that appends f(x) for each x passing a test yields the passing elements, each transformed, in their order |
| DinoDataProcessor.SelectBatchImages | active-ml-server/quantitave_analysis/models/detection/dino_data_processor.py:76-106 | an error on an empty list or when no selected image exists; otherwise exactly the existing images of the slice, between 1 and bs of them |
| DinoDataProcessor.NoValidImages | active-ml-server/quantitave_analysis/models/detection/dino_data_processor.py:90-100 | no image is valid iff none of the slice's paths exists |
| DinoDataProcessor.StageSlices | active-ml-server/quantitave_analysis/models/detection/dino_data_processor.py:83-87 | there is one slice per stage |
| DinoDataProcessor.StageSlicesPrefix | active-ml-server/quantitave_analysis/models/detection/dino_data_processor.py:83-87 | the first k slices put together are the first min(k·bs, n) images: consecutive and disjoint |
| DinoDataProcessor.CeilDiv | active-ml-server/quantitave_analysis/models/detection/dino_data_processor.py:83-87 | ceil(n/bs) stages hold all n images and one fewer would not |
| DinoDataProcessor.SlicesCover | active-ml-server/quantitave_analysis/models/detection/dino_data_processor.py:83-87 | the slices of stages 0 .. ceil(n/bs)-1 put together are exactly the shuffled list |
| DinoDataProcessor.Retarget | active-ml-server/quantitave_analysis/models/detection/dino_data_processor.py:45-52 | every kept image's file_name becomes image_dir joined with its base name, one for one |
| DinoDataProcessor.OfImages | active-ml-server/quantitave_analysis/models/detection/dino_data_processor.py:57-60 | an annotation is kept iff its image_id is a kept image id |
| DinoDataProcessor.CreateBatchCocoJson | active-ml-server/quantitave_analysis/models/detection/dino_data_processor.py:34-74 | succeeds iff some selected image exists; then the images are the existing ones retargeted, categories are copied (default []), "info" and "licenses" are copied (defaults {} and []), and annotations are those of kept images |
| DinoDataProcessor.BatchFileContents | active-ml-server/quantitave_analysis/models/detection/dino_data_processor.py:45-60 | every batch image exists; the batch annotations are an in-order subsequence holding exactly the annotations of batch images |
| DinoDataProcessor.ById | active-ml-server/quantitave_analysis/models/detection/dino_data_processor.py:112 | categories are compared by id |
| DinoDataProcessor.ByIdPreorder | active-ml-server/quantitave_analysis/models/detection/dino_data_processor.py:112 | the comparison by id is a total preorder, as a sort key needs |
| DinoDataProcessor.ExtractClasses | active-ml-server/quantitave_analysis/models/detection/dino_data_processor.py:107-114 | an error iff 'categories' is missing; otherwise one name per category, taken from a permutation of the categories sorted by id |
| DinoDataProcessor.ExtractClassesStable | active-ml-server/quantitave_analysis/models/detection/dino_data_processor.py:107-114 | the names are those of the categories sorted by id, and categories sharing an id keep their order in the file (the sort is stable) |
| DinoDataProcessor.GlobJsonString | active-ml-server/quantitave_analysis/models/detection/dino_data_processor.py:155-179 | the combined string is "{" followed by each result and its separator; with no images it is just "{" |
| DinoDataProcessor.GlobDistinct | active-ml-server/quantitave_analysis/models/detection/dino_data_processor.py:178-179 | when the last path occurs only once, the combined string is "{" + results joined by "," + "}" |
| DinoDataProcessor.JoinLast | active-ml-server/quantitave_analysis/models/detection/dino_data_processor.py:178-179 | joining n+1 results is joining the first n, a comma and the last |
| DinoDataProcessor.GluedPrefix | active-ml-server/quantitave_analysis/models/detection/dino_data_processor.py:178-179 | before the last image, the pieces glued so far are the results joined by "," with a trailing comma |
| DetectionDatasetPipeline.Entry | active-ml-server/quantitave_analysis/models/detection/dataset_pipeline.py:95-108 | the k-th augmented entry is written under the augmentation's file name and keeps the image's labels |
| DetectionDatasetPipeline.AugmentedEntries | active-ml-server/quantitave_analysis/models/detection/dataset_pipeline.py:72-108 | an image yields nine entries, in augmentation order, each named by its augmentation and carrying the image's labels |
| DetectionDatasetPipeline.EntriesStayInside | active-ml-server/quantitave_analysis/models/detection/dataset_pipeline.py:72-108 | when every box lies inside the image, every augmented entry's boxes lie inside that entry's image |
| DetectionDatasetPipeline.AugFileNameInjective | active-ml-server/quantitave_analysis/models/detection/dataset_pipeline.py:97 | two different augmentations of one image write different files |
| DetectionDatasetPipeline.AugFileNamesDistinct | active-ml-server/quantitave_analysis/models/detection/dataset_pipeline.py:72-97 | the nine file names of an image are distinct and only "original" keeps the source name |
| DetectionDatasetPipeline.SuffixInjective | active-ml-server/quantitave_analysis/models/detection/dataset_pipeline.py:97 | appending the same suffix keeps different names different |
| DetectionDatasetPipeline.PoolSize | active-ml-server/quantitave_analysis/models/detection/dataset_pipeline.py:84-108 | the pool has nine entries per image whose file was found |
| DetectionDatasetPipeline.BuildPool | active-ml-server/quantitave_analysis/models/detection/dataset_pipeline.py:84-108 | the loop skips images whose file is missing and appends nine entries for every other one, so the pool has 9 × found entries |
| DetectionDatasetPipeline.Split | active-ml-server/quantitave_analysis/models/detection/dataset_pipeline.py:110-113 | train followed by test is the shuffled pool, and for a ratio in [0, 1] train has int(ratio·len) entries |
| DetectionDatasetPipeline.SplitKeepsPool | active-ml-server/quantitave_analysis/models/detection/dataset_pipeline.py:110-113 | train and test together hold exactly the entries of the pool, whatever the shuffle did |
| DetectionDatasetPipeline.CategoriesOf | active-ml-server/quantitave_analysis/models/detection/dataset_pipeline.py:141-151 | the i-th new label becomes category i+1 with supercategory "Undefined" |
| DetectionDatasetPipeline.FixedBox | active-ml-server/quantitave_analysis/models/detection/dataset_pipeline.py:166 | the written box has four numbers with width and height at least 1 |
| DetectionDatasetPipeline.PoolAnnotations | active-ml-server/quantitave_analysis/models/detection/dataset_pipeline.py:153-179 | one annotation per box of the pool; annotation ids run 1.. consecutively; image ids lie in 1..n; area is the fixed box's width × height, at least 1 |
| DetectionDatasetPipeline.PoolToCoco | active-ml-server/quantitave_analysis/models/detection/dataset_pipeline.py:134-180 | fails (an IndexError) iff an item has fewer labels than boxes; otherwise categories are 1..k in first-seen order with supercategory "Undefined", image i+1 is the i-th item under "images/", and annotations are those of the pool |
| DetectionDatasetPipeline.AddItem | active-ml-server/quantitave_analysis/models/detection/dataset_pipeline.py:157-178 | one iteration of the image loop extends the images and annotations built so far by that item |
| DetectionDatasetPipeline.CollectCategories | active-ml-server/quantitave_analysis/models/detection/dataset_pipeline.py:141-151 | the category loop builds the first-seen category ids and the category list of every label in the pool |
| DetectionDatasetPipeline.AddLabels | active-ml-server/quantitave_analysis/models/detection/dataset_pipeline.py:143-151 | the inner loop over one item's labels keeps the categories in step with the labels seen |
| DetectionDatasetPipeline.AddLabel | active-ml-server/quantitave_analysis/models/detection/dataset_pipeline.py:144-151 | one label step keeps the categories in step with the labels seen |
| DetectionDatasetPipeline.CollectedNew | active-ml-server/quantitave_analysis/models/detection/dataset_pipeline.py:144-151 | an unseen label gets id len(categories)+1 and a new "Undefined" category |
| DetectionDatasetPipeline.CollectedKnown | active-ml-server/quantitave_analysis/models/detection/dataset_pipeline.py:144 | a label already seen changes nothing |
| DetectionDatasetPipeline.NewLabel | active-ml-server/quantitave_analysis/models/detection/dataset_pipeline.py:144-151 | a label seen for the first time gets the next id and adds one category at the end |
| DetectionDatasetPipeline.LabelledByCategoryIds | active-ml-server/quantitave_analysis/models/detection/dataset_pipeline.py:167 | every label of the pool has a category id, so the lookup at line 167 cannot fail for lack of a category |
| DetectionDatasetPipeline.PoolAnnotationsSnoc | active-ml-server/quantitave_analysis/models/detection/dataset_pipeline.py:157-178 | the annotations of a pool prefix grow by the next item's annotations, numbered on from the boxes so far |
| DetectionDatasetPipeline.AppendItem | active-ml-server/quantitave_analysis/models/detection/dataset_pipeline.py:165-177 | the box loop appends the item's annotations, numbered from the next annotation id |
| SegmentationModel.GetDataChunks | active-ml-server/quantitave_analysis/models/segmentation/segmentation_model.py:34-54 | a target count of 0 fails (division by zero); otherwise the count is the target, or max(1, total//50) by default; the chunk size is total//count, so size·count ≤ total < (size+1)·count, and size ≥ 1 by default when total ≥ 1 |
| SegmentationModel.DivBounds | active-ml-server/quantitave_analysis/models/segmentation/segmentation_model.py:52 | floor division brackets its dividend: q·b ≤ a < (q+1)·b |
| SegmentationModel.LoadDataChunkAsWritten | active-ml-server/quantitave_analysis/models/segmentation/segmentation_model.py:56-85 | as written: a chunk size of 0 fails (division by zero); otherwise the loaded rows are no more than the file's rows |
| SegmentationModel.LastBranchNeverFires | active-ml-server/quantitave_analysis/models/segmentation/segmentation_model.py:72-111 | for every stage index run_train passes, the "remaining rows" branch does not fire |
| SegmentationModel.StagesAsWritten | active-ml-server/quantitave_analysis/models/segmentation/segmentation_model.py:111-115 | as written, run_train loads one chunk per stage |
| SegmentationModel.StagesAsWrittenPrefix | active-ml-server/quantitave_analysis/models/segmentation/segmentation_model.py:69-115 | as written, the chunks of the first k stages are consecutive and disjoint, together rows[0 : k·size] |
| SegmentationModel.AsWrittenChunk | active-ml-server/quantitave_analysis/models/segmentation/segmentation_model.py:69-83 | as written, stage i loads exactly rows[i·size : i·size + size] |
| SegmentationModel.RemainderNeverLoaded | active-ml-server/quantitave_analysis/models/segmentation/segmentation_model.py:98-115 | as written, all stages together load every row except the last total mod count, which are never loaded |
| SegmentationModel.RemainderExample | active-ml-server/quantitave_analysis/models/segmentation/segmentation_model.py:49-115 | as written, 101 rows give 2 chunks of 50 and only 100 rows are ever loaded |
| SegmentationModel.LoadDataChunk | active-ml-server/quantitave_analysis/models/segmentation/segmentation_model.py:56-85 | corrected: the last stage takes every remaining row; a chunk never holds more rows than the file |
| SegmentationModel.Stages | active-ml-server/quantitave_analysis/models/segmentation/segmentation_model.py:111-115 | corrected: one chunk per stage |
| SegmentationModel.StagesPrefix | active-ml-server/quantitave_analysis/models/segmentation/segmentation_model.py:69-115 | corrected: before the last stage the chunks are consecutive and disjoint, together rows[0 : k·size] |
| SegmentationModel.StagesCoverAllRows | active-ml-server/quantitave_analysis/models/segmentation/segmentation_model.py:69-115 | corrected: the chunks of all stages together are exactly the rows |
| SegmentationModel.RunTrain | active-ml-server/quantitave_analysis/models/segmentation/segmentation_model.py:87-115 | with the corrected chunking, the stage loop loads one chunk per default chunk and the chunks together are exactly the training rows |
| SegmentationDatasetPipeline.ByName | active-ml-server/quantitave_analysis/models/segmentation/dataset_pipeline.py:39 | file names are compared lexicographically |
| SegmentationDatasetPipeline.ByNamePreorder | active-ml-server/quantitave_analysis/models/segmentation/dataset_pipeline.py:39 | the name order is a total preorder, as sorting needs |
| SegmentationDatasetPipeline.ImageFiles | active-ml-server/quantitave_analysis/models/segmentation/dataset_pipeline.py:39-40 | exactly the listed .png files without "_mask" in the name, sorted by name |
| SegmentationDatasetPipeline.Stem | active-ml-server/quantitave_analysis/models/segmentation/dataset_pipeline.py:45-49 | the base name is the prefix of the file name before its first dot |
| SegmentationDatasetPipeline.MaskIsNotImage | active-ml-server/quantitave_analysis/models/segmentation/dataset_pipeline.py:40-45 | a mask file name is never taken for an image |
| SegmentationDatasetPipeline.HasMask | active-ml-server/quantitave_analysis/models/segmentation/dataset_pipeline.py:45-48 | an image is kept iff "{stem}_mask.png" is in the listing |
| SegmentationDatasetPipeline.SamplesSpec | active-ml-server/quantitave_analysis/models/segmentation/dataset_pipeline.py:39-52 | every pair is a listed image with its listed mask; every listed image with a mask gets a pair; pairs are in name order |
| SegmentationDatasetPipeline.TrainCount | active-ml-server/quantitave_analysis/models/segmentation/dataset_pipeline.py:66 | for a fraction within 0..1, int(total·fraction) is the requested row count; a fraction of 1 takes every row |
| SegmentationDatasetPipeline.SplitAndSave | active-ml-server/quantitave_analysis/models/segmentation/dataset_pipeline.py:64-74 | train followed by val is the table; val is never empty for a non-empty table; for a first fraction f0 within 0..1, train has min(int(total·f0), total-1) rows; with the fractions [1, 0] val is exactly the last row |
| SegmentationErosion.RemapClasses | active-ml-server/quantitave_analysis/models/segmentation/segmentation_erosion.py:132-141 | the mask keeps its shape; without exactly two distinct values one of which is 2 it is unchanged; otherwise every 2 becomes 1, no 2 is left and every other value is kept |
| SegmentationErosion.RemapIdempotent | active-ml-server/quantitave_analysis/models/segmentation/segmentation_erosion.py:133-141 | remapping twice is remapping once |
| SegmentationErosion.RemapCollapsesOneAndTwo | active-ml-server/quantitave_analysis/models/segmentation/segmentation_erosion.py:137-139 | a mask of values {1, 2} becomes all 1 |
| SegmentationErosion.RemapZeroAndTwo | active-ml-server/quantitave_analysis/models/segmentation/segmentation_erosion.py:137-139 | a mask of values {0, 2} becomes a mask of values {0, 1} |
| SegmentationAugmentations.Reverse | active-ml-server/quantitave_analysis/augmentations/segmentation_augmentations.py:36-45 | reversing an axis puts element i at position n-1-i |
| SegmentationAugmentations.ReverseTwice | active-ml-server/quantitave_analysis/augmentations/segmentation_augmentations.py:36-45 | reversing twice is the identity |
| SegmentationAugmentations.FlipHorizontal | active-ml-server/quantitave_analysis/augmentations/segmentation_augmentations.py:36-43 | a flip along axis 1 keeps the number of rows |
| SegmentationAugmentations.FlipVertical | active-ml-server/quantitave_analysis/augmentations/segmentation_augmentations.py:38-44 | a flip along axis 0 keeps the number of rows |
| SegmentationAugmentations.FlipsAreInvolutions | active-ml-server/quantitave_analysis/augmentations/segmentation_augmentations.py:36-45 | flipping twice along one axis gives the grid back |
| SegmentationAugmentations.FlipsCommute | active-ml-server/quantitave_analysis/augmentations/segmentation_augmentations.py:40-45 | the two flips commute, so the both-axes flip does not depend on their order |
| SegmentationAugmentations.Extend | active-ml-server/quantitave_analysis/augmentations/segmentation_augmentations.py:61-101 | a stage makes one variant per earlier entry and option |
| SegmentationAugmentations.PlanSize | active-ml-server/quantitave_analysis/augmentations/segmentation_augmentations.py:27-103 | the number of outputs is (4 if flip else 1) × (3 if scale else 1) × (4 if rotate else 1) |
| SegmentationAugmentations.PlanAppends | active-ml-server/quantitave_analysis/augmentations/segmentation_augmentations.py:79-103 | scaling and rotating append after the entries already there |
| SegmentationAugmentations.Realise | active-ml-server/quantitave_analysis/augmentations/segmentation_augmentations.py:47-103 | one output per planned entry |
| SegmentationAugmentations.Augment | active-ml-server/quantitave_analysis/augmentations/segmentation_augmentations.py:18-105 | images and masks follow the same plan, so they have equal length and matched order; all flags off gives [image], [mask]; flip alone gives original, horizontal, vertical, both |
| SegmentationAugmentations.AppendStage | active-ml-server/quantitave_analysis/augmentations/segmentation_augmentations.py:56-103 | a scale or rotate stage appends the variants of every earlier entry to both lists |
| SegmentationAugmentations.RealiseBase | active-ml-server/quantitave_analysis/augmentations/segmentation_augmentations.py:27-53 | the first stage yields [image] without flips and the four flips with them |
| SegmentationAugmentations.RealiseConcat | active-ml-server/quantitave_analysis/augmentations/segmentation_augmentations.py:79-103 | the outputs of two plans put together are the outputs of the joined plan |
| SegmentationAugmentations.RealiseExtend | active-ml-server/quantitave_analysis/augmentations/segmentation_augmentations.py:61-101 | a stage's outputs are the variants of the earlier outputs |
| SegmentationAugmentations.Expand | active-ml-server/quantitave_analysis/augmentations/segmentation_augmentations.py:61-101 | the nested loop over entries and options produces exactly the variants of the images and of the masks |
| FileConverter.ParseHexPair | active-ml-server/quantitave_analysis/utils/file_converter1.py:175 | two characters parse iff they are one or two hex digits; the value is below 256 |
| FileConverter.HexByte | active-ml-server/quantitave_analysis/utils/file_converter1.py:175 | a byte written as two hex digits parses back to itself |
| FileConverter.LStrip | active-ml-server/quantitave_analysis/utils/file_converter1.py:174 | lstrip('#') removes exactly the leading '#' characters |
| FileConverter.PySlice | active-ml-server/quantitave_analysis/utils/file_converter1.py:175 | a Python slice [i:j] is at most j-i long |
| FileConverter.HexToRgb | active-ml-server/quantitave_analysis/utils/file_converter1.py:171-175 | every parsed channel lies in 0..255 |
| FileConverter.HexRoundTrip | active-ml-server/quantitave_analysis/utils/file_converter1.py:171-175 | "#" followed by the six hex digits of a colour parses back to that colour |
| FileConverter.ShortHexFails | active-ml-server/quantitave_analysis/utils/file_converter1.py:174-175 | fewer than five digits after the '#' fail |
| FileConverter.Palette | active-ml-server/quantitave_analysis/utils/file_converter1.py:140-144 | the palette is black followed by the label colours in order; it fails iff a colour does not parse |
| FileConverter.IndexColour | active-ml-server/quantitave_analysis/utils/file_converter1.py:154-163 | an index in the palette takes its colour, with alpha 0 for index 0 and 255 otherwise; an index outside the palette stays (0,0,0,0) |
| FileConverter.PaintPalette | active-ml-server/quantitave_analysis/utils/file_converter1.py:157-163 | the mask loop paints every pixel with the colour of its index |
| FileConverter.Palette2Rgba | active-ml-server/quantitave_analysis/utils/file_converter1.py:138-169 | fails iff the palette fails; otherwise one RGBA pixel per index pixel, the colour of its index |
| FileConverter.Dist2 | active-ml-server/quantitave_analysis/utils/file_converter1.py:122 | the squared distance is 0 iff the colours are equal |
| FileConverter.Nearest | active-ml-server/quantitave_analysis/utils/file_converter1.py:122-125 | the chosen index has the least squared distance, and the lowest such index on ties |
| FileConverter.Rgb2Palette | active-ml-server/quantitave_analysis/utils/file_converter1.py:97-128 | fails iff the palette fails; otherwise one palette index per pixel, the nearest palette colour by squared distance, and the first such on a tie (argmin) |
| FileConverter.NearestOfPaletteColour | active-ml-server/quantitave_analysis/utils/file_converter1.py:122-125 | with distinct palette colours, a palette colour maps to its own index |
| FileConverter.PaintThenReadBack | active-ml-server/quantitave_analysis/utils/file_converter1.py:122-163 | painting indices and reading back the nearest palette index gives the indices back |
| FileConverter.PaletteRoundTrip | active-ml-server/quantitave_analysis/utils/file_converter1.py:97-169 | with distinct palette colours, Rgb2Palette of Palette2Rgba's colours gives the index image back |
| FileConverter.ImageNames | active-ml-server/quantitave_analysis/utils/file_converter1.py:199 | the image names of the rows, in order |
| FileConverter.LabelNames | active-ml-server/quantitave_analysis/utils/file_converter1.py:208 | the label names of the rows, in order |
| FileConverter.ImageEntries | active-ml-server/quantitave_analysis/utils/file_converter1.py:199-206 | one image per distinct image name |
| FileConverter.AnnotationsOf | active-ml-server/quantitave_analysis/utils/file_converter1.py:211-224 | one annotation per row |
| FileConverter.CsvCategories | active-ml-server/quantitave_analysis/utils/file_converter1.py:208-229 | the k-th distinct label gets id k+1 |
| FileConverter.EntriesKnown | active-ml-server/quantitave_analysis/utils/file_converter1.py:199 | a row of an image already seen adds no image |
| FileConverter.EntriesNew | active-ml-server/quantitave_analysis/utils/file_converter1.py:199-206 | a row of a new image appends an image with the next id, "images/"+name and the row's size |
| FileConverter.AddImage | active-ml-server/quantitave_analysis/utils/file_converter1.py:199-206 | one row's image step keeps the images and their ids in step with the rows seen |
| FileConverter.AddCategory | active-ml-server/quantitave_analysis/utils/file_converter1.py:208-209 | one row's category step keeps the categories in step with the rows seen |
| FileConverter.AddAnnotation | active-ml-server/quantitave_analysis/utils/file_converter1.py:211-224 | one row's annotation step appends that row's annotation |
| FileConverter.CategoryEntriesOfRows | active-ml-server/quantitave_analysis/utils/file_converter1.py:208-230 | after all rows, the "categories" list holds each label in order of first appearance, with ids 1, 2, ... |
| FileConverter.Csv2CocoJson | active-ml-server/quantitave_analysis/utils/file_converter1.py:182-233 | a KeyError iff a required column is missing; otherwise the images in first-seen order with ids 1.., one annotation per row with consecutive ids, and categories 1.. in first-seen order |
| FileConverter.ImageEntryAt | active-ml-server/quantitave_analysis/utils/file_converter1.py:199-206 | the k-th image entry has id k+1, is named "images/" + the k-th distinct image name, and is sized from that name's first row |
| FileConverter.ImageIdEntry | active-ml-server/quantitave_analysis/utils/file_converter1.py:199-213 | the id the dictionary gives an image name selects the image entry made for that name |
| FileConverter.LabelCategory | active-ml-server/quantitave_analysis/utils/file_converter1.py:208-214 | the id the dictionary gives a label selects that label's entry in the categories list |
| FileConverter.AnnotationImage | active-ml-server/quantitave_analysis/utils/file_converter1.py:199-213 | every annotation points at an existing image, the one of its row's image name |
| FileConverter.AnnotationCategory | active-ml-server/quantitave_analysis/utils/file_converter1.py:208-214 | every annotation points at an existing category, the one of its row's label |
| FileConverter.Lookup | active-ml-server/quantitave_analysis/utils/file_converter1.py:66-69 | the values of the keys in order, or a KeyError naming a missing key |
| FileConverter.AnnotationRow | active-ml-server/quantitave_analysis/utils/file_converter1.py:62-69 | a non-dict annotation raises ValueError; a dict yields the eight columns, image_name from the key, the rest from the annotation, or a KeyError |
| FileConverter.UntilErrorSpec | active-ml-server/quantitave_analysis/utils/file_converter1.py:58-69 | rows are written in order until the first failing annotation; with no failure every annotation has its row |
| FileConverter.UntilErrorStops | active-ml-server/quantitave_analysis/utils/file_converter1.py:58-69 | nothing after the first error is processed |
| FileConverter.WriteRows | active-ml-server/quantitave_analysis/utils/file_converter1.py:62-69 | the row loop writes the rows of the annotations until the first error |
| FileConverter.FilesOfClean | active-ml-server/quantitave_analysis/utils/file_converter1.py:48-69 | no error iff every value is a string or a list of well-formed annotations |
| FileConverter.FilesOfShape | active-ml-server/quantitave_analysis/utils/file_converter1.py:48-69 | every written file belongs to a key with a list value, and without error it has one row per annotation |
| FileConverter.FilesOfComplete | active-ml-server/quantitave_analysis/utils/file_converter1.py:48-69 | without error, every key whose value is a list has its "<key>.csv" file, holding the converted row of each of its annotations |
| FileConverter.FilesOfSnoc | active-ml-server/quantitave_analysis/utils/file_converter1.py:48-69 | a string value is skipped, a non-list raises ValueError, a list writes "{name}.csv" with the header and its rows |
| FileConverter.FilesOfStops | active-ml-server/quantitave_analysis/utils/file_converter1.py:48-69 | nothing after the first error is written |
| FileConverter.BboxJson2Csv | active-ml-server/quantitave_analysis/utils/file_converter1.py:40-69 | non-dict data raises ValueError and writes nothing; otherwise the files of the keys in order, up to the first error |
| Coco.ImageIds | active-ml-server/quantitave_analysis/models/detection/dino_data_processor.py:57 | the set of image ids holds exactly the ids of the images |
| PlatformToTaskBase.CountTrue | active-ml-server/common/platform_to_task_converter/base.py:288-289 | the successes counted are no more than the downloads |
| PlatformToTaskBase.DownloadsCount | active-ml-server/common/platform_to_task_converter/base.py:266-299 | after n downloads, successful + failed = n and successful counts the URLs that succeeded |
| PlatformToTaskBase.DownloadsSucceeded | active-ml-server/common/platform_to_task_converter/base.py:285-296 | a URL succeeds iff a response came back and the callback returned True on it |
| PlatformToTaskBase.DownloadsClosed | active-ml-server/common/platform_to_task_converter/base.py:286-294 | every response that came back is closed once, after its callback and in URL order; a missing one is not |
| PlatformToTaskBase.NoUrls | active-ml-server/common/platform_to_task_converter/base.py:266-302 | an empty URL list gives (0, 0), closes nothing and runs no callback |
| PlatformToTaskBase.BatchesFlatten | active-ml-server/common/platform_to_task_converter/base.py:270-273 | the batches put together are the URL list |
| PlatformToTaskBase.BatchesSizes | active-ml-server/common/platform_to_task_converter/base.py:270-273 | every batch holds between 1 and max_workers·10 URLs |
| PlatformToTaskBase.BatchesCount | active-ml-server/common/platform_to_task_converter/base.py:272-275 | there are (n-1)//batch_size + 1 batches for n ≥ 1 URLs, none for no URLs, as the log line counts them |
| PlatformToTaskBase.ParallelDownload | active-ml-server/common/platform_to_task_converter/base.py:248-302 | max_workers 0 fails (range step 0); a negative one gives (0, 0) with nothing done; otherwise every URL is downloaded once in order, giving the counts, callback effects and closes of the sequential run |
| PlatformToTaskBase.Unquote | active-ml-server/common/platform_to_task_converter/base.py:70 | percent-decoding never lengthens the name |
| PlatformToTaskBase.Quote | active-ml-server/common/platform_to_task_converter/base.py:70 | the percent-encoding partner of decoding: three characters per byte |
| PlatformToTaskBase.DecodeFilename | active-ml-server/common/platform_to_task_converter/base.py:59-74 | a missing name stays missing; a name without '%' comes back unchanged |
| PlatformToTaskBase.UnquotePlain | active-ml-server/common/platform_to_task_converter/base.py:70-71 | decoding a name without '%' changes nothing |
| PlatformToTaskBase.UnquoteQuote | active-ml-server/common/platform_to_task_converter/base.py:70 | decoding a percent-encoded name gives it back |
| PlatformToTaskBase.DecodeQuoted | active-ml-server/common/platform_to_task_converter/base.py:59-74 | decode_filename of a percent-encoded name is that name |
| PlatformToTaskDetection.Member | active-ml-server/common/platform_to_task_converter/detection_converter.py:41 | for a string URL, `'.webp' in url` is substring containment |
| PlatformToTaskDetection.UrlFileName | active-ml-server/common/platform_to_task_converter/detection_converter.py:42-119 | the file name of a URL (last '/' segment, up to the first '?') contains neither '/' nor '?' |
| PlatformToTaskDetection.PngName | active-ml-server/common/platform_to_task_converter/detection_converter.py:42-43 | the PNG name of a webp URL ends in ".png" |
| PlatformToTaskDetection.FirstHitSpec | active-ml-server/common/platform_to_task_converter/detection_converter.py:40-45 | the search returns something iff some URL contains ".webp", and then the PNG name of the first such URL |
| PlatformToTaskDetection.FindWebpInStrings | active-ml-server/common/platform_to_task_converter/detection_converter.py:29-48 | for a list of strings: a PNG name iff some URL contains ".webp", namely that of the first one; otherwise None |
| PlatformToTaskDetection.ConcatMapParts | active-ml-server/common/platform_to_task_converter/detection_converter.py:148-152 | when every record's URL lists can be read, the collected URLs are exactly the URLs of all records |
| PlatformToTaskDetection.ConcatMapStop | active-ml-server/common/platform_to_task_converter/detection_converter.py:148-152 | once a record's URLs cannot be read, collecting fails |
| PlatformToTaskDetection.ConcatMapSnoc | active-ml-server/common/platform_to_task_converter/detection_converter.py:148-152 | collecting one more record appends its URLs after the earlier ones |
| PlatformToTaskDetection.PairFile | active-ml-server/common/platform_to_task_converter/detection_converter.py:95-97 | a record id gets a file only when a webp URL was found; the file is its decoded PNG name and is non-empty |
| PlatformToTaskDetection.MapFromSpec | active-ml-server/common/platform_to_task_converter/detection_converter.py:93-98 | an id is in the map iff some pair of it yields a file; its file is the one of its last pair that yields one |
| PlatformToTaskDetection.MapFromExtend | active-ml-server/common/platform_to_task_converter/detection_converter.py:94-98 | one more pair overwrites its id when it yields a file, else changes nothing |
| PlatformToTaskDetection.RecordFilesMapSpec | active-ml-server/common/platform_to_task_converter/detection_converter.py:80-103 | the record map holds exactly the records with a webp URL, a later duplicate id overwriting an earlier one |
| PlatformToTaskDetection.BuildRecordFilesMap | active-ml-server/common/platform_to_task_converter/detection_converter.py:80-103 | the nested loop builds the record map, or {} when a record cannot be read |
| PlatformToTaskDetection.AllUrlsOfLists | active-ml-server/common/platform_to_task_converter/detection_converter.py:138-152 | when every record holds URL lists, the collected URLs are exactly those of the lists, in record order |
| PlatformToTaskDetection.CollectAllUrls | active-ml-server/common/platform_to_task_converter/detection_converter.py:138-152 | the nested loop collects the URL lists of the records in order, and fails (raises) on a record it cannot read |
| PlatformToTaskDetection.RecordUrlsOf | active-ml-server/common/platform_to_task_converter/detection_converter.py:150-151 | the inner loop appends one record's URL lists in key order, and fails on a record that is not a dict or a URL value that cannot be iterated |
| PlatformToTaskDetection.ImageKey | active-ml-server/common/platform_to_task_converter/detection_converter.py:63-66 | the image key is the file's stem with one trailing "_bbox" removed, if present |
| PlatformToTaskDetection.ProcessJsonFile | active-ml-server/common/platform_to_task_converter/detection_converter.py:50-78 | succeeds iff the body is a JSON object; then the image key holds the body's entry for it ({} if absent), overwriting; every other key is unchanged; on failure nothing changes |
| PlatformToTaskDetection.ProcessFile | active-ml-server/common/platform_to_task_converter/detection_converter.py:116-134 | the callback never raises; a .webp file succeeds iff it converts, a .json file returns the merge result and is merged, any other file succeeds; only .json files change the merged JSON |
| PlatformToTaskDetection.ProcessFileFrame | active-ml-server/common/platform_to_task_converter/detection_converter.py:116-134 | a download changes the merged JSON at most under its own image key |
| PlatformToTaskDetection.Responses | active-ml-server/common/platform_to_task_converter/detection_converter.py:209-213 | a URL that is not a string gets no response |
| PlatformToTaskDetection.RecordsOf | active-ml-server/common/platform_to_task_converter/detection_converter.py:193-195 | the records are found iff the package is an object with a 'records' key |
| PlatformToTaskDetection.DetectionConverter.Run | active-ml-server/common/platform_to_task_converter/detection_converter.py:154-229 | fails when the folder cannot be made, the package is missing or has no 'records'; otherwise the record map is written, every URL is downloaded, and run succeeds iff both saves succeed and (failed == 0 or successful > 0) |
| PlatformToTaskDetection.AllFailedRunFails | active-ml-server/common/platform_to_task_converter/detection_converter.py:209-225 | when no download succeeds, successful is 0 and failed is the number of URLs, so a run with URLs fails |
| PlatformToTaskDetection.NoneTrue | active-ml-server/common/platform_to_task_converter/detection_converter.py:225 | no success counted means successful is 0 |
| PlatformToTaskSegmentation.UrlsOf | active-ml-server/common/platform_to_task_converter/segmentation_converter.py:89 | the URL list is the URLs of the entries in order, duplicates kept |
| PlatformToTaskSegmentation.UrlToRecordMapSpec | active-ml-server/common/platform_to_task_converter/segmentation_converter.py:71-95 | a URL is in the map iff it is in the URL list, and maps to the record of its last occurrence |
| PlatformToTaskSegmentation.PairEntriesOfList | active-ml-server/common/platform_to_task_converter/segmentation_converter.py:87-89 | a record id whose value is a list of string URLs contributes one (url, record id) entry per listed URL |
| PlatformToTaskSegmentation.RecordEntriesOfLists | active-ml-server/common/platform_to_task_converter/segmentation_converter.py:86-89 | a record that is a dict of URL lists contributes an entry for every listed URL, tagged with its key |
| PlatformToTaskSegmentation.UrlToRecordMapOfLists | active-ml-server/common/platform_to_task_converter/segmentation_converter.py:85-91 | when every record holds lists of string URLs, every URL of every record is mapped |
| PlatformToTaskSegmentation.EntrySnoc | active-ml-server/common/platform_to_task_converter/segmentation_converter.py:88-89 | one URL step maps that URL to its record, overwriting, and appends it to the list |
| PlatformToTaskSegmentation.AddPairUrls | active-ml-server/common/platform_to_task_converter/segmentation_converter.py:87-89 | the innermost loop adds every URL of one record id, or fails on a URL list it cannot read |
| PlatformToTaskSegmentation.AddRecordUrls | active-ml-server/common/platform_to_task_converter/segmentation_converter.py:86-89 | the middle loop adds the URLs of every id of one record, or fails |
| PlatformToTaskSegmentation.BuildUrlToRecordMap | active-ml-server/common/platform_to_task_converter/segmentation_converter.py:71-95 | the three nested loops build the URL map and list, or ({}, []) when a record cannot be read |
| PlatformToTaskSegmentation.ConvertedName | active-ml-server/common/platform_to_task_converter/segmentation_converter.py:48-52 | the converted file's name ends in ".png" |
| PlatformToTaskSegmentation.ProcessFile | active-ml-server/common/platform_to_task_converter/segmentation_converter.py:40-67 | succeeds iff the URL maps to a non-empty record id and converts; then the PNG is appended to that record's list (created if new) and nothing else changes; on failure nothing changes |
| PlatformToTaskSegmentation.DownloadsFiles | active-ml-server/common/platform_to_task_converter/segmentation_converter.py:54-169 | a record has a list iff some of its URLs succeeded, with one file per success; the map is empty iff nothing succeeded |
| PlatformToTaskSegmentation.SegmentationConverter.Run | active-ml-server/common/platform_to_task_converter/segmentation_converter.py:97-188 | fails when the folder, the label properties or the package fails, 'records' is missing, or there are no URLs; otherwise every URL is downloaded, and run succeeds iff some download succeeded and the mapping was saved |
| ResultsToPlatformBase.Kept | active-ml-server/common/results_to_platform_converter/detection_converter.py:47-76 | the kept entries are no more than the input entries |
| ResultsToPlatformBase.KeptSpec | active-ml-server/common/results_to_platform_converter/detection_converter.py:47-76 | an entry is kept iff some input yields it |
| ResultsToPlatformBase.KeptSnoc | active-ml-server/common/results_to_platform_converter/detection_converter.py:47-76 | one loop step appends the entry its input yields, if any |
| ResultsToPlatformBase.Swapped | active-ml-server/common/results_to_platform_converter/base.py:183 | every (record, file) pair becomes (file, record), in order |
| ResultsToPlatformBase.ListValuedInvertsToEmpty | active-ml-server/common/results_to_platform_converter/base.py:182-186 | a mapping with an unhashable (list) value inverts to {} |
| ResultsToPlatformBase.FilenameToRecordSpec | active-ml-server/common/results_to_platform_converter/base.py:172-186 | with hashable values, a file is a key of the inverse iff it is some record's value, and maps to the last record holding it |
| ResultsToPlatformBase.InverseOfInverse | active-ml-server/common/results_to_platform_converter/base.py:172-186 | with distinct hashable values, every file maps back to its record and nothing else is in the inverse, so inverting again gives the mapping back |
| ResultsToPlatformBase.UploadFilesToPlatform | active-ml-server/common/results_to_platform_converter/base.py:115-154 | no request without files; succeeds iff there are no files or the response is 200 |
| ResultsToPlatformBase.FileHandle.Close | active-ml-server/common/results_to_platform_converter/base.py:166-167 | a close is recorded; it raises as the handle does |
| ResultsToPlatformBase.CloseOpenedFiles | active-ml-server/common/results_to_platform_converter/base.py:157-169 | every handle with close is closed once per listing even when earlier closes raise; handles without close are untouched |
| ResultsToPlatformBase.Available | active-ml-server/common/results_to_platform_converter/detection_converter.py:97-105 | the files opened for a batch are those of the batch that exist |
| ResultsToPlatformBase.UploadFileBatch | active-ml-server/common/results_to_platform_converter/detection_converter.py:78-137 | the batch succeeds iff no file exists or the upload returns 200; the existing files are sent, and every opened handle is closed exactly once |
| ResultsToPlatformBase.OpenAvailable | active-ml-server/common/results_to_platform_converter/detection_converter.py:96-109 | the opening loop keeps, in order, exactly the batch files that exist, each with one fresh, not yet closed handle that occurs once in the list |
| ResultsToPlatformBase.OpenedAll | active-ml-server/common/results_to_platform_converter/detection_converter.py:96-109 | taking the batch left to right and skipping missing files keeps exactly the available files, in order |
| Sorting.FilterAppend | active-ml-server/common/results_to_platform_converter/detection_converter.py:97-105 | filtering two lists put together is putting their filterings together |
| ResultsToPlatformBase.UploadFilesInBatches | active-ml-server/common/results_to_platform_converter/detection_converter.py:139-171 | a batch size of 0 fails (range step 0); a negative one uploads nothing and succeeds; otherwise batches are consecutive slices, uploaded in order, stopping at the first failed one, and the result is true iff every batch succeeds |
| ResultsToPlatformBase.BatchStep | active-ml-server/common/results_to_platform_converter/detection_converter.py:157-159 | the batches from position i are the slice [i : min(i+size, n)] followed by the batches after it |
| ResultsToPlatformDetection.ImagePrefix | active-ml-server/common/results_to_platform_converter/detection_converter.py:49-59 | the prefix before the first "_bbox" starts the name and holds no "_bbox"; a name without "_bbox" is its own prefix |
| ResultsToPlatformDetection.DetectionFileName | active-ml-server/common/results_to_platform_converter/detection_converter.py:62 | the per-image file name ends in "_bbox.json" |
| ResultsToPlatformDetection.DetectionFileContent | active-ml-server/common/results_to_platform_converter/detection_converter.py:58-60 | the per-image file holds one key, the prefix, whose value is the detections |
| ResultsToPlatformDetection.DetectionInfosSpec | active-ml-server/common/results_to_platform_converter/detection_converter.py:32-76 | an upload entry exists iff a result's prefix+".png" has a record and its file was saved; the entry holds that record and prefix+"_bbox.json" |
| ResultsToPlatformDetection.NoRecordsNoFiles | active-ml-server/common/results_to_platform_converter/detection_converter.py:51-53 | with no records every result is skipped |
| ResultsToPlatformDetection.ProcessDetectionResults | active-ml-server/common/results_to_platform_converter/detection_converter.py:32-76 | the loop collects exactly the upload entries of the results |
| ResultsToPlatformDetection.DetectionResultsConverter.Run | active-ml-server/common/results_to_platform_converter/detection_converter.py:191-248 | false on a missing mapping, an empty inverse, or results that are missing, malformed or JSON null; true when nothing is left to upload; otherwise the result of the batched upload |
| ResultsToPlatformSegmentation.PngMaskName | active-ml-server/common/results_to_platform_converter/segmentation_converter.py:46-47 | the PNG mask name ends in "_mask.png" and, without that suffix, is the image file's name without its extension |
| ResultsToPlatformSegmentation.PngMaskShared | active-ml-server/common/results_to_platform_converter/segmentation_converter.py:46-47 | two image files share one PNG mask exactly when their names without extension agree |
| ResultsToPlatformSegmentation.WebpMaskName | active-ml-server/common/results_to_platform_converter/segmentation_converter.py:46-66 | the uploaded mask name ends in "_mask.webp", and it determines the PNG mask it was converted from |
| ResultsToPlatformSegmentation.ListingsSpec | active-ml-server/common/results_to_platform_converter/segmentation_converter.py:43-44 | the nested loop visits exactly the (record, file name) pairs of the mapping |
| ResultsToPlatformSegmentation.MasksSnoc | active-ml-server/common/results_to_platform_converter/segmentation_converter.py:44-70 | one more file name adds at most its own entry, after the earlier ones |
| ResultsToPlatformSegmentation.MasksAppend | active-ml-server/common/results_to_platform_converter/segmentation_converter.py:43-70 | processing two runs of file names one after the other, carrying the removed PNG masks, is processing them together |
| ResultsToPlatformSegmentation.MasksRemoved | active-ml-server/common/results_to_platform_converter/segmentation_converter.py:51-64 | the PNG masks removed only grow, and each one removed is the PNG mask of a listed file name |
| ResultsToPlatformSegmentation.MasksSound | active-ml-server/common/results_to_platform_converter/segmentation_converter.py:45-67 | every entry comes from a string file name whose PNG mask was there, not yet removed, and converted; the entry holds its record and "<base>_mask.webp" |
| ResultsToPlatformSegmentation.MasksFirst | active-ml-server/common/results_to_platform_converter/segmentation_converter.py:45-67 | the first listing of a PNG mask that is there, not yet removed and converts always gets its entry |
| ResultsToPlatformSegmentation.MasksOnce | active-ml-server/common/results_to_platform_converter/segmentation_converter.py:51-67 | when removing always succeeds, no PNG mask is converted twice: the WebP names are pairwise different and each one's PNG mask is gone |
| ResultsToPlatformSegmentation.MaskInfosSound | active-ml-server/common/results_to_platform_converter/segmentation_converter.py:29-73 | an upload entry names a record of the mapping and the WebP mask of one of its string file names whose PNG mask was written and converts |
| ResultsToPlatformSegmentation.MaskInfosFirst | active-ml-server/common/results_to_platform_converter/segmentation_converter.py:29-73 | the first listing across all records of a PNG mask that was written and converts gets an upload entry for its record |
| ResultsToPlatformSegmentation.MaskInfosOnce | active-ml-server/common/results_to_platform_converter/segmentation_converter.py:43-67 | when removing always succeeds, no WebP mask is uploaded twice, even for a file name repeated within or across records |
| ResultsToPlatformSegmentation.MasksAreWebp | active-ml-server/common/results_to_platform_converter/segmentation_converter.py:66-67 | every uploaded file is a "_mask.webp" |
| ResultsToPlatformSegmentation.MaskInfosSnoc | active-ml-server/common/results_to_platform_converter/segmentation_converter.py:43-70 | one record step appends that record's entries, processed from the PNG masks removed so far |
| ResultsToPlatformSegmentation.ProcessSegmentationMasks | active-ml-server/common/results_to_platform_converter/segmentation_converter.py:29-73 | the nested loop, carrying the PNG masks it removed, collects exactly the upload entries of the mapping |
| ResultsToPlatformSegmentation.RecordMasksOf | active-ml-server/common/results_to_platform_converter/segmentation_converter.py:44-70 | the inner loop keeps, in order, the WebP mask of each file name whose PNG mask is there (not removed earlier) and converts, skips the others, and returns the removed PNG masks |
| ResultsToPlatformSegmentation.SegmentationResultsConverter.Run | active-ml-server/common/results_to_platform_converter/segmentation_converter.py:170-223 | false on a missing mapping or a non-list value; false when no mask was processed, unlike detection; otherwise the result of the batched upload in batches of 10 by default |
| Jobs.Prepared | active-ml-server/ML_server/jobs.py:85-93 | the upload and processed folders exist and are empty; the return folder too for INFERENCE only; every other folder is unchanged |
| Jobs.JobTrace | active-ml-server/ML_server/jobs.py:96-160 | a job that returns True ends with one package-status update (CREATED or DONE) followed by FREE; no trace holds any other package-status update, and none but the second-to-last message |
| Jobs.ConverterFailureIsQuiet | active-ml-server/ML_server/jobs.py:106-108 | a converter that returns False ends the job with False, sending nothing: no package-status update and no FREE |
| Jobs.TrainingTrace | active-ml-server/ML_server/jobs.py:115-128 | TRAIN sends CREATE DATASET and TRAINING, then DONE iff training succeeded else CREATED, then FREE, and returns True |
| Jobs.InferenceUploadFailureIsQuiet | active-ml-server/ML_server/jobs.py:130-143 | INFERENCE sends INFERENCE and DOWNLOAD; a failed post-processor returns False with no package-status update |
| Jobs.InferenceTrace | active-ml-server/ML_server/jobs.py:130-150 | a successful post-processor gives DONE iff prediction succeeded else CREATED, then FREE, and True |
| Jobs.RaisedEndsInRecovery | active-ml-server/ML_server/jobs.py:156-160 | a job raises iff its trace ends with CREATED then FREE and it returns False |
| Jobs.Job.SendStatus | active-ml-server/ML_server/jobs.py:59-70 | one status message for the dataset is sent; a failure to send never propagates |
| Jobs.Job.UpdatePackageStatus | active-ml-server/ML_server/jobs.py:72-83 | one package-status update is sent; a failure to send never propagates |
| Jobs.Job.PrepareDirectories | active-ml-server/ML_server/jobs.py:85-93 | the storage becomes the prepared folders |
| Jobs.Job.Training | active-ml-server/ML_server/jobs.py:115-128 | the training branch sends the training steps and returns their outcome |
| Jobs.Job.InferenceWorkflow | active-ml-server/ML_server/jobs.py:130-150 | the inference branch sends the inference steps and returns their outcome |
| Jobs.Job.Recover | active-ml-server/ML_server/jobs.py:156-160 | the except branch sends CREATED then FREE and returns False |
| Jobs.Job.Run | active-ml-server/ML_server/jobs.py:96-160 | the folders are prepared, the messages sent are the job's trace, and the result is the trace's outcome |
| ActiveServer.JoinWithBase | active-ml-server/ML_server/active_server.py:51 | urljoin with the base: an absolute path is appended to the base's origin, and a URL without a scheme ends up under https |
| ActiveServer.BuildFullUrl | active-ml-server/ML_server/active_server.py:47-51 | a URL starting with "https" is left unchanged; an absolute path is joined to the base; the result is the URL itself or starts with "https" |
| ActiveServer.BuildFullUrlIdempotent | active-ml-server/ML_server/active_server.py:47-51 | building the full URL of a full URL changes nothing |
| ActiveServer.IntField | active-ml-server/common/models.py:28-30 | an integer field is read only from a JSON number equal to it |
| ActiveServer.ModeField | active-ml-server/common/models.py:11-32 | the mode is read only from its enum string |
| ActiveServer.StatusField | active-ml-server/common/models.py:16-33 | the package status is read only from its enum string |
| ActiveServer.Validate | active-ml-server/common/models.py:27-35 | a package validates only from a JSON object whose package_id, mode, package_status and package fields hold the validated values |
| ActiveServer.NullLabelPropertiesRefused | active-ml-server/ML_server/active_server.py:57-60 | as written, a valid package whose label_properties is null never starts: build_full_url raises on None |
| ActiveServer.NullLabelsExample | active-ml-server/ML_server/active_server.py:57-60 | as written, the concrete package {package_id, user_id 1, dataset_id, INFERENCE, Detection, CREATED, "/media/package.json", label_properties null} validates but does not start |
| ActiveServer.StartedTask | active-ml-server/ML_server/active_server.py:53-73 | corrected: a package starts iff it validates; the started task keeps the package's ids, task and mode, and both URLs become full URLs, a null label_properties staying null |
| ActiveServer.StartedTaskAgrees | active-ml-server/ML_server/active_server.py:57-60 | with label properties present, the corrected start and the start as written agree |
| ActiveServer.TickOutcome | active-ml-server/ML_server/active_server.py:111-161 | corrected start (see Findings): a tick sends requests only when a package is offered (200 and CREATED); a task starts only after the IN_PROGRESS PUT returned 200, and it is then the started task of the package, having sent only that PUT; a tick leaves the worker wedged only when process_package's reset PUT raised |
| ActiveServer.UnsupportedModeResets | active-ml-server/ML_server/active_server.py:125-158 | an unsupported mode resets the package to CREATED, starts no job and never wedges the worker |
| ActiveServer.InvalidPackageResetTwice | active-ml-server/ML_server/active_server.py:75-145 | a package that fails validation after IN_PROGRESS is reset to CREATED twice, once in process_package and once in check_packages, when the first reset does not raise |
| ActiveServer.InvalidPackageWedges | active-ml-server/ML_server/active_server.py:75-88 | when process_package's reset PUT raises, only that one reset is sent, check_packages' own reset is skipped, and the worker stays busy with no task |
| ActiveServer.WedgedIffResetRaises | active-ml-server/ML_server/active_server.py:75-145 | a tick wedges the worker iff a supported, offered package was marked IN_PROGRESS (200), fails validation, and the reset PUT in process_package raises |
| ActiveServer.StartsIffInProgress | active-ml-server/ML_server/active_server.py:120-136 | corrected start (see Findings): a job starts iff a package is offered, the IN_PROGRESS PUT returned 200 and the package validates |
| ActiveServer.ActiveServer.ProcessPackage | active-ml-server/ML_server/active_server.py:53-88 | corrected start (see Findings): on success the server is busy with the started task and a job for it exists; on failure it sends one CREATED reset and is free again with no current task, unless that reset raises, in which case the exception escapes and the server stays busy with no task |
| ActiveServer.ActiveServer.Tick | active-ml-server/ML_server/active_server.py:105-163 | corrected start (see Findings): a busy server does nothing; a free one sends the tick's requests, takes the tick's started task as current, creates a job exactly when one starts, and is left busy with no task exactly when the tick wedges it |
| ActiveServer.ActiveServer.RunJob | active-ml-server/ML_server/active_server.py:90-103 | after the job runs, the server is always free with no current task; the job's messages and result are its trace |
| LabelProperties.ExtractLeafClasses | web-platform/backend/network/services.py:18-34 | a list is its own classes; anything that is neither a list nor a dict has none |
| LabelProperties.LeavesOfKeysMembers | web-platform/backend/network/services.py:23-32 | a class comes from a run of dict keys iff one of those keys contributes it: the leaves of a non-empty dict value, the items of a non-empty list value, or else the key itself |
| LabelProperties.LeavesOfDict | web-platform/backend/network/services.py:22-33 | a class is among a dict's leaf classes iff some key of the dict contributes it |
| LabelProperties.FlatDictLeaves | web-platform/backend/network/services.py:22-33 | for a dict whose values are scalars, empty lists or empty dicts, the leaf classes are exactly its keys in dict order |
| LabelProperties.FlatKeysLeaves | web-platform/backend/network/services.py:29-31 | keys whose values are scalars or empty contribute themselves, one each, in order |
| LabelProperties.ColourStep | web-platform/backend/network/services.py:11-16 | giving the next class a colour not yet used keeps every class's colour distinct and recorded in the used set, which grows by exactly one |
| LabelProperties.AssignColours | web-platform/backend/network/services.py:11-42 | the dict comprehension succeeds iff every class is hashable; then the classes are exactly the keys, distinct classes have distinct colours, and every colour is in the used set, one per class |
| LabelProperties.ProcessLabelProperties | web-platform/backend/network/services.py:37-44 | the result is a dict from exactly the leaf classes to pairwise distinct colours, one new colour per leaf class; it fails iff a leaf class is unhashable |
| LabelProperties.DatasetName | web-platform/backend/network/services.py:64 | the stored name starts with the dataset id and an underscore and ends with the requested name |
| LabelProperties.CreateDataset | web-platform/backend/network/services.py:46-75 | the dataset is named after its id and the requested name; without a file its label properties are {"Standart_label": "#FF0000"}; with one they are the processed leaf classes with distinct colours |
| PlatformTasks.StripIdPrefix | web-platform/backend/network/tasks.py:232 | a name without an underscore strips to the empty string |
| PlatformTasks.StripDatasetName | web-platform/backend/network/tasks.py:232 | stripping the "<id>_" prefix from a name the platform gave a dataset gives back the requested name |
| PlatformTasks.CopyName | web-platform/backend/network/tasks.py:231-235 | the copy's name is never the original's requested name: it is the requested name when that differs from it, and the requested name with "_copy" otherwise |
| PlatformTasks.CopyUnderOwnName | web-platform/backend/network/tasks.py:231-235 | copying a dataset under the name it was created with yields that name with "_copy" |
| PlatformTasks.TotalSteps | web-platform/backend/network/tasks.py:216 | progress is measured against at least one step, and against exactly the counted steps when there are any |
| PlatformTasks.ProgressBounded | web-platform/backend/network/tasks.py:219-221 | assuming no more steps are done than counted (current ≤ total, which the copy guarantees only with static metadata counted as one step, see StepsWithinCounted and Findings), the reported percentage is at most 100 |
| PlatformTasks.ProgressComplete | web-platform/backend/network/tasks.py:219-221 | assuming current ≤ total (as for ProgressBounded), the reported percentage is 100 exactly when every counted step is done |
| PlatformTasks.ProgressMonotone | web-platform/backend/network/tasks.py:219-221 | the reported percentage never decreases as steps are done |
| PlatformTasks.StepsWithinCounted | web-platform/backend/network/tasks.py:192-357 | with static metadata counted as the one step the copy takes for it, `current_step` never passes the counted `total_steps`, and reaches it when every copy validates |
| PlatformTasks.CopyProgressBounded | web-platform/backend/network/tasks.py:216-357 | every percentage a copy reports is at most 100, and none is below an earlier one |
| PlatformTasks.CopyProgressComplete | web-platform/backend/network/tasks.py:216-357 | the last step reports 100 iff it is the last counted step; it is when every copy validates and some step is counted |
| PlatformTasks.AsWrittenWithin | web-platform/backend/network/tasks.py:196-250 | as written, a copy takes at most one step beyond `total_steps`, and more steps than counted only when its static metadata holds neither file |
| PlatformTasks.OneStepOver | web-platform/backend/network/tasks.py:219-221 | one step beyond a total of t reports at least 100, and more than 100 when t is at most 100 |
| PlatformTasks.AsWrittenOvershoots | web-platform/backend/network/tasks.py:196-250 | as written, static metadata holding neither file, with every copy validating, makes the copy take `total_steps` + 1 steps: its last report is at least 100, and above 100 for at most 100 counted steps |
| PlatformTasks.AsWrittenProgressExample | web-platform/backend/network/tasks.py:196-250 | as written, a dataset with label properties, static metadata holding neither file and no assets counts 1 step, takes 2 and reports 200 |
| PlatformTasks.CountAssetSteps | web-platform/backend/network/tasks.py:203-213 | the counting loop adds for an asset one step per record, each record's detections and segmentations when records are validated, and one for dynamic metadata |
| PlatformTasks.StepAsset | web-platform/backend/network/tasks.py:287-357 | an asset's copy takes a step for dynamic metadata, one per record, and one per detection or segmentation of each record whose copy validates when records are validated, reporting after each |
| PlatformTasks.CountSteps | web-platform/backend/network/tasks.py:192-216 | the counting loop yields `total_steps` of the corrected count, at least one |
| PlatformTasks.StepCopy | web-platform/backend/network/tasks.py:217-357 | the copy reports after each step it takes: label properties, static metadata, then the assets when the dataset's copy validates |
| PlatformTasks.CopyProgress | web-platform/backend/network/tasks.py:183-357 | a copy makes one report per step it takes, the k-th being the percentage after k+1 steps of the corrected total; every report is at most 100, they never decrease, and the last is 100 when every copy validates |
| PlatformTasks.ImageAnnotations | web-platform/backend/network/tasks.py:688-695 | an image's annotations are usable iff iterating the value yields only dicts (the comprehension calls .get on each): a list of dicts, or an empty dict or empty string, which yield nothing; a list is used as it is, and scalars are refused |
| PlatformTasks.MapCountSpec | web-platform/backend/network/tasks.py:688-695 | rebuilding a dict succeeds iff every value's step does; it keeps the keys in order, puts each step's value under its key, and its count is the sum of the steps' counts, zero iff every count is zero |
| PlatformTasks.MapCountSnoc | web-platform/backend/network/tasks.py:688-695 | the dict rebuilt from one more entry is the previous one with that entry's result appended, or a failure |
| PlatformTasks.MapCountPrefixFails | web-platform/backend/network/tasks.py:678-704 | once rebuilding fails on a prefix of the dict, the whole file is skipped |
| PlatformTasks.SweepSpec | web-platform/backend/network/tasks.py:674-704 | the sweep keeps one file per detection; a file is replaced iff its clean-up succeeded and deleted something; the replaced count is the number of such files, at most the deleted count, and zero iff nothing was deleted |
| PlatformTasks.SweepSnoc | web-platform/backend/network/tasks.py:674-704 | sweeping one more file appends its cleaned content and adds its deleted count and one update when it deleted something, and keeps it otherwise |
| PlatformTasks.RebuildDict | web-platform/backend/network/tasks.py:686-695 | the loop over the dict's items computes the rebuilt dict and deleted count of the specification |
| PlatformTasks.SweepFiles | web-platform/backend/network/tasks.py:670-704 | the loop over the detections computes the specification's new files, deleted count and updated-record count |
| PlatformTasks.KeepCountSpec | web-platform/backend/network/tasks.py:690-694 | the filter drops exactly the elements that fail the test, keeps only ones that pass, drops none iff all pass, and filtering again drops nothing |
| PlatformTasks.MapCountIdempotent | web-platform/backend/network/tasks.py:688-695 | when each step is idempotent, rebuilding an already rebuilt dict changes nothing and counts zero |
| PlatformTasks.MapCountKeys | web-platform/backend/network/tasks.py:688-695 | the rebuilt dict has the original's keys in their original places |
| PlatformTasks.CleanImageSpec | web-platform/backend/network/tasks.py:689-694 | an image's list loses exactly the annotations labelled with the deleted class, the deleted count is their number, zero iff there were none, and cleaning again deletes nothing |
| PlatformTasks.CleanedFileSpec | web-platform/backend/network/tasks.py:678-695 | a file is cleaned iff it is a JSON dict each of whose values iterates to dicts only (a list of dicts, or an empty dict or string); each image keeps its name and loses exactly the deleted class's annotations, and the deleted count is zero iff none had that class |
| PlatformTasks.CleanedFileIdempotent | web-platform/backend/network/tasks.py:686-704 | cleaning a cleaned file deletes nothing, so it is not rewritten |
| PlatformTasks.CleanDetectionFile | web-platform/backend/network/tasks.py:678-695 | the per-file loop computes the specification's cleaned file and deleted count |
| PlatformTasks.CleanupSpec | web-platform/backend/network/tasks.py:668-706 | after the class is deleted, each detection file with annotations of it is replaced by its cleaned content and all others stay; updated records are at most the files and at most the deleted annotations, and zero iff nothing was deleted |
| PlatformTasks.CleanDetectionAfterClassDelete | web-platform/backend/network/tasks.py:668-706 | the clean-up loop computes the new files, deleted count and updated-record count of the specification |

## Left out

- AutoGluon training and prediction, torch/CUDA memory queries and `clear_memory` are foreign library calls. Their outcomes (training succeeded, free memory read) are oracle inputs.
- Image I/O, erosion, pixel resizing and rotation, and WebP/PNG conversion (cv2, PIL, numpy) are foreign calls. Segmentation augmentation realises its flips, resizes and rotations through a `Resampler` parameter; only the counts, the order and the flip rules are modelled.
- `random.sample`, `random.shuffle`, the random scale factor and `generate_unique_color` are nondeterministic. The shuffled list is an arbitrary input; the scale factor is a parameter; the colour generator is a `draw` oracle that returns an unused colour.
- Float metrics (`calculate_segmentation_metrics`, `update_asset_metrics`, `update_dataset_metrics`) are floating-point plumbing and are not modelled.
- FileConverter: the CSV numeric fields are taken as already parsed; `int(round(float(...)))` and its parse failures are not modelled.
- HTTP sessions, retries, `ThreadPoolExecutor`, locks and threads are left out. Downloads happen one at a time in URL order, and each callback's effect is applied in that order.
- `process_single_result`'s `eval`-based text parsing and `parse_detection_results.py` are string-eval plumbing; only the confidence filter and the dedup are modelled.
- Django views, serializers, models, signals and database saves are left out. Files the tasks rewrite are returned as values instead of being saved.
- The JSON/YAML parsers are not modelled: files enter as already-parsed JSON values, and the loaders' results are `Option` inputs.
- The key order of JSON files written to disk and the formatting of `json.dumps` are not modelled.
- Logging and the `sleep(check_interval)` between ticks of the polling loop are left out; the loop is one `Tick` per iteration.
- Python's hash equality of `1`, `1.0` and `True` as dict keys is not modelled: JSON values are compared structurally.
- pydantic's lax coercions (numeric strings accepted as integers, and the like) are not modelled: a field validates only from the JSON type it declares.
- PlatformToTaskBase.DecodeFilename: `%XX` decodes to the single character with code XX (Latin-1); UTF-8 multi-byte sequences are not combined into one character.
- FileConverter.HexToRgb: accepts hex digits only. The signs, whitespace and underscores that Python's `int(..., 16)` also accepts are treated as errors.
- FileConverter.Rgb2Palette: the index image keeps unbounded indices. `save_image_to_palette` (file_converter1.py:86) casts it with `astype(np.uint8)`, so with 256 or more labels the saved PNG holds indices modulo 256 and `putpalette` receives more than 768 values; the saved file is not modelled.
- FileConverter.Csv2CocoJson: the constant `"iscrowd": 0` field of every annotation is not modelled.
- DetectionDatasetPipeline.PoolToCoco: the constant `"iscrowd": 0` field of every annotation is not modelled.
- DetectionDatasetPipeline.Split: the train part has the exact floor of ratio·n entries. Python computes `int(ratio * n)` in floating point, which can come out one lower for some ratios; for the configured ratio 0.9 the two agree.
- Text.Lower: folds the ASCII letters A-Z only; Python's `str.lower` also lower-cases non-ASCII letters.
- ActiveServer.BuildFullUrl: models `urljoin` for an absolute path or a plain relative path only. Dot segments and upper-case schemes are not resolved.
- ActiveServer.ActiveServer.RunJob: the `except` branch of `_run_job` (active_server.py:95-97) is not modelled. It calls `job.update_package_status(PackageStatus.CREATED)`, but `update_package_status` is the status URL string the job was built with (jobs.py:54), so the call would raise `TypeError` ('str' object is not callable). The branch is not reachable anyway: `Job.run` catches every exception of a job's body (jobs.py:156-160), and the status senders swallow their own failures.
- Jobs.Job.PrepareDirectories: failures of directory creation are not modelled.
- Jobs.Job.Run: the fall-through after the TRAIN and INFERENCE branches (jobs.py:152-154) is unreachable, because a task is always one of the two, and it is not modelled.
- Jobs.Job.Run: the ML routine's and the post-processor's constructors (jobs.py:111 and jobs.py:137) are taken not to raise. If one did, run's own handler would reset the package to CREATED and report FREE without the stage status sent before it.
- TemporaryStorage.ModelFolder.SaveModelPath: the retry on a name clash, which drops the temp flag, is never reached when versions are created one at a time, because the new name always has a larger ordinal than every existing one. The retry is therefore not modelled.
- DinoModelManager.FinalizeModelVersion: "_temp" is removed from the version directory's name, not from the whole path as the source's string replace would do when a parent directory also contains "_temp".
- PlatformTasks.Progress: the percentage is the exact floor of 100·current/total. Python's `int((current / total) * 100)` can come out one lower through float rounding, for example 28 for 29 of 100 steps.
- SegmentationModel.RunTrain: uses the corrected loader, so an empty train.csv gives one empty chunk. The loader as written (SegmentationModel.LoadDataChunkAsWritten) divides by zero on that input, because the chunk size is 0; RunTrain does not show that ZeroDivisionError.
- `clean_segmentation_after_class_delete` repaints mask pixels with pixel I/O and is not modelled; `clean_annotations_after_class_delete` only schedules the two clean-ups.
- `create_dataset` in tasks.py, which stores a copied dataset's label file verbatim, differs from the services version only in database plumbing; only the services version is modelled.
- The rest of `copy_dataset` (copying metadata, records and metrics through serializers) is database plumbing; only the copy's name and its progress are modelled.
- PlatformTasks.CopyProgress: a dataset is reduced to what decides its step counts (`DatasetShape`): each serializer's validation is a flag, and the saves, the final `progress = 100` and the `failed` status with progress 0 on an exception are not modelled.

## Findings

| source | as written | input that shows it | evidently intended | confidence | as-written member | corrected member |
|---|---|---|---|---|---|---|
| active-ml-server/quantitave_analysis/models/segmentation/segmentation_model.py:69-115 | `run_train` runs `count` stages of `total // count` rows; the branch that loads the remaining rows fires only for chunk index `total // chunk_size`, which is never reached, so the last `total mod count` rows are never loaded | 101 training rows: 2 chunks of 50 rows are loaded, and row 100 never is | the last stage also loads the remaining rows, so every training row is used | not executed | SegmentationModel.RemainderExample | SegmentationModel.StagesCoverAllRows |
| active-ml-server/ML_server/active_server.py:57-60 | `process_package` calls `build_full_url` on `label_properties`, which the package model declares optional; with null label properties, `None.startswith` raises, and the package is reset to CREATED on every tick | a valid INFERENCE package whose `label_properties` is null | a null `label_properties` stays null and the package is processed | not executed | ActiveServer.NullLabelsExample | ActiveServer.StartedTask |
| web-platform/backend/network/tasks.py:196-250 | `total_steps` counts static metadata as one step per file it holds (`arbitrary_data`, `asset_structure`), but the copy advances `current_step` once for static metadata whatever it holds; with neither file the copy takes one step more than counted (with both, one fewer) | a dataset with label properties, static metadata holding neither file and no assets: `total_steps` is 1, `current_step` reaches 2, and `update_progress` stores 200 | the progress stays within 0..100 and is 100 only at the last counted step: static metadata counts as the one step the copy takes for it | not executed | PlatformTasks.AsWrittenWithin, PlatformTasks.AsWrittenOvershoots, PlatformTasks.AsWrittenProgressExample | PlatformTasks.CountSteps, PlatformTasks.StepsWithinCounted, PlatformTasks.CopyProgressBounded, PlatformTasks.CopyProgress |
