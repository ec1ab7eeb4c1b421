# Multi-organ XAI inference backend: the deterministic core

This project models the deterministic routines of the Python inference backend
in Dafny. The backend serves brain (MALPEM segmentation) and heart
(cardiomyopathy) models to an AR viewer. The routines modelled are these:

- **Label tables.** `load_lut` reads a headered CSV or MALPEM raw text into
  `{label_id: label_name}` (`lut.dfy`). `read_lut_csv` and `read_lut_to_glb_csv`
  read already-parsed CSV rows (`mapping.dfy`).
- **Artifact discovery and bundles.** `discover_model_artifacts` chooses the
  model, lut and CN-reference files from a folder listing (`registry.dfy`).
  `unwrap_estimator` finds the estimator inside a loaded object (`model_io.dfy`).
  `load_model_bundle` normalises a bundle or builds the default one (`models.dfy`).
- **Brain features and region ranking.** `extract_roi_features` counts the
  voxels of each label in ascending id order and adds them up to the ICV
  (`features.dfy`). `predict.py` contributes the `vol_<id>` column parser, the
  importance alignment, the two top-region rankings, the `x_row` alignment, the
  fabricated probabilities and `map_name` (`predict.dfy`).
- **Heart result shaping.** From `predict_heart_cardio` (`heart.dfy`):
  - feature alignment;
  - the gain-based XAI loop, which parses `SEG<n>_...` names into AHA segment ids;
  - the one-hot fallback;
  - the prediction and probability map;
  - the segment scores.
- **Web registry.** From `app.py` (`app.dfy`): the scan of `models/<organ>/<disease>`,
  the class-name map, the `/registry` listing and the 404 check of `/infer`.
- **AHA-16 table.** The segment names and the ring/sector numbering of `aha16_bins` (`aha.dfy`).

Shared modules:

- `wrappers.dfy` holds Option, Result and the Python exceptions raised.
- `text.dfy` holds the Python string operations used: `strip`, `split`,
  `lower`, `startswith`, `int()` and `str(int)`.
- `collections.dfy` holds dictionaries filled in order, where a later key wins;
  first-match search (`next(...)`); `np.argmax`; the stable descending sort of
  `list.sort(reverse=True)`; and `sorted()` of a set.
- `objects.dfy` holds the loaded Python objects: strings, integers, lists,
  tuples, dicts with ordered keys, and opaque objects. An opaque object is an
  estimator, a numpy array, a pandas Index and the like. It is known by its
  `str()`, whether it has `.predict`, and the elements iterating it yields.

Files, estimators and images are inputs. A file is given as its lines or rows,
a folder as its entries, a segmentation as its voxel labels, and an estimator
by what it answers.

## Model

| member | source | states |
|---|---|---|
| Lut.ParseHeadered | backend/core/lut.py:31-40 | the headered loop yields the dict built, in row order with the last row winning, from the data rows that have at least two cells and an integer first cell, each mapped to its stripped second cell |
| Lut.ParseRaw | backend/core/lut.py:51-72 | the raw loop yields the dict of the non-blank stripped lines, without a leading `irtksegmenttable` banner, with the last line for an id winning |
| Lut.LoadLut | backend/core/lut.py:16-76 | a missing file raises FileNotFoundError before any parsing; the headered result is returned only when the sniffer saw a header, the first header cell contains `label_id` in any case, and the result is non-empty; otherwise the raw parse is used, and an empty one raises ValueError; a result returned is never empty |
| Lut.HeaderedLutKeys | backend/core/lut.py:32-40 | an id is in the headered result exactly when some data row with at least two cells has it as its integer first cell |
| Lut.HeaderedLastRowWins | backend/core/lut.py:40 | the name kept for an id is the stripped name of the last row with that id |
| Lut.RawLutKeys | backend/core/lut.py:58-72 | an id is in the raw result exactly when some kept line parses to it |
| Lut.RawLastLineWins | backend/core/lut.py:60-72 | the name kept for an id comes from the last kept line with that id. It is the line's tokens from the 7th on, or from the 2nd when there are fewer than 7, joined by single spaces |
| Lut.RawLinesAreStrippedNonBlank | backend/core/lut.py:52-55 | every line the raw loop sees is non-empty and already stripped |
| Lut.KeptNonBlank | backend/core/lut.py:52 | the comprehension keeps only non-empty stripped lines |
| Mapping.ColumnIndex | backend/core/mapping.py:8 | a column is found exactly when it is among the normalised names, and the index found holds that name |
| Mapping.ParseIds | backend/core/mapping.py:9 | the rows convert exactly when every id cell is an integer, giving the parsed ids in row order; otherwise ValueError |
| Mapping.PairsLut | backend/core/mapping.py:9 | the comprehension fails with ValueError exactly when some id cell is not an integer |
| Mapping.ReadLutCsv | backend/core/mapping.py:4-9 | the assertion fails unless the normalised columns include `label_id` and `label_name`. When `label_id` names two columns and there are rows, `int()` of the Series raises TypeError. Otherwise the result is the comprehension over the two columns |
| Mapping.PairsLutKeys | backend/core/mapping.py:9 | the keys are exactly the parsed ids of the rows |
| Mapping.PairsLutLastRowWins | backend/core/mapping.py:9 | a later row with the same id overwrites the name |
| Mapping.GroupRowsSpec | backend/core/mapping.py:16-21 | an id is a key exactly when it has a non-empty stripped node, and its list holds those nodes in row order |
| Mapping.PairsGlb | backend/core/mapping.py:16-21 | the grouping fails with ValueError exactly when some id cell is not an integer |
| Mapping.ReadLutToGlbCsv | backend/core/mapping.py:11-22 | the assertion fails unless the normalised columns include `label_id` and `glb_node`. When `label_id` names two columns and there are rows, the first `int()` raises TypeError. Otherwise the result is the grouping over the two columns |
| Mapping.DuplicateColumnAfterFirst | backend/core/mapping.py:9 | a label names two columns exactly when it appears again after the first column found for it |
| Mapping.GroupPairs | backend/core/mapping.py:16-22 | the loop fails exactly when some id cell is not an integer, and otherwise yields the grouping of the rows by id |
| Mapping.IdsParseAll | backend/core/mapping.py:18 | the loop's "all ids so far parse" flag means every id cell up to there is an integer |
| Mapping.GroupRowsNonEmpty | backend/core/mapping.py:19-22 | every output list is non-empty and holds non-empty stripped nodes |
| Mapping.NodesForStripped | backend/core/mapping.py:19-21 | the nodes collected for an id are non-empty and stripped |
| Registry.PathJoinParts | backend/core/registry.py:15 | the joined path ends with the entry name and starts with the folder |
| Registry.FirstPath | backend/core/registry.py:15 | the generator's first match is the folder joined with the first entry satisfying the test, and there is none exactly when no entry does |
| Registry.DiscoverModelArtifacts | backend/core/registry.py:5-35 | a non-directory raises FileNotFoundError; a result always has the keys `model` and `lut`, and at most `cnref` besides |
| Registry.Artifacts | backend/core/registry.py:32-35 | the result dict has exactly `model`, `lut` and, when a CN reference was found, `cnref`, holding the paths given |
| Registry.FirstPathTruthy | backend/core/registry.py:16-19 | `if not model` holds exactly when no entry matched, because matched names are never empty |
| Registry.SuffixedNonEmpty | backend/core/registry.py:15-27 | a name passing any of the suffix or name tests is non-empty |
| Registry.DiscoverErrors | backend/core/registry.py:10-27 | no `.joblib` entry raises the no-model error; a model but no `lut_parsed.csv` or `lut.csv` raises the no-LUT error; discovery succeeds exactly when the folder exists and both were found |
| Registry.ModelPathPick | backend/core/registry.py:15-18 | the model is the first `.joblib` entry containing `model` (case-insensitive), else the first `.joblib` entry |
| Registry.LutPathPick | backend/core/registry.py:23-25 | the lut is the first entry named `lut_parsed.csv` (case-insensitive), else the first named `lut.csv` |
| Registry.CnrefPathPick | backend/core/registry.py:30 | the CN reference is the first `.joblib` entry containing `cn`, if any |
| Registry.DiscoverPicks | backend/core/registry.py:30-35 | a successful result holds the model and lut picks, and has `cnref` exactly when a CN reference was found, holding it |
| ModelIO.UnwrapEstimator | backend/core/model_io.py:13-42 | what is returned as the estimator has `.predict`, the meta part is missing or a dict, and a failure is the TypeError with its message |
| ModelIO.UnwrapFails | backend/core/model_io.py:39-42 | unwrapping fails exactly when the object is neither an estimator, nor a tuple led by one, nor a dict holding one under a candidate key |
| ModelIO.UnwrapBare | backend/core/model_io.py:23-24 | an object with `.predict` is returned as it is, with no meta, before any tuple or dict rule |
| ModelIO.UnwrapTuple | backend/core/model_io.py:27-31 | a tuple led by an estimator yields it, with the second element as meta exactly when that is a dict |
| ModelIO.UnwrapDictSucceeds | backend/core/model_io.py:34-37 | a dict unwraps exactly when some candidate key holds an estimator |
| ModelIO.UnwrapDict | backend/core/model_io.py:6-8 | for a dict, the first candidate key in the order model, estimator, clf, pipeline, sk_model, sk_estimator whose value has `.predict` wins, and the meta part is the whole dict |
| ModelIO.UnwrapIdempotent | backend/core/model_io.py:23-24 | unwrapping the estimator found gives it back with no meta |
| Models.DefaultXCols | backend/core/models.py:32 | the default bundle has 138 columns |
| Models.LoadModelBundle | backend/core/models.py:15-34 | a missing path raises FileNotFoundError; anything that is not a dict with a `model` key becomes the default bundle around it |
| Models.StringifyEntrySpec | backend/core/models.py:22-25 | normalising one key keeps the key order and every other entry. It stores the `str()` of each element iterating the old value yields. That value may be a list, tuple, string, dict or iterable object such as a numpy array or pandas Index. It fails exactly when the old value is not iterable |
| Models.NormalizeBundleSpec | backend/core/models.py:22-26 | normalisation keeps the keys and every entry but `x_cols` and `classes`. Those two, when present, become the lists of the `str()` of the elements iterating them yields, arrays and Index objects included. It fails exactly when one of them is present and not iterable |
| Models.LoadBundleDict | backend/core/models.py:20-26 | a dict with a `model` key comes back normalised, with the same `model` entry, and fails exactly when normalising fails |
| Models.LoadBundleIterableClasses | backend/core/models.py:20-26 | a bundle whose `classes` is a numpy array or other iterable object loads, with `classes` replaced by the list of its elements' strings |
| Models.LoadBundleDefault | backend/core/models.py:28-34 | the default bundle has the keys model, x_cols, classes in that order, holding the object, `vol_1`..`vol_138` and `["CN", "AD"]` |
| Models.DefaultXColsLabelIds | backend/core/models.py:32 | default column `i` reads back as label id `i + 1` |
| Models.Restringify | backend/core/models.py:22-25 | an entry that already is a list of strings is left unchanged |
| Models.NormalizedStrList | backend/core/models.py:22-25 | after normalisation, `x_cols` and `classes`, when present, are lists of strings |
| Models.NormalizeBundleIdempotent | backend/core/models.py:20-26 | normalising a normalised dict changes nothing |
| Models.ReloadBundleDict | backend/core/models.py:20-26 | loading a normalised bundle dict again gives it back |
| Models.ReloadDefaultBundle | backend/core/models.py:28-34 | loading a default bundle again gives it back |
| Models.LoadBundleIdempotent | backend/core/models.py:15-34 | loading a loaded bundle again changes nothing |
| Objects.QuoteStr | backend/core/models.py:23 | `repr` of a string starts and ends with the quote Python picks: double quotes exactly when the string holds a single quote and no double quote |
| Objects.QuotePlain | backend/core/models.py:23 | a string without quotes, backslashes or ASCII control characters is shown between single quotes unchanged |
| Objects.QuoteApostrophe | backend/core/models.py:23 | a string with single quotes but no double quote, backslash or control character is shown between double quotes unchanged |
| Objects.StrListIdempotent | backend/core/models.py:23 | converting to strings twice is the same as converting once |
| Features.ScaleIsProduct | backend/core/features.py:35 | the volume of `cnt` voxels is `cnt` times the voxel volume |
| Features.ScaleAdd | backend/core/features.py:35-38 | the volumes of two disjoint voxel counts add up |
| Features.LabelVolume | backend/core/features.py:34-35 | `cnt * vox_mm3` is the volume of `cnt` voxels |
| Features.ExtractRoiFeatures | backend/core/features.py:8-43 | the array form lists one volume per lut id in ascending id order; the dict form is keyed by `vol_<id>`; the total is the volume of exactly the voxels whose label is in the lut |
| Features.AccumulateVolumes | backend/core/features.py:28-38 | the loop appends each label's volume, stores it under `vol_<id>`, and adds it to the total |
| Features.CountInAdd | backend/core/features.py:34 | the voxels of one more label add their count to those already counted |
| Features.CountSumIn | backend/core/features.py:33-38 | adding up the counts of distinct labels counts each voxel carrying one of them exactly once |
| Features.TotalCountsLabels | backend/core/features.py:28-38 | over the sorted lut ids, the counts add up to the voxels whose label is in the lut; other labels never contribute |
| Features.SumVolumes | backend/core/features.py:33-38 | the total equals the sum of the per-label volumes |
| Features.VolumesAt | backend/core/features.py:34-36 | entry `i` is the voxel count of label `ids[i]` times the voxel volume |
| Features.KeyedOrigin | backend/core/features.py:37 | every key of the dict was written for one of the labels |
| Features.KeyedHasKey | backend/core/features.py:37 | every label's key is in the dict |
| Features.KeyedAt | backend/core/features.py:37 | with distinct keys, each label's key holds that label's volume |
| Features.VolumeMapKeys | backend/core/features.py:37 | the dict's keys are exactly `vol_<id>` for the labels |
| Features.VolumeMapValues | backend/core/features.py:36-37 | for sorted labels, `vol_<id>` holds the same volume as the array entry for that label |
| Features.LabelIdsSpec | backend/core/features.py:28 | the label ids are exactly the lut keys, in strictly ascending order |
| Predict.FeatureNameToLabelId | backend/core/predict.py:12-18 | a name without the `vol_` prefix gives None; otherwise the result is `int()` of what follows the prefix |
| Predict.FeatureNameOfVolName | backend/core/predict.py:12-18 | `vol_<lid>` parses back to `lid` |
| Predict.VolNameInjective | backend/core/predict.py:91 | different label ids give different `vol_` columns |
| Predict.AlignImportances | backend/core/predict.py:20-26 | the vector is kept exactly when its length equals the number of columns |
| Predict.ImportanceOrder | backend/core/predict.py:37 | the order lists positions of the zipped pairs, as many as the shorter input |
| Predict.ZipColumns | backend/core/predict.py:34-36 | the pairs are the zipped (column, importance, parsed id) triples in column order |
| Predict.ReportPairs | backend/core/predict.py:38-44 | each reported region keeps its signed score and parsed id, and is named from the lut when the id is there, else by the column |
| Predict.TopRegionsFromImportance | backend/core/predict.py:28-45 | `min(k, min(len(importances), len(x_cols)))` regions, one per ranked pair, by non-increasing absolute score |
| Predict.ImportanceOrderIsTopK | backend/core/predict.py:37-39 | the ranking is by non-increasing absolute importance, lists no column twice, keeps ties in column order, and no column left out outranks one reported |
| Predict.FallbackRegions | backend/core/predict.py:61-63 | at most `k` regions are reported |
| Predict.FallbackRegionsRanked | backend/core/predict.py:61-63 | the regions come by non-increasing score, and no item left out scores above one reported |
| Predict.FallbackRegionsFromColumns | backend/core/predict.py:55-68 | each region comes from a parseable `vol_<id>` column, scored as its value over `icv + 1e-9`, and is named from the lut or `vol_<lid>` |
| Predict.FallbackItemsComplete | backend/core/predict.py:55-60 | every parseable column gives an item to rank |
| Predict.CollectVolItems | backend/core/predict.py:54-60 | the collecting loop keeps one item per parseable column, in column order |
| Predict.TakeRegions | backend/core/predict.py:62-68 | the reporting loop gives one region per ranked item, up to the cut |
| Predict.FallbackTopRegionsByVolume | backend/core/predict.py:47-69 | the method computes the ranked fallback regions |
| Predict.XRow | backend/core/predict.py:92 | the feature row has one entry per model column |
| Predict.XRowValues | backend/core/predict.py:90-92 | a column naming a lut id gets that id's volume, and any other column gets 0.0 |
| Predict.FabricatedProba | backend/core/predict.py:110 | the fabricated dict has exactly the bundle classes as keys, each once, with 1.0 for the raw prediction and 0.0 for the others |
| Predict.FabricatedProbaRenamed | backend/core/predict.py:110-122 | after renaming, a friendly name is a key exactly when some class maps to it, and a class whose friendly name is unshared keeps its 1.0/0.0 value |
| Collections.StableOrderSpec | backend/core/predict.py:37 | the sort lists every position once, by non-increasing key, with ties in input order |
| Collections.ArgMax | backend/core/heart_predict.py:43 | `np.argmax` is the first position of a largest value |
| HeartPredict.AlignFeatures | backend/core/heart_predict.py:14-18 | the row has one entry per column, holding that column's feature value or 0.0 |
| HeartPredict.Importances | backend/core/heart_predict.py:53 | one importance per column |
| HeartPredict.ImportanceOf | backend/core/heart_predict.py:53 | importance `i` is `gain["f<i>"]` or 0.0, and the booster names of different columns differ |
| HeartPredict.NoUnderscore | backend/core/heart_predict.py:59 | the decimal text of an id has no underscore |
| HeartPredict.SegmentIdOfName | backend/core/heart_predict.py:59 | `SEG<sid>_<rest>` parses back to `sid` |
| HeartPredict.TopRegions | backend/core/heart_predict.py:54-60 | the loop over the first 16 ranked indices computes the gain regions, or fails as the `int()` does |
| HeartPredict.RegionsStayFailed | backend/core/heart_predict.py:56-60 | once the loop has raised, it stays failed for any longer prefix |
| HeartPredict.FailedAt | backend/core/heart_predict.py:59 | a failure comes from a segment feature whose id does not parse |
| HeartPredict.RegionsFail | backend/core/heart_predict.py:58-63 | the loop raises exactly when some visited segment feature's id does not parse |
| HeartPredict.RegionsBound | backend/core/heart_predict.py:56 | no more regions than indices visited |
| HeartPredict.RegionSource | backend/core/heart_predict.py:57-60 | each region comes from a visited `SEG` feature with a thickness tag, with its parsed id, the name `AHA<id>` and its importance |
| HeartPredict.RegionsFromSegFeatures | backend/core/heart_predict.py:57-60 | each region comes from some visited segment feature, as in RegionSource |
| HeartPredict.RegionsCover | backend/core/heart_predict.py:57-60 | every visited segment feature is reported |
| HeartPredict.RegionsDescending | backend/core/heart_predict.py:54-56 | with a descending order, the regions come by non-increasing importance |
| HeartPredict.Explain | backend/core/heart_predict.py:48-63 | no XAI when not requested; `{"method": "none"}` when the booster is unavailable or the loop raises; otherwise the gain regions |
| HeartPredict.ExplainedRegions | backend/core/heart_predict.py:53-61 | the gain regions number at most 16, by non-increasing importance |
| HeartPredict.OneHot | backend/core/heart_predict.py:42 | `np.eye(n)[y]` raises IndexError exactly when `y` is outside `-n .. n-1` |
| HeartPredict.ProbaMapKeys | backend/core/heart_predict.py:45 | the probability map's keys are exactly the label-map entries |
| HeartPredict.ProbaMapAt | backend/core/heart_predict.py:45 | a label not repeated later keeps its own probability |
| HeartPredict.ShapeSucceeds | backend/core/heart_predict.py:43-45 | shaping succeeds exactly when the row is non-empty, covers the label map, and its argmax falls on a label |
| HeartPredict.ShapePrediction | backend/core/heart_predict.py:43-44 | the prediction is the label of the first largest probability |
| HeartPredict.ShapeProbaMap | backend/core/heart_predict.py:45 | the map's keys are exactly the labels, and unrepeated labels keep their probabilities |
| HeartPredict.OneHotPrediction | backend/core/heart_predict.py:38-45 | without `predict_proba`, the prediction is the label at the predicted index, counted from the end when negative, with probability 1.0 |
| HeartPredict.SegmentScoresOf | backend/core/heart_predict.py:69 | each segment id appears as its decimal text with its score |
| HeartPredict.SegmentScoresKeys | backend/core/heart_predict.py:69 | each key is the decimal text of a segment id |
| HeartPredict.PredictHeartCardio | backend/core/heart_predict.py:20-71 | errors of the one-hot and the shaping propagate; otherwise the result holds the prediction, the probability map, the columns used, the segment scores and the XAI part as Explain gives it |
| Aha.Aha16NamesMap | backend/core/aha.py:38-39 | the copy has exactly the keys 1..16, each with the table's name |
| Aha.Aha16Bins | backend/core/aha.py:31-35 | the bins are numbered 1..16, each a valid ring/sector with the id its position in the numbering gives |
| Aha.BinIdOrder | backend/core/aha.py:33-35 | no two bins share an id, and ids grow with the sector within a ring and with the ring |
| Aha.BasalNames | backend/core/aha.py:6-8 | ids 1-6 name basal segments |
| Aha.MidNames | backend/core/aha.py:9-10 | ids 7-12 name mid segments |
| Aha.ApicalNames | backend/core/aha.py:11 | ids 13-16 name apical segments |
| Aha.BinNamesMatchRings | backend/core/aha.py:32 | each bin's id names a segment of its own ring (Basal, Mid, Apical) |
| Aha.Aha16NamesDistinct | backend/core/aha.py:6-12 | the table names 16 distinct segments |
| App.HasChildIff | backend/app.py:43-45 | a file exists in a folder exactly when some entry has its name |
| App.ScanModels | backend/app.py:33-56 | a missing root gives an empty registry; otherwise the nested loops compute the scan |
| App.ScanDiseasesKeys | backend/app.py:40-47 | an organ's scan adds exactly its complete disease folders |
| App.ScanOrgansKeys | backend/app.py:37-47 | a key is registered exactly when its organ folder holds a complete disease folder by that name |
| App.ScanDiseasesValues | backend/app.py:46-52 | each registered key holds the model, lut, meta and cnref paths of its own folder |
| App.ScanOrgansValues | backend/app.py:43-52 | every registered key holds the paths of its own folder |
| App.ClassMapSpec | backend/app.py:70-79 | the map starts from the CN/AD defaults; meta without a dict `class_name_map` leaves them; otherwise its stringified entries are added, the last one for a key winning |
| App.MapNameDefaultMap | backend/core/predict.py:113-119 | under the default class map of backend/app.py:70, `map_name` sends "0" to CN and "1" to AD whatever the bundle classes are, leaves a label that is not a key unchanged, and renaming a renamed label changes nothing |
| App.MapNameKeepsDefaultZero | backend/app.py:70-79 | when `meta.json` does not override "0", the model's class map still sends the raw label "0" to CN through `map_name` (backend/core/predict.py:113-119) |
| App.GroupByOrgan | backend/app.py:96-98 | the organs are exactly those loaded, each with exactly its loaded diseases |
| App.SortStrings | backend/app.py:100 | `sorted()` lists the set's elements in strictly increasing order |
| App.ListOrgans | backend/app.py:100 | each organ entry carries its diseases in increasing order |
| App.RegistryListing | backend/app.py:92-101 | no models give `[]`; organs come in strictly increasing order, exactly those loaded, each with exactly its loaded diseases in increasing order |
| App.InferKey | backend/app.py:110-112 | an unknown (organ, disease) raises HTTP 404 with its detail, before anything else |

## Left out

- I/O is not modelled. Reading files, `joblib.load`, nibabel, JSON, `csv.Sniffer`/`csv.reader` and `pandas.read_csv` are replaced by their results, given as parameters.
- backend/core/heart_features.py, backend/core/io_utils.py and backend/utils_io.py are not part of this model: floating-point image numerics and file handling.
- The geometric masks of `aha16_bins` (linspace, arctan2) are not part of this model; a bin is known by its ring and sector.
- Floats are reals. NaN, infinities and rounding are not modelled. The `1e-9` added to the ICV is an exact real.
- Pandas' NaN for blank cells is not modelled; cells are taken as the strings given.
- `int()` accepts surrounding whitespace, one sign and ASCII digits; underscores and non-ASCII digits are not accepted.
- `str.lower()` is ASCII-only; `str.strip()`/`split()` use the Python whitespace set.
- The order of `np.argsort` in the heart XAI loop is a parameter required to be descending; its tie order is not stated.
- HeartPredict.PredictHeartCardio: the scaler and the classifier are known only by the classifier's output. `int()` applied to a float prediction is not modelled; the predicted index is an integer.
- The orchestration of `predict()` (backend/core/predict.py:71-157) is not part of this model: reading the bundle, calling the estimator, the `predict_proba` branch, choosing the XAI branch, and building the result dict. Only the pieces it calls, listed in the table, are modelled.
- Python dicts are Dafny maps here, so key order is not modelled in the probability maps, the class map or the registry.
- App.GroupByOrgan: the diseases of an organ are a set, not a list; the (organ, disease) keys are distinct, so no duplicates are lost.
- App.ScanModels: a root that exists but is a file, where `iterdir` raises, is not modelled. Paths are joined with "/" and are not normalised.
- The preloading loop of backend/app.py:64-86 is not part of this model: it loads each LUT and bundle, attaches `_class_name_map` and prints.
- FastAPI plumbing (CORS, uploads, temp files, the 500 wrapping) and `print` logging are not part of this model.
- `load_joblib_then_unwrap` only loads a file and then unwraps it, so only the unwrapping is modelled.
- `str()` and `repr()` of loaded objects are modelled for strings, integers, lists, tuples and dicts; other objects are known by their `str()` text. `repr` of a string chooses its quote and escapes backslashes, the quote and ASCII control characters as Python does. Non-ASCII characters Python counts as unprintable are not escaped.
- Aha.Aha16NamesMap: that the dict returned is a fresh copy (no aliasing with the table) cannot be stated over values.
- Mapping.ReadLutCsv: when `label_name` names two columns, pandas gives the text of a Series as the name. The model reads the first such column instead. Mapping.ReadLutToGlbCsv does the same for a duplicated `glb_node`. Rendering a Series as text is pandas formatting, outside this model.
- Mapping.ReadLutCsv and Mapping.ReadLutToGlbCsv parse each id cell's text with `int()`. pandas' numeric type inference is not modelled, so a cell "3.0", which pandas reads as the float 3.0 and `int()` turns into 3, raises ValueError here.
- Lut.LoadLut and Models.LoadModelBundle: the missing-file message holds the path as given. The source prints it as a `Path`, which drops repeated and trailing slashes.
