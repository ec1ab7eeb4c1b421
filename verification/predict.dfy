/** The pure and ranking parts of `predict` (backend/core/predict.py): reading
    a label id out of a `vol_<id>` column name, aligning an importance vector
    with the model's columns, the two top-k region rankings (by |importance|
    and by volume normalised by the intracranial volume), the feature row the
    estimator sees, the 1/0 probabilities fabricated for an estimator without
    `predict_proba`, and the friendly class names. Importances, volumes and
    probabilities are reals. */
module Predict {
  import opened Wrappers
  import opened Text
  import opened Collections

  /** One ranked region: `{"label_id": ..., "label_name": ..., "score": ...}`. */
  datatype Region = Region(labelId: Option<int>, labelName: string, score: real)

  /** The epsilon added to the intracranial volume before dividing. */
  const Eps: real := 0.000000001

  function Min(a: nat, b: nat): nat
  {
    if a <= b then a else b
  }

  function Abs(x: real): real
  {
    if x < 0.0 then -x else x
  }

  // ---------------------------------------------------------------------------
  // Column names
  // ---------------------------------------------------------------------------

  /** `f"vol_{lid}"`. */
  function VolName(lid: int): string
  {
    "vol_" + IntToString(lid)
  }

  /** `_feature_name_to_label_id`: for a name starting with `vol_`, the integer
      after the first underscore (`name.split("_", 1)[1]` is everything after
      `vol_`), when `int()` accepts it; otherwise nothing. */
  function FeatureNameToLabelId(name: string): (r: Option<int>)
    ensures !StartsWith(name, "vol_") ==> r.None?
    ensures StartsWith(name, "vol_") ==> r == ParseInt(name[4..])
  {
    if StartsWith(name, "vol_") then ParseInt(name[4..]) else None
  }

  /** The column `predict` builds for a label id reads back as that id. */
  lemma FeatureNameOfVolName(lid: int)
    ensures FeatureNameToLabelId(VolName(lid)) == Some(lid)
  {
    assert VolName(lid)[4..] == IntToString(lid);
    ParseIntToString(lid);
  }

  /** Different label ids give different columns. */
  lemma VolNameInjective(a: int, b: int)
    ensures VolName(a) == VolName(b) ==> a == b
  {
    if VolName(a) == VolName(b) {
      FeatureNameOfVolName(a);
      FeatureNameOfVolName(b);
    }
  }

  /** `_align_importances` on an already flattened vector: kept exactly when
      it has one entry per column. */
  function AlignImportances(importances: seq<real>, xCols: seq<string>): (r: Option<seq<real>>)
    ensures r.Some? <==> |importances| == |xCols|
    ensures r.Some? ==> r.value == importances
  {
    if |importances| == |xCols| then Some(importances) else None
  }

  // ---------------------------------------------------------------------------
  // _top_regions_from_importance
  // ---------------------------------------------------------------------------

  /** The region reported for column `p`: its signed importance, its parsed id,
      and as name the lut entry of that id when there is one, else the column. */
  function ImportanceRegion(importances: seq<real>, xCols: seq<string>, lut: map<int, string>, p: nat): Region
    requires p < |importances| && p < |xCols|
  {
    var lid := FeatureNameToLabelId(xCols[p]);
    Region(lid, if lid.Some? && lid.value in lut then lut[lid.value] else xCols[p], importances[p])
  }

  /** The sort key of the first `n` zipped pairs: the absolute importance. */
  function AbsScores(importances: seq<real>, n: nat): (r: seq<real>)
    requires n <= |importances|
    ensures |r| == n && forall i :: 0 <= i < n ==> r[i] == Abs(importances[i])
  {
    seq(n, i requires 0 <= i < n => Abs(importances[i]))
  }

  /** The column positions in the order `pairs.sort(key=abs, reverse=True)`
      leaves them. */
  function ImportanceOrder(importances: seq<real>, xCols: seq<string>): (r: seq<nat>)
    ensures |r| == Min(|importances|, |xCols|)
    ensures forall i :: 0 <= i < |r| ==> r[i] < |importances| && r[i] < |xCols|
  {
    var n := Min(|importances|, |xCols|);
    var r := StableOrder(AbsScores(importances, n));
    assert Below(r, n);
    r
  }

  /** `pairs = list(zip(x_cols, importances, ids))`, the ids parsed from the
      column names. */
  method ZipColumns(importances: seq<real>, xCols: seq<string>) returns (pairs: seq<(string, real, Option<int>)>)
    ensures |pairs| == Min(|importances|, |xCols|)
    ensures forall j :: 0 <= j < |pairs| ==> pairs[j] == (xCols[j], importances[j], FeatureNameToLabelId(xCols[j]))
  {
    var n := Min(|importances|, |xCols|);
    pairs := [];
    for i := 0 to n
      invariant |pairs| == i
      invariant forall j :: 0 <= j < i ==> pairs[j] == (xCols[j], importances[j], FeatureNameToLabelId(xCols[j]))
    {
      pairs := pairs + [(xCols[i], importances[i], FeatureNameToLabelId(xCols[i]))];
    }
  }

  /** The reporting loop: a region for each of the first `m` ranked pairs,
      named by the lut when the parsed id is in it. */
  method ReportPairs(importances: seq<real>, xCols: seq<string>, lut: map<int, string>,
                     pairs: seq<(string, real, Option<int>)>, order: seq<nat>, m: nat)
    returns (out: seq<Region>)
    requires |pairs| == Min(|importances|, |xCols|)
    requires forall j :: 0 <= j < |pairs| ==> pairs[j] == (xCols[j], importances[j], FeatureNameToLabelId(xCols[j]))
    requires m <= |order| && Below(order, |pairs|)
    ensures |out| == m
    ensures forall j :: 0 <= j < m ==> out[j] == ImportanceRegion(importances, xCols, lut, order[j])
  {
    out := [];
    for i := 0 to m
      invariant |out| == i
      invariant forall j :: 0 <= j < i ==> out[j] == ImportanceRegion(importances, xCols, lut, order[j])
    {
      var p := pairs[order[i]];
      var name := if p.2.Some? && p.2.value in lut then lut[p.2.value] else p.0;
      out := out + [Region(p.2, name, p.1)];
    }
  }

  /** One region per zipped column, for the `k` columns of largest absolute
      importance, largest first and ties in column order. */
  method TopRegionsFromImportance(importances: seq<real>, xCols: seq<string>, lut: map<int, string>, k: nat)
    returns (out: seq<Region>)
    ensures |out| == Min(k, Min(|importances|, |xCols|))
    ensures forall i :: 0 <= i < |out| ==>
              out[i] == ImportanceRegion(importances, xCols, lut, ImportanceOrder(importances, xCols)[i])
    ensures forall i, j :: 0 <= i < j < |out| ==> Abs(out[i].score) >= Abs(out[j].score)
  {
    var pairs := ZipColumns(importances, xCols);
    var order := ImportanceOrder(importances, xCols);
    out := ReportPairs(importances, xCols, lut, pairs, order, Min(k, |pairs|));
    ImportanceOrderIsTopK(importances, xCols, k);
    forall a, b | 0 <= a < b < |out| ensures Abs(out[a].score) >= Abs(out[b].score) {
      assert out[a].score == importances[order[a]] && out[b].score == importances[order[b]];
    }
  }

  /** The regions returned are the top of the ranking: every column left out
      has an absolute importance no larger than any column reported, no column
      is reported twice, and equal absolute importances keep column order. */
  lemma ImportanceOrderIsTopK(importances: seq<real>, xCols: seq<string>, k: nat)
    ensures var order := ImportanceOrder(importances, xCols);
            var m := Min(k, |order|);
            && (forall i, j :: 0 <= i < m <= j < |order| ==>
                  Abs(importances[order[i]]) >= Abs(importances[order[j]]))
            && (forall i, j :: 0 <= i < j < |order| ==>
                  Abs(importances[order[i]]) >= Abs(importances[order[j]]))
            && (forall i, j :: 0 <= i < j < |order| ==> order[i] != order[j])
            && (forall i, j :: 0 <= i < j < |order| && Abs(importances[order[i]]) == Abs(importances[order[j]]) ==>
                  order[i] < order[j])
  {
    var n := Min(|importances|, |xCols|);
    var keys := AbsScores(importances, n);
    var order := ImportanceOrder(importances, xCols);
    StableOrderSpec(keys);
    forall i, j | 0 <= i < j < |order|
      ensures order[i] != order[j] && Abs(importances[order[i]]) >= Abs(importances[order[j]])
    {
      assert RankedBefore(keys, order[i], order[j]);
    }
    forall i, j | 0 <= i < Min(k, |order|) <= j < |order|
      ensures Abs(importances[order[i]]) >= Abs(importances[order[j]])
    {
      assert RankedBefore(keys, order[i], order[j]);
    }
    forall i, j | 0 <= i < j < |order| && Abs(importances[order[i]]) == Abs(importances[order[j]])
      ensures order[i] < order[j]
    {
      assert RankedBefore(keys, order[i], order[j]);
    }
  }

  // ---------------------------------------------------------------------------
  // _fallback_top_regions_by_volume
  // ---------------------------------------------------------------------------

  /** The intracranial volume: a sum of voxel volumes, never negative. */
  type NonNegReal = r: real | r >= 0.0

  /** The item the fallback records for one `col_to_val` entry: the parsed id
      and the volume divided by `icv + 1e-9`; nothing for other columns. */
  function VolItem(icv: NonNegReal, e: (string, real)): Option<(int, real)>
  {
    match FeatureNameToLabelId(e.0)
    case None => None
    case Some(lid) => Some((lid, e.1 / (icv + Eps)))
  }

  function VolItemOf(icv: NonNegReal): ((string, real)) -> Option<(int, real)>
  {
    e => VolItem(icv, e)
  }

  /** `items` after the collecting loop. */
  function VolItems(colToVal: seq<(string, real)>, icv: NonNegReal): seq<(int, real)>
  {
    Kept(colToVal, VolItemOf(icv))
  }

  function ItemScores(items: seq<(int, real)>): (r: seq<real>)
    ensures |r| == |items| && forall i :: 0 <= i < |items| ==> r[i] == items[i].1
  {
    seq(|items|, i requires 0 <= i < |items| => items[i].1)
  }

  /** The region reported for an item: its lut name, or `vol_<id>` when the
      lut lacks the id. */
  function VolRegion(lut: map<int, string>, it: (int, real)): Region
  {
    Region(Some(it.0), MapGet(lut, it.0, VolName(it.0)), it.1)
  }

  /** The regions the fallback reports: the first `k` items in stable
      descending order of score. */
  function FallbackRegions(lut: map<int, string>, colToVal: seq<(string, real)>, icv: NonNegReal, k: nat): (r: seq<Region>)
    ensures |r| == Min(k, |VolItems(colToVal, icv)|)
  {
    var items := VolItems(colToVal, icv);
    var order := StableOrder(ItemScores(items));
    var m := Min(k, |items|);
    seq(m, i requires 0 <= i < m => VolRegion(lut, items[order[i]]))
  }

  /** The fallback's regions come by non-increasing score, and no item left
      out scores above an item reported. */
  lemma FallbackRegionsRanked(lut: map<int, string>, colToVal: seq<(string, real)>, icv: NonNegReal, k: nat)
    ensures var r := FallbackRegions(lut, colToVal, icv, k);
            forall i, j :: 0 <= i < j < |r| ==> r[i].score >= r[j].score
    ensures var items := VolItems(colToVal, icv);
            var order := StableOrder(ItemScores(items));
            var r := FallbackRegions(lut, colToVal, icv, k);
            forall i, j :: 0 <= i < |r| <= j < |items| ==> r[i].score >= items[order[j]].1
  {
    var items := VolItems(colToVal, icv);
    var keys := ItemScores(items);
    var order := StableOrder(keys);
    StableOrderSpec(keys);
    forall i, j | 0 <= i < j < |order| ensures items[order[i]].1 >= items[order[j]].1 {
      assert RankedBefore(keys, order[i], order[j]);
    }
  }

  /** Every region the fallback reports is a parseable `vol_<id>` column of
      `col_to_val`: its id is that column's, its score that column's volume
      over `icv + 1e-9`, and its name the lut's name for the id or `vol_<id>`. */
  lemma FallbackRegionsFromColumns(lut: map<int, string>, colToVal: seq<(string, real)>, icv: NonNegReal, k: nat)
    ensures var r := FallbackRegions(lut, colToVal, icv, k);
            forall i :: 0 <= i < |r| ==>
              && r[i].labelId.Some?
              && r[i].labelName == MapGet(lut, r[i].labelId.value, VolName(r[i].labelId.value))
              && exists j :: 0 <= j < |colToVal| && VolItem(icv, colToVal[j]) == Some((r[i].labelId.value, r[i].score))
  {
    var items := VolItems(colToVal, icv);
    var order := StableOrder(ItemScores(items));
    var r := FallbackRegions(lut, colToVal, icv, k);
    KeptFrom(colToVal, VolItemOf(icv));
    forall i | 0 <= i < |r|
      ensures exists j :: 0 <= j < |colToVal| && VolItem(icv, colToVal[j]) == Some((r[i].labelId.value, r[i].score))
    {
      assert items[order[i]] == (r[i].labelId.value, r[i].score);
    }
  }

  /** Every parseable `vol_<id>` column gives an item the fallback ranks. */
  lemma FallbackItemsComplete(colToVal: seq<(string, real)>, icv: NonNegReal, j: nat)
    requires j < |colToVal| && FeatureNameToLabelId(colToVal[j].0).Some?
    ensures exists t :: 0 <= t < |VolItems(colToVal, icv)| &&
              VolItems(colToVal, icv)[t] == (FeatureNameToLabelId(colToVal[j].0).value, colToVal[j].1 / (icv + Eps))
  {
    var it := (FeatureNameToLabelId(colToVal[j].0).value, colToVal[j].1 / (icv + Eps));
    KeptAll(colToVal, VolItemOf(icv));
    assert VolItemOf(icv)(colToVal[j]) == Some(it);
    var t :| 0 <= t < |VolItems(colToVal, icv)| && VolItems(colToVal, icv)[t] == it;
  }

  /** The collecting loop of `_fallback_top_regions_by_volume`: an item
      `(lid, value / (icv + EPS))` for each column whose name parses, in
      column order. */
  method CollectVolItems(colToVal: seq<(string, real)>, icv: NonNegReal) returns (items: seq<(int, real)>)
    ensures items == VolItems(colToVal, icv)
  {
    items := [];
    var i := 0;
    while i < |colToVal|
      invariant 0 <= i <= |colToVal|
      invariant items == VolItems(colToVal[..i], icv)
    {
      var e := colToVal[i];
      assert colToVal[..i + 1] == colToVal[..i] + [e];
      KeptSnoc(colToVal[..i], e, VolItemOf(icv));
      var lid := FeatureNameToLabelId(e.0);
      if lid.Some? {
        var score := e.1 / (icv + Eps);
        items := items + [(lid.value, score)];
      }
      i := i + 1;
    }
    assert colToVal[..i] == colToVal;
  }

  /** The reporting loop of `_fallback_top_regions_by_volume`: a region for
      each of the first `m` positions of `order`. */
  method TakeRegions(lut: map<int, string>, items: seq<(int, real)>, order: seq<nat>, m: nat)
    returns (top: seq<Region>)
    requires m <= |order| && Below(order, |items|)
    ensures |top| == m
    ensures forall j :: 0 <= j < m ==> top[j] == VolRegion(lut, items[order[j]])
  {
    top := [];
    for i := 0 to m
      invariant |top| == i
      invariant forall j :: 0 <= j < i ==> top[j] == VolRegion(lut, items[order[j]])
    {
      top := top + [VolRegion(lut, items[order[i]])];
    }
  }

  /** `_fallback_top_regions_by_volume`: items for the parseable columns,
      sorted by score, the first `k` reported. */
  method FallbackTopRegionsByVolume(lut: map<int, string>, colToVal: seq<(string, real)>, icv: NonNegReal, k: nat)
    returns (top: seq<Region>)
    ensures top == FallbackRegions(lut, colToVal, icv, k)
  {
    var items := CollectVolItems(colToVal, icv);
    var order := StableOrder(ItemScores(items));
    top := TakeRegions(lut, items, order, Min(k, |items|));
  }

  // ---------------------------------------------------------------------------
  // The feature row
  // ---------------------------------------------------------------------------

  /** `col_to_val`: `vol_<id>` for each sorted lut id, zipped with the volumes. */
  function ColToVal(labelIds: seq<int>, feats: seq<real>): (r: seq<(string, real)>)
    ensures |r| == Min(|labelIds|, |feats|)
    ensures forall i :: 0 <= i < |r| ==> r[i] == (VolName(labelIds[i]), feats[i])
  {
    var n := Min(|labelIds|, |feats|);
    seq(n, i requires 0 <= i < n => (VolName(labelIds[i]), feats[i]))
  }

  /** `x_row`: for each model column, its value in `col_to_val`, or 0.0. */
  function XRow(colToVal: seq<(string, real)>, xCols: seq<string>): (r: seq<real>)
    ensures |r| == |xCols|
  {
    var m := BuildMap(colToVal);
    seq(|xCols|, i requires 0 <= i < |xCols| => MapGet(m, xCols[i], 0.0))
  }

  /** With distinct label ids, a model column `vol_<id>` gets the volume of that
      id, and a column naming no id of the lut gets 0.0. */
  lemma XRowValues(labelIds: seq<int>, feats: seq<real>, xCols: seq<string>, i: nat)
    requires i < |xCols|
    requires forall a, b :: 0 <= a < b < |labelIds| ==> labelIds[a] != labelIds[b]
    ensures forall j :: 0 <= j < Min(|labelIds|, |feats|) && xCols[i] == VolName(labelIds[j]) ==>
              XRow(ColToVal(labelIds, feats), xCols)[i] == feats[j]
    ensures (forall j :: 0 <= j < Min(|labelIds|, |feats|) ==> xCols[i] != VolName(labelIds[j])) ==>
              XRow(ColToVal(labelIds, feats), xCols)[i] == 0.0
  {
    var cv := ColToVal(labelIds, feats);
    BuildMapKeys(cv);
    forall j | 0 <= j < |cv| && xCols[i] == VolName(labelIds[j])
      ensures XRow(cv, xCols)[i] == feats[j]
    {
      forall l | j < l < |cv| ensures cv[l].0 != cv[j].0 {
        VolNameInjective(labelIds[l], labelIds[j]);
      }
      BuildMapLastWins(cv, j);
    }
  }

  // ---------------------------------------------------------------------------
  // Probabilities and class names
  // ---------------------------------------------------------------------------

  /** What the comprehension `{c: 1.0 if c == raw else 0.0 for c in classes}`
      assigns, in order. */
  function FabricatedPairs(classes: seq<string>, raw: string): (r: seq<(string, real)>)
    ensures |r| == |classes|
    ensures forall i :: 0 <= i < |r| ==> r[i].0 == classes[i] && r[i].1 == if classes[i] == raw then 1.0 else 0.0
  {
    seq(|classes|, i requires 0 <= i < |classes| => (classes[i], if classes[i] == raw then 1.0 else 0.0))
  }

  /** The items of the fabricated `proba`: one per distinct class, 1.0 for the
      raw prediction and 0.0 for every other class. */
  function FabricatedProba(classes: seq<string>, raw: string): (r: seq<(string, real)>)
    ensures forall c :: c in classes <==> exists i :: 0 <= i < |r| && r[i].0 == c
    ensures forall i :: 0 <= i < |r| ==> r[i].1 == if r[i].0 == raw then 1.0 else 0.0
    ensures forall i, j :: 0 <= i < j < |r| ==> r[i].0 != r[j].0
  {
    var ps := FabricatedPairs(classes, raw);
    BuildMapKeys(ps);
    BuildMapValueOf(ps, c => if c == raw then 1.0 else 0.0);
    assert forall c :: c in classes ==> c in BuildMap(ps);
    Items(ps)
  }

  /** `map_name`: an entry of the explicit class-name map wins; else "0" and
      "1" become "CN" and "AD" when the bundle's classes include either; else
      the label is kept. A missing map behaves as an empty one. */
  function MapName(s: string, classNameMap: Option<map<string, string>>, classesBundle: seq<string>): (r: string)
    ensures classNameMap.Some? && s in classNameMap.value ==> r == classNameMap.value[s]
    ensures !(classNameMap.Some? && s in classNameMap.value) ==>
              r == if (s == "0" || s == "1") && ("CN" in classesBundle || "AD" in classesBundle)
                   then (if s == "0" then "CN" else "AD") else s
  {
    if classNameMap.Some? && s in classNameMap.value then classNameMap.value[s]
    else if (s == "0" || s == "1") && ("CN" in classesBundle || "AD" in classesBundle) then
      (if s == "0" then "CN" else "AD")
    else s
  }

  function MapNameOf(classNameMap: Option<map<string, string>>, classesBundle: seq<string>): string -> string
  {
    s => MapName(s, classNameMap, classesBundle)
  }

  /** `{map_name(k): v for k, v in proba.items()}`. */
  function RenameProba(items: seq<(string, real)>, classNameMap: Option<map<string, string>>, classesBundle: seq<string>)
    : map<string, real>
  {
    RenameKeys(items, MapNameOf(classNameMap, classesBundle))
  }

  /** The renamed probabilities have exactly the friendly names of the classes
      as keys; when no other class shares its friendly name, a class's 1.0 or
      0.0 is found under its friendly name. */
  lemma FabricatedProbaRenamed(classes: seq<string>, raw: string, classNameMap: Option<map<string, string>>, c: string)
    ensures var g := MapNameOf(classNameMap, classes);
            var p := RenameProba(FabricatedProba(classes, raw), classNameMap, classes);
            g(c) in p <==> exists d :: d in classes && g(d) == g(c)
    ensures var g := MapNameOf(classNameMap, classes);
            var p := RenameProba(FabricatedProba(classes, raw), classNameMap, classes);
            c in classes && (forall d :: d in classes && d != c ==> g(d) != g(c)) ==>
              g(c) in p && p[g(c)] == if c == raw then 1.0 else 0.0
  {
    var items := FabricatedProba(classes, raw);
    var g := MapNameOf(classNameMap, classes);
    RenameKeysOfDistinct(items, g, c);
  }
}
