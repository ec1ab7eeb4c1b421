/** The result shaping of `predict_heart_cardio` (backend/core/heart_predict.py):
    aligning the extracted features to the model's columns, turning the
    classifier output into a prediction and a probability per class, reading
    AHA segment ids out of the highest-gain `SEG<n>_...` feature names, and
    renaming the per-segment scores. The scaler and the classifier are known
    only through their output, and the booster's gain table and the argsort
    order of the importances are inputs. */
module HeartPredict {
  import opened Wrappers
  import opened Text
  import opened Collections

  // ---------------------------------------------------------------------------
  // Feature alignment
  // ---------------------------------------------------------------------------

  /** `_align_features`: a zero-filled row with one entry per column, each
      the feature of that name, or 0.0 when the features lack it. */
  method AlignFeatures(feat: map<string, real>, xCols: seq<string>) returns (x: seq<real>)
    ensures |x| == |xCols|
    ensures forall i :: 0 <= i < |xCols| && xCols[i] in feat ==> x[i] == feat[xCols[i]]
    ensures forall i :: 0 <= i < |xCols| && xCols[i] !in feat ==> x[i] == 0.0
  {
    var a := new real[|xCols|](_ => 0.0);
    for i := 0 to |xCols|
      invariant forall j :: 0 <= j < i ==> a[j] == MapGet(feat, xCols[j], 0.0)
      invariant forall j :: i <= j < |xCols| ==> a[j] == 0.0
    {
      a[i] := MapGet(feat, xCols[i], 0.0);
    }
    x := a[..];
  }

  // ---------------------------------------------------------------------------
  // Gain importances and the top regions
  // ---------------------------------------------------------------------------

  /** The booster's name for column `i`. */
  function BoosterName(i: nat): string
  {
    "f" + IntToString(i)
  }

  /** `[float(gain.get(f"f{i}", 0.0)) for i in range(n)]`. */
  function Importances(gain: map<string, real>, n: nat): (r: seq<real>)
    ensures |r| == n
  {
    seq(n, i requires 0 <= i < n => MapGet(gain, BoosterName(i), 0.0))
  }

  /** Column `i` gets the gain the booster reports for `f<i>`, and 0.0 when it
      reports none; no other entry of the table is read for it. */
  lemma ImportanceOf(gain: map<string, real>, n: nat, i: nat)
    requires i < n
    ensures BoosterName(i) in gain ==> Importances(gain, n)[i] == gain[BoosterName(i)]
    ensures BoosterName(i) !in gain ==> Importances(gain, n)[i] == 0.0
    ensures forall j :: 0 <= j < n && j != i ==> BoosterName(j) != BoosterName(i)
  {
    forall j | 0 <= j < n && j != i ensures BoosterName(j) != BoosterName(i) {
      if BoosterName(j) == BoosterName(i) {
        assert BoosterName(j)[1..] == IntToString(j);
        assert BoosterName(i)[1..] == IntToString(i);
        IntToStringInjective(i, j);
      }
    }
  }

  /** `np.argsort(importances)[::-1]`: every column index once, by
      non-increasing importance. Which of two equal importances comes first is
      left open. */
  predicate DescendingOrder(importances: seq<real>, order: seq<nat>)
  {
    && |order| == |importances|
    && (forall i :: 0 <= i < |order| ==> order[i] < |importances|)
    && (forall i, j :: 0 <= i < j < |order| ==> order[i] != order[j])
    && (forall i, j :: 0 <= i < j < |order| ==> importances[order[i]] >= importances[order[j]])
  }

  /** A name the XAI step maps back to a segment: it starts with `SEG` and
      mentions end-diastolic or end-systolic thickness or thickening. */
  predicate IsSegFeature(nm: string)
  {
    StartsWith(nm, "SEG") && (Contains(nm, "thkED") || Contains(nm, "dThk") || Contains(nm, "thkES"))
  }

  /** `int(nm.split("_")[0][3:])`, or nothing when `int()` raises. */
  function SegmentId(nm: string): Option<int>
  {
    var head := BeforeFirst(nm, '_');
    ParseInt(if |head| >= 3 then head[3..] else "")
  }

  /** A decimal integer contains no underscore. */
  lemma NoUnderscore(i: int)
    ensures '_' !in IntToString(i)
  {
    var p := NatToString(if i < 0 then -i else i);
    AllDigitsIff(p, 0, |p|);
    if i < 0 {
      assert IntToString(i) == "-" + p;
    }
  }

  /** A name `SEG<n>_<rest>` reads back as segment `n`. */
  lemma SegmentIdOfName(sid: int, rest: string)
    ensures SegmentId("SEG" + IntToString(sid) + "_" + rest) == Some(sid)
  {
    var s := IntToString(sid);
    var nm := "SEG" + s + "_" + rest;
    NoUnderscore(sid);
    BeforeFirstAt(nm, '_', |"SEG" + s|);
    assert BeforeFirst(nm, '_') == "SEG" + s;
    assert ("SEG" + s)[3..] == s;
    ParseIntToString(sid);
  }

  /** `BeforeFirst` stops at the first separator. */
  lemma {:induction false} BeforeFirstAt(s: string, sep: char, k: nat)
    requires k < |s| && s[k] == sep && sep !in s[..k]
    ensures BeforeFirst(s, sep) == s[..k]
  {
    if k > 0 {
      assert s[0] != sep by { assert s[0] == s[..k][0]; }
      assert s[1..][..k - 1] == s[1..k];
      BeforeFirstAt(s[1..], sep, k - 1);
      assert s[..k] == [s[0]] + s[1..k];
    }
  }

  /** One entry of `top_regions`. */
  datatype SegRegion = SegRegion(labelId: int, labelName: string, score: real)

  /** `f"AHA{sid}"`. */
  function AhaName(sid: int): string
  {
    "AHA" + IntToString(sid)
  }

  /** At most this many of the highest-gain columns are looked at. */
  const TopK: nat := 16

  /** `len(order[:16])`. */
  function TopCount(n: nat): nat
  {
    if n < TopK then n else TopK
  }

  /** The regions collected from the first `k` positions of `order`, or nothing
      once `int()` has raised on one of them. */
  function Regions(xCols: seq<string>, importances: seq<real>, order: seq<nat>, k: nat, parse: string -> Option<int>): Option<seq<SegRegion>>
    requires k <= |order| && |importances| == |xCols| && Below(order, |xCols|)
  {
    if k == 0 then Some([])
    else match Regions(xCols, importances, order, k - 1, parse)
      case None => None
      case Some(rs) =>
        var i := order[k - 1];
        if !IsSegFeature(xCols[i]) then Some(rs)
        else match parse(xCols[i])
          case None => None
          case Some(sid) => Some(rs + [SegRegion(sid, AhaName(sid), importances[i])])
  }

  /** Once `int()` has raised, looking at more positions does not help. */
  lemma {:induction false} RegionsStayFailed(xCols: seq<string>, importances: seq<real>, order: seq<nat>, k: nat, k2: nat, parse: string -> Option<int>)
    requires k <= k2 <= |order| && |importances| == |xCols| && Below(order, |xCols|)
    requires Regions(xCols, importances, order, k, parse).None?
    ensures Regions(xCols, importances, order, k2, parse).None?
    decreases k2
  {
    if k < k2 {
      RegionsStayFailed(xCols, importances, order, k, k2 - 1, parse);
    }
  }

  /** The loop over `order[:16]`: a `SEG` thickness feature adds its segment,
      any other name is skipped, and an id `int()` rejects ends the loop with
      the exception. */
  method TopRegions(xCols: seq<string>, importances: seq<real>, order: seq<nat>) returns (r: Option<seq<SegRegion>>)
    requires |importances| == |xCols| && Below(order, |xCols|)
    ensures r == Regions(xCols, importances, order, TopCount(|order|), SegmentId)
  {
    var top: seq<SegRegion> := [];
    var k := TopCount(|order|);
    for j := 0 to k
      invariant Regions(xCols, importances, order, j, SegmentId) == Some(top)
    {
      var i := order[j];
      var nm := xCols[i];
      if IsSegFeature(nm) {
        var sid := SegmentId(nm);
        if sid.None? {
          RegionsStayFailed(xCols, importances, order, j + 1, k, SegmentId);
          return None;
        }
        top := top + [SegRegion(sid.value, AhaName(sid.value), importances[i])];
      }
    }
    r := Some(top);
  }

  /** Where a failed collection failed: a `SEG` thickness feature among the
      first `k` positions whose id `int()` rejects. */
  lemma {:induction false} FailedAt(xCols: seq<string>, importances: seq<real>, order: seq<nat>, k: nat, parse: string -> Option<int>)
    returns (p: nat)
    requires k <= |order| && |importances| == |xCols| && Below(order, |xCols|)
    requires Regions(xCols, importances, order, k, parse).None?
    ensures p < k && IsSegFeature(xCols[order[p]]) && parse(xCols[order[p]]).None?
  {
    if Regions(xCols, importances, order, k - 1, parse).None? {
      p := FailedAt(xCols, importances, order, k - 1, parse);
    } else {
      p := k - 1;
    }
  }

  /** The collection fails exactly when one of the first `k` positions holds a
      `SEG` thickness feature whose id `int()` rejects. */
  lemma RegionsFail(xCols: seq<string>, importances: seq<real>, order: seq<nat>, k: nat, parse: string -> Option<int>)
    requires k <= |order| && |importances| == |xCols| && Below(order, |xCols|)
    ensures Regions(xCols, importances, order, k, parse).None? <==>
            exists p :: 0 <= p < k && IsSegFeature(xCols[order[p]]) && parse(xCols[order[p]]).None?
  {
    if Regions(xCols, importances, order, k, parse).None? {
      var p := FailedAt(xCols, importances, order, k, parse);
    } else {
      forall p | 0 <= p < k && IsSegFeature(xCols[order[p]]) ensures parse(xCols[order[p]]).Some? {
        RegionsCover(xCols, importances, order, k, p, parse);
      }
    }
  }

  /** No more regions than positions looked at: at most 16. */
  lemma {:induction false} RegionsBound(xCols: seq<string>, importances: seq<real>, order: seq<nat>, k: nat, parse: string -> Option<int>)
    requires k <= |order| && |importances| == |xCols| && Below(order, |xCols|)
    ensures var r := Regions(xCols, importances, order, k, parse);
            r.Some? ==> |r.value| <= k
  {
    if k > 0 {
      RegionsBound(xCols, importances, order, k - 1, parse);
    }
  }

  /** Where region `j` came from: a position among the first `k` whose column
      is a `SEG` thickness feature with that id, named `AHA<id>`, scored with
      the column's importance. */
  lemma {:induction false} RegionSource(xCols: seq<string>, importances: seq<real>, order: seq<nat>, k: nat, j: nat, parse: string -> Option<int>)
    returns (p: nat)
    requires k <= |order| && |importances| == |xCols| && Below(order, |xCols|)
    requires Regions(xCols, importances, order, k, parse).Some? && j < |Regions(xCols, importances, order, k, parse).value|
    ensures var g := Regions(xCols, importances, order, k, parse).value[j];
            && p < k && IsSegFeature(xCols[order[p]])
            && parse(xCols[order[p]]) == Some(g.labelId)
            && g.labelName == AhaName(g.labelId)
            && g.score == importances[order[p]]
  {
    var rs := Regions(xCols, importances, order, k - 1, parse).value;
    if j < |rs| {
      p := RegionSource(xCols, importances, order, k - 1, j, parse);
    } else {
      p := k - 1;
    }
  }

  /** Every region is a `SEG` thickness feature among the first `k` positions,
      with the id read from its name. */
  lemma RegionsFromSegFeatures(xCols: seq<string>, importances: seq<real>, order: seq<nat>, k: nat, j: nat, parse: string -> Option<int>)
    requires k <= |order| && |importances| == |xCols| && Below(order, |xCols|)
    requires Regions(xCols, importances, order, k, parse).Some? && j < |Regions(xCols, importances, order, k, parse).value|
    ensures var g := Regions(xCols, importances, order, k, parse).value[j];
            exists p :: && 0 <= p < k && IsSegFeature(xCols[order[p]])
                        && parse(xCols[order[p]]) == Some(g.labelId)
                        && g.labelName == AhaName(g.labelId)
                        && g.score == importances[order[p]]
  {
    var p := RegionSource(xCols, importances, order, k, j, parse);
  }

  /** Every `SEG` thickness feature among the first `k` positions is kept, as
      a region with its id, its `AHA` name and its importance. */
  lemma {:induction false} RegionsCover(xCols: seq<string>, importances: seq<real>, order: seq<nat>, k: nat, p: nat, parse: string -> Option<int>)
    requires k <= |order| && |importances| == |xCols| && Below(order, |xCols|)
    requires Regions(xCols, importances, order, k, parse).Some?
    requires p < k && IsSegFeature(xCols[order[p]])
    ensures parse(xCols[order[p]]).Some?
    ensures var sid := parse(xCols[order[p]]).value;
            SegRegion(sid, AhaName(sid), importances[order[p]]) in Regions(xCols, importances, order, k, parse).value
  {
    if p < k - 1 {
      RegionsCover(xCols, importances, order, k - 1, p, parse);
    }
  }

  /** The regions come out by non-increasing score, as the columns they come
      from are visited by non-increasing importance. */
  lemma {:induction false} RegionsDescending(xCols: seq<string>, importances: seq<real>, order: seq<nat>, k: nat, parse: string -> Option<int>)
    requires DescendingOrder(importances, order) && |importances| == |xCols| && k <= |order|
    ensures Below(order, |xCols|)
    ensures var r := Regions(xCols, importances, order, k, parse);
            r.Some? ==> forall a, b :: 0 <= a < b < |r.value| ==> r.value[a].score >= r.value[b].score
  {
    if k > 0 {
      RegionsDescending(xCols, importances, order, k - 1, parse);
      var r := Regions(xCols, importances, order, k, parse);
      var rs := Regions(xCols, importances, order, k - 1, parse);
      if r.Some? && |r.value| > |rs.value| {
        var last := importances[order[k - 1]];
        assert r.value[|rs.value|].score == last;
        forall a | 0 <= a < |rs.value| ensures r.value[a].score >= last {
          var p := RegionSource(xCols, importances, order, k - 1, a, parse);
          assert r.value[a] == rs.value[a];
        }
      }
    }
  }

  /** The `xai` entry of the result. */
  datatype Xai = NotRequested | GainXai(topRegions: seq<SegRegion>) | NoMethod

  /** The XAI block. `gain` is the booster's gain table, or nothing when the
      classifier has no booster (the exception then gives `{"method": "none"}`);
      `order` is the argsort of the importances. */
  method Explain(wantXai: bool, gain: Option<map<string, real>>, xCols: seq<string>, order: seq<nat>) returns (xai: Xai)
    requires gain.Some? ==> DescendingOrder(Importances(gain.value, |xCols|), order)
    ensures !wantXai ==> xai == NotRequested
    ensures wantXai && gain.None? ==> xai == NoMethod
    ensures wantXai && gain.Some? ==>
            var r := Regions(xCols, Importances(gain.value, |xCols|), order, TopCount(|order|), SegmentId);
            xai == if r.Some? then GainXai(r.value) else NoMethod
  {
    if !wantXai {
      return NotRequested;
    }
    if gain.None? {
      return NoMethod;
    }
    var importances := Importances(gain.value, |xCols|);
    var top := TopRegions(xCols, importances, order);
    if top.Some? {
      xai := GainXai(top.value);
    } else {
      xai := NoMethod;
    }
  }

  /** The regions an explanation lists: at most 16, by non-increasing score,
      each a `SEG` thickness feature among the 16 highest-gain columns. */
  lemma ExplainedRegions(gain: map<string, real>, xCols: seq<string>, order: seq<nat>)
    requires DescendingOrder(Importances(gain, |xCols|), order)
    ensures var imp := Importances(gain, |xCols|);
            var r := Regions(xCols, imp, order, TopCount(|order|), SegmentId);
            r.Some? ==> && |r.value| <= TopK
                        && forall a, b :: 0 <= a < b < |r.value| ==> r.value[a].score >= r.value[b].score
  {
    var imp := Importances(gain, |xCols|);
    RegionsBound(xCols, imp, order, TopCount(|order|), SegmentId);
    RegionsDescending(xCols, imp, order, TopCount(|order|), SegmentId);
  }

  // ---------------------------------------------------------------------------
  // Prediction and probabilities
  // ---------------------------------------------------------------------------

  /** What the classifier gives back: the first row of `predict_proba`, or,
      without that method, the first predicted class index. */
  datatype ClfOutput = Proba(p: seq<real>) | Predicted(y: int)

  /** `np.eye(n)[y]`: a negative `y` counts from the end, and one outside
      `-n .. n-1` raises IndexError. */
  function OneHot(n: nat, y: int): (r: Result<seq<real>>)
    ensures r.Err? <==> !(-(n as int) <= y < n)
  {
    if -(n as int) <= y < n then
      var at := if y < 0 then y + n else y;
      Ok(seq(n, i requires 0 <= i < n => if i == at then 1.0 else 0.0))
    else Err(IndexError)
  }

  /** `proba`, for `n` classes in the label map. */
  function ProbaOf(n: nat, out: ClfOutput): Result<seq<real>>
  {
    match out
    case Proba(p) => Ok(p)
    case Predicted(y) => OneHot(n, y)
  }

  const EmptyArgmaxMessage := "attempt to get argmax of an empty sequence"

  /** `{label_map[i]: float(proba[i]) for i in range(len(label_map))}`. */
  function ProbaMap(labelMap: seq<string>, proba: seq<real>): map<string, real>
    requires |labelMap| <= |proba|
  {
    BuildMap(seq(|labelMap|, i requires 0 <= i < |labelMap| => (labelMap[i], proba[i])))
  }

  /** `pred_label` and `proba_map`: `np.argmax` raises on an empty row, and a
      row index past the label map raises IndexError. */
  function Shape(labelMap: seq<string>, proba: seq<real>): Result<(string, map<string, real>)>
  {
    if proba == [] then Err(ValueError(EmptyArgmaxMessage))
    else if ArgMax(proba) >= |labelMap| then Err(IndexError)
    else if |proba| < |labelMap| then Err(IndexError)
    else Ok((labelMap[ArgMax(proba)], ProbaMap(labelMap, proba)))
  }

  /** The keys of the probability map are exactly the labels. */
  lemma ProbaMapKeys(labelMap: seq<string>, proba: seq<real>)
    requires |labelMap| <= |proba|
    ensures forall c :: c in ProbaMap(labelMap, proba) <==> c in labelMap
  {
    var es := seq(|labelMap|, i requires 0 <= i < |labelMap| => (labelMap[i], proba[i]));
    BuildMapKeys(es);
    forall c ensures c in ProbaMap(labelMap, proba) <==> c in labelMap {
      if c in labelMap {
        var i :| 0 <= i < |labelMap| && labelMap[i] == c;
        assert es[i].0 == c;
      }
    }
  }

  /** A label not repeated later in the label map keeps its own probability. */
  lemma ProbaMapAt(labelMap: seq<string>, proba: seq<real>, i: nat)
    requires |labelMap| <= |proba| && i < |labelMap| && labelMap[i] !in labelMap[i + 1..]
    ensures labelMap[i] in ProbaMap(labelMap, proba) && ProbaMap(labelMap, proba)[labelMap[i]] == proba[i]
  {
    var es := seq(|labelMap|, i requires 0 <= i < |labelMap| => (labelMap[i], proba[i]));
    forall j | i < j < |es| ensures es[j].0 != es[i].0 {
      assert labelMap[j] == labelMap[i + 1..][j - i - 1];
    }
    BuildMapLastWins(es, i);
  }

  /** Shaping succeeds exactly when the row is non-empty, covers every label,
      and its first maximum falls on a label. */
  lemma ShapeSucceeds(labelMap: seq<string>, proba: seq<real>)
    ensures Shape(labelMap, proba).Ok? <==> proba != [] && |labelMap| <= |proba| && ArgMax(proba) < |labelMap|
  {
  }

  /** The prediction is the label of the first largest probability. */
  lemma ShapePrediction(labelMap: seq<string>, proba: seq<real>)
    ensures var r := Shape(labelMap, proba);
            r.Ok? ==> exists m :: && 0 <= m < |labelMap| && r.value.0 == labelMap[m]
                                  && (forall i :: 0 <= i < |proba| ==> proba[i] <= proba[m])
                                  && (forall i :: 0 <= i < m ==> proba[i] < proba[m])
  {
    var r := Shape(labelMap, proba);
    if r.Ok? {
      var m := ArgMax(proba);
      assert r.value.0 == labelMap[m];
    }
  }

  /** The keys of the shaped map are exactly the labels, and a label not
      repeated later in the label map keeps its own probability. */
  lemma ShapeProbaMap(labelMap: seq<string>, proba: seq<real>)
    ensures var r := Shape(labelMap, proba);
            r.Ok? ==> forall c :: c in r.value.1 <==> c in labelMap
    ensures var r := Shape(labelMap, proba);
            r.Ok? ==> forall i :: 0 <= i < |labelMap| && labelMap[i] !in labelMap[i + 1..] ==>
                        labelMap[i] in r.value.1 && r.value.1[labelMap[i]] == proba[i]
  {
    var r := Shape(labelMap, proba);
    if r.Ok? {
      assert r.value.1 == ProbaMap(labelMap, proba);
      ProbaMapKeys(labelMap, proba);
      forall i | 0 <= i < |labelMap| && labelMap[i] !in labelMap[i + 1..]
        ensures labelMap[i] in r.value.1 && r.value.1[labelMap[i]] == proba[i]
      {
        ProbaMapAt(labelMap, proba, i);
      }
    }
  }

  /** Without `predict_proba`, the prediction is the label at the predicted
      index (counted from the end when negative), whose probability is 1.0
      when no later label repeats it. */
  lemma OneHotPrediction(labelMap: seq<string>, y: int)
    requires -|labelMap| <= y < |labelMap|
    ensures var at := if y < 0 then y + |labelMap| else y;
            var r := Shape(labelMap, OneHot(|labelMap|, y).value);
            && r.Ok? && r.value.0 == labelMap[at]
            && (labelMap[at] !in labelMap[at + 1..] ==> labelMap[at] in r.value.1 && r.value.1[labelMap[at]] == 1.0)
  {
    var n := |labelMap|;
    var at := if y < 0 then y + n else y;
    var p := OneHot(n, y).value;
    var m := ArgMax(p);
    assert p[at] == 1.0;
    assert m == at;
    if labelMap[at] !in labelMap[at + 1..] {
      ProbaMapAt(labelMap, p, at);
    }
  }

  // ---------------------------------------------------------------------------
  // Segment scores and the whole result
  // ---------------------------------------------------------------------------

  /** `{str(k): float(v) for k, v in seg_scores.items()}`. */
  function SegmentScores(scores: map<int, real>): (r: map<string, real>)
  {
    forall a, b | a in scores && b in scores && IntToString(a) == IntToString(b) ensures scores[a] == scores[b] {
      IntToStringInjective(a, b);
    }
    map k | k in scores :: IntToString(k) := scores[k]
  }

  /** Every segment id appears as its decimal text, with its score. */
  lemma SegmentScoresOf(scores: map<int, real>, k: int)
    requires k in scores
    ensures IntToString(k) in SegmentScores(scores) && SegmentScores(scores)[IntToString(k)] == scores[k]
  {
    var k2 :| k2 in scores && IntToString(k2) == IntToString(k) && SegmentScores(scores)[IntToString(k)] == scores[k2];
    IntToStringInjective(k, k2);
  }

  /** Nothing else appears: every key is the decimal text of a segment id. */
  lemma SegmentScoresKeys(scores: map<int, real>, key: string)
    requires key in SegmentScores(scores)
    ensures ParseInt(key).Some? && ParseInt(key).value in scores && key == IntToString(ParseInt(key).value)
  {
    var k2 :| k2 in scores && IntToString(k2) == key;
    ParseIntToString(k2);
  }

  /** The response of the heart endpoint. */
  datatype HeartResult = HeartResult(
    prediction: string,
    proba: map<string, real>,
    usedFeatures: seq<string>,
    segmentScores: map<string, real>,
    xai: Xai)

  /** `predict_heart_cardio` once the artifacts are loaded and the features
      extracted: the shaping errors propagate; otherwise the result carries
      the prediction, the probability map, the columns, the renamed segment
      scores and the explanation. */
  method PredictHeartCardio(labelMap: seq<string>, xCols: seq<string>, out: ClfOutput, segScores: map<int, real>,
                            wantXai: bool, gain: Option<map<string, real>>, order: seq<nat>)
    returns (r: Result<HeartResult>)
    requires gain.Some? ==> DescendingOrder(Importances(gain.value, |xCols|), order)
    ensures var p := ProbaOf(|labelMap|, out);
            p.Err? ==> r == Err(p.error)
    ensures var p := ProbaOf(|labelMap|, out);
            p.Ok? && Shape(labelMap, p.value).Err? ==> r == Err(Shape(labelMap, p.value).error)
    ensures var p := ProbaOf(|labelMap|, out);
            p.Ok? && Shape(labelMap, p.value).Ok? ==>
              && r.Ok?
              && r.value.prediction == Shape(labelMap, p.value).value.0
              && r.value.proba == Shape(labelMap, p.value).value.1
              && r.value.usedFeatures == xCols
              && r.value.segmentScores == SegmentScores(segScores)
    ensures r.Ok? && !wantXai ==> r.value.xai == NotRequested
    ensures r.Ok? && wantXai && gain.None? ==> r.value.xai == NoMethod
    ensures r.Ok? && wantXai && gain.Some? ==>
            var t := Regions(xCols, Importances(gain.value, |xCols|), order, TopCount(|order|), SegmentId);
            r.value.xai == if t.Some? then GainXai(t.value) else NoMethod
  {
    var p := ProbaOf(|labelMap|, out);
    if p.Err? {
      return Err(p.error);
    }
    var s := Shape(labelMap, p.value);
    if s.Err? {
      return Err(s.error);
    }
    var xai := Explain(wantXai, gain, xCols, order);
    r := Ok(HeartResult(s.value.0, s.value.1, xCols, SegmentScores(segScores), xai));
  }
}
