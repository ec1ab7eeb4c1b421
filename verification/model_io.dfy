/** `unwrap_estimator` (backend/core/model_io.py): find the scikit-learn
    estimator inside a loaded joblib object, which may be the estimator
    itself, a tuple `(estimator, meta)` or a dictionary holding it under one
    of a few customary keys. Loading the file is not part of this model. */
module ModelIO {
  import opened Wrappers
  import opened Collections
  import opened Objects

  /** The dictionary keys tried, in this order. */
  const CandidateKeys: seq<string> := ["model", "estimator", "clf", "pipeline", "sk_model", "sk_estimator"]

  const UnwrapMessage := "Could not unwrap a scikit-learn estimator from the loaded object. Expected an object with .predict, or a dict/tuple containing one."

  /** `k in obj and _has_predict(obj[k])` for a dictionary's entries. */
  function HoldsEstimatorAt(entries: seq<(Obj, Obj)>): string -> bool
  {
    k => var v := DictGet(entries, Str(k)); v.Some? && HasPredict(v.value)
  }

  /** A non-empty tuple whose first element has `.predict`. */
  predicate IsEstimatorTuple(o: Obj)
  {
    o.Tuple? && |o.items| > 0 && HasPredict(o.items[0])
  }

  /** A dictionary with an estimator under one of the candidate keys. */
  predicate IsEstimatorDict(o: Obj)
  {
    o.Dict? && FirstIndex(CandidateKeys, HoldsEstimatorAt(o.entries)).Some?
  }

  /** The estimator found in `o` and the meta dictionary that came with it.
      Whatever is returned as the estimator has `.predict`, and the meta part
      is missing or a dictionary. */
  function UnwrapEstimator(o: Obj): (r: Result<(Obj, Option<Obj>)>)
    ensures r.Ok? ==> HasPredict(r.value.0)
    ensures r.Ok? ==> r.value.1.None? || r.value.1.value.Dict?
    ensures r.Err? ==> r.error == TypeError(UnwrapMessage)
  {
    if HasPredict(o) then Ok((o, None))
    else if IsEstimatorTuple(o) then
      var meta := if |o.items| > 1 && o.items[1].Dict? then Some(o.items[1]) else None;
      Ok((o.items[0], meta))
    else if IsEstimatorDict(o) then
      var k := CandidateKeys[FirstIndex(CandidateKeys, HoldsEstimatorAt(o.entries)).value];
      var v := DictGet(o.entries, Str(k));
      Ok((v.value, Some(o)))
    else Err(TypeError(UnwrapMessage))
  }

  /** Unwrapping fails exactly when the object is none of: an estimator, a
      tuple led by one, or a dictionary holding one under a candidate key. */
  lemma UnwrapFails(o: Obj)
    ensures UnwrapEstimator(o).Err? <==> !HasPredict(o) && !IsEstimatorTuple(o) && !IsEstimatorDict(o)
    ensures !HasPredict(o) && !IsEstimatorTuple(o) && !IsEstimatorDict(o) ==>
            forall k :: k in CandidateKeys && o.Dict? ==> !HoldsEstimatorAt(o.entries)(k)
  {
  }

  /** An estimator is taken as it is, before any tuple or dictionary rule. */
  lemma UnwrapBare(o: Obj)
    requires HasPredict(o)
    ensures UnwrapEstimator(o) == Ok((o, None))
  {
  }

  /** A tuple led by an estimator yields that estimator, with the second
      element as meta when it is a dictionary. */
  lemma UnwrapTuple(items: seq<Obj>)
    requires |items| > 0 && HasPredict(items[0])
    ensures var r := UnwrapEstimator(Tuple(items));
            && r.Ok? && r.value.0 == items[0]
            && (r.value.1.Some? <==> |items| > 1 && items[1].Dict?)
            && (r.value.1.Some? ==> r.value.1.value == items[1])
  {
  }

  /** A dictionary that is not itself an estimator unwraps exactly when one
      of the candidate keys holds an estimator. */
  lemma UnwrapDictSucceeds(entries: seq<(Obj, Obj)>)
    ensures UnwrapEstimator(Dict(entries)).Ok? <==>
            exists i :: 0 <= i < |CandidateKeys| && HoldsEstimatorAt(entries)(CandidateKeys[i])
  {
  }

  /** For a dictionary, the first candidate key (in the fixed order) whose
      value has `.predict` wins, and the meta part is the whole dictionary. */
  lemma UnwrapDict(entries: seq<(Obj, Obj)>)
    ensures var r := UnwrapEstimator(Dict(entries));
            r.Ok? ==> exists i :: && 0 <= i < |CandidateKeys|
                                  && (forall j :: 0 <= j < i ==> !HoldsEstimatorAt(entries)(CandidateKeys[j]))
                                  && DictGet(entries, Str(CandidateKeys[i])) == Some(r.value.0)
                                  && r.value.1 == Some(Dict(entries))
  {
    var f := FirstIndex(CandidateKeys, HoldsEstimatorAt(entries));
    if f.Some? {
      var k := CandidateKeys[f.value];
      assert HoldsEstimatorAt(entries)(k);
    }
  }

  /** Unwrapping what was unwrapped gives it back with no meta. */
  lemma UnwrapIdempotent(o: Obj)
    ensures var r := UnwrapEstimator(o);
            r.Ok? ==> UnwrapEstimator(r.value.0) == Ok((r.value.0, None))
  {
  }
}
