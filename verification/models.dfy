/** `load_model_bundle` (backend/core/models.py) after the joblib file is
    read: a dictionary with a `"model"` key has its `x_cols` and `classes`
    turned into lists of strings; anything else is wrapped into a default
    bundle with 138 `vol_<i>` columns and the classes CN and AD. Whether the
    path exists and the loaded object are inputs. */
module Models {
  import opened Wrappers
  import opened Text
  import opened Collections
  import opened Objects
  import opened Predict

  /** The message prefix of a missing bundle. The source formats the path as
      a `Path`, which drops repeated and trailing slashes; here the path is
      given as it was passed in. */
  const MissingPrefix := "model bundle not found: "

  /** The number of feature columns a raw estimator is taken to expect. */
  const DefaultFeatureCount: nat := 138

  /** `[f"vol_{i}" for i in range(1, 139)]`. */
  function DefaultXCols(): (cols: seq<Obj>)
    ensures |cols| == DefaultFeatureCount
  {
    seq(DefaultFeatureCount, i requires 0 <= i < DefaultFeatureCount => Str(VolName(i + 1)))
  }

  const DefaultClasses: seq<Obj> := [Str("CN"), Str("AD")]

  /** The bundle built around a raw estimator. */
  function DefaultBundle(est: Obj): Obj
  {
    Dict([(Str("model"), est), (Str("x_cols"), List(DefaultXCols())), (Str("classes"), List(DefaultClasses))])
  }

  /** `if key in obj: obj[key] = [str(x) for x in obj[key]]`. */
  function StringifyEntry(entries: seq<(Obj, Obj)>, key: string): Result<seq<(Obj, Obj)>>
  {
    match DictGet(entries, Str(key))
    case None => Ok(entries)
    case Some(v) =>
      match Iterate(v)
      case Err(e) => Err(e)
      case Ok(xs) => Ok(DictSet(entries, Str(key), List(StrList(xs))))
  }

  /** The in-place normalisation of a bundle dictionary: `x_cols`, then
      `classes`. */
  function NormalizeBundle(entries: seq<(Obj, Obj)>): Result<seq<(Obj, Obj)>>
  {
    match StringifyEntry(entries, "x_cols")
    case Err(e) => Err(e)
    case Ok(e1) => StringifyEntry(e1, "classes")
  }

  /** A dictionary the loader keeps as it is, apart from normalising it. */
  predicate IsBundleDict(o: Obj)
  {
    o.Dict? && DictGet(o.entries, Str("model")).Some?
  }

  function LoadModelBundle(pathExists: bool, path: string, obj: Obj): (r: Result<Obj>)
    ensures !pathExists ==> r == Err(FileNotFound(MissingPrefix + path))
    ensures pathExists && !IsBundleDict(obj) ==> r == Ok(DefaultBundle(obj))
  {
    if !pathExists then Err(FileNotFound(MissingPrefix + path))
    else if IsBundleDict(obj) then
      match NormalizeBundle(obj.entries)
      case Err(e) => Err(e)
      case Ok(es) => Ok(Dict(es))
    else
      Ok(DefaultBundle(obj))
  }

  /** Normalising one key leaves the key order and every other entry as it
      was, and stores the strings of the old value's elements under it. */
  lemma StringifyEntrySpec(entries: seq<(Obj, Obj)>, key: string, k: Obj)
    ensures var r := StringifyEntry(entries, key);
            var old_ := DictGet(entries, Str(key));
            && (r.Err? <==> old_.Some? && Iterate(old_.value).Err?)
            && (r.Ok? ==> Firsts(r.value) == Firsts(entries))
            && (r.Ok? && k != Str(key) ==> DictGet(r.value, k) == DictGet(entries, k))
            && (r.Ok? && old_.Some? ==> DictGet(r.value, Str(key)) == Some(List(StrList(Iterate(old_.value).value))))
  {
    var old_ := DictGet(entries, Str(key));
    if old_.Some? && Iterate(old_.value).Ok? {
      var v := List(StrList(Iterate(old_.value).value));
      DictGetSet(entries, Str(key), v, k);
      DictGetSet(entries, Str(key), v, Str(key));
    }
  }

  /** Normalisation keeps the keys in their order and every entry other than
      `x_cols` and `classes`; those two, when present, become lists of the
      `str()` of their elements. It fails only when one of them is present
      but not iterable. */
  lemma NormalizeBundleSpec(entries: seq<(Obj, Obj)>, k: Obj)
    ensures var r := NormalizeBundle(entries);
            var xc := DictGet(entries, Str("x_cols"));
            var cl := DictGet(entries, Str("classes"));
            && (r.Err? <==> (xc.Some? && Iterate(xc.value).Err?) || (cl.Some? && Iterate(cl.value).Err?))
            && (r.Ok? ==> Firsts(r.value) == Firsts(entries))
            && (r.Ok? && k != Str("x_cols") && k != Str("classes") ==> DictGet(r.value, k) == DictGet(entries, k))
            && (r.Ok? && xc.Some? ==> DictGet(r.value, Str("x_cols")) == Some(List(StrList(Iterate(xc.value).value))))
            && (r.Ok? && cl.Some? ==> DictGet(r.value, Str("classes")) == Some(List(StrList(Iterate(cl.value).value))))
  {
    StringifyEntrySpec(entries, "x_cols", k);
    StringifyEntrySpec(entries, "x_cols", Str("classes"));
    var e1 := StringifyEntry(entries, "x_cols");
    if e1.Ok? {
      StringifyEntrySpec(e1.value, "classes", k);
      StringifyEntrySpec(e1.value, "classes", Str("x_cols"));
    }
  }

  /** A dictionary with a `"model"` key is normalised and returned as the same
      dictionary: its `"model"` entry is untouched. */
  lemma LoadBundleDict(path: string, entries: seq<(Obj, Obj)>)
    requires IsBundleDict(Dict(entries))
    ensures var r := LoadModelBundle(true, path, Dict(entries));
            var n := NormalizeBundle(entries);
            && (r.Err? <==> n.Err?)
            && (r.Ok? ==> r.value == Dict(n.value))
            && (r.Ok? ==> DictGet(r.value.entries, Str("model")) == DictGet(entries, Str("model")))
  {
    assert Str("model") != Str("x_cols") by { assert "model"[0] != "x_cols"[0]; }
    assert Str("model") != Str("classes") by { assert "model"[0] != "classes"[0]; }
    NormalizeBundleSpec(entries, Str("model"));
  }

  /** A bundle whose `classes` is an iterable object other than a list (a
      numpy array such as `clf.classes_`, a pandas `Index`) loads, with
      `classes` replaced by the list of its elements' strings. */
  lemma LoadBundleIterableClasses(path: string, est: Obj, text: string, xs: seq<Obj>)
    ensures var r := LoadModelBundle(true, path, Dict([(Str("model"), est), (Str("classes"), Opaque(text, false, Some(xs)))]));
            && r.Ok?
            && Firsts(r.value.entries) == [Str("model"), Str("classes")]
            && DictGet(r.value.entries, Str("classes")) == Some(List(StrList(xs)))
  {
    var es := [(Str("model"), est), (Str("classes"), Opaque(text, false, Some(xs)))];
    assert Str("model") != Str("x_cols") by { assert "model"[0] != "x_cols"[0]; }
    assert Str("classes") != Str("x_cols") by { assert "classes"[0] != "x_cols"[0]; }
    assert Str("model") != Str("classes") by { assert "model"[0] != "classes"[0]; }
    var cl := List(StrList(xs));
    assert DictGet(es, Str("x_cols")).None?;
    assert StringifyEntry(es, "x_cols") == Ok(es);
    assert DictGet(es, Str("classes")) == Some(Opaque(text, false, Some(xs)));
    assert DictSet(es, Str("classes"), cl) == [(Str("model"), est), (Str("classes"), cl)];
    assert NormalizeBundle(es) == Ok([(Str("model"), est), (Str("classes"), cl)]);
  }

  /** Anything that is not a dictionary with a `"model"` key, including a
      dictionary without it, becomes the default bundle around it. */
  lemma LoadBundleDefault(path: string, obj: Obj)
    requires !IsBundleDict(obj)
    ensures var r := LoadModelBundle(true, path, obj);
            && r.Ok? && Firsts(r.value.entries) == [Str("model"), Str("x_cols"), Str("classes")]
            && DictGet(r.value.entries, Str("model")) == Some(obj)
            && DictGet(r.value.entries, Str("x_cols")) == Some(List(DefaultXCols()))
            && DictGet(r.value.entries, Str("classes")) == Some(List([Str("CN"), Str("AD")]))
  {
    var es := DefaultBundle(obj).entries;
    assert Firsts(es) == [Str("model"), Str("x_cols"), Str("classes")];
    assert Str("x_cols") != Str("model") by { assert "x_cols"[0] != "model"[0]; }
    assert Str("classes") != Str("model") by { assert "classes"[0] != "model"[0]; }
    assert Str("classes") != Str("x_cols") by { assert "classes"[0] != "x_cols"[0]; }
    assert DictGet(es[2..], Str("classes")) == Some(List(DefaultClasses));
    assert DictGet(es[1..], Str("classes")) == DictGet(es[2..], Str("classes"));
  }

  /** The default columns are `vol_1` .. `vol_138`: column `i` reads back as
      label id `i + 1`. */
  lemma DefaultXColsLabelIds(i: nat)
    requires i < DefaultFeatureCount
    ensures DefaultXCols()[i].Str?
    ensures FeatureNameToLabelId(DefaultXCols()[i].s) == Some(i + 1)
  {
    FeatureNameOfVolName(i + 1);
  }

  /** A list of strings. */
  predicate IsStrList(o: Obj)
  {
    o.List? && forall i :: 0 <= i < |o.items| ==> o.items[i].Str?
  }

  /** An entry that already is a list of strings is left as it is. */
  lemma Restringify(entries: seq<(Obj, Obj)>, key: string)
    requires DictGet(entries, Str(key)).Some? ==> IsStrList(DictGet(entries, Str(key)).value)
    ensures StringifyEntry(entries, key) == Ok(entries)
  {
    var v := DictGet(entries, Str(key));
    if v.Some? {
      var xs := v.value.items;
      assert StrList(xs) == xs;
      DictSetSame(entries, Str(key), v.value);
    }
  }

  /** After normalisation, `x_cols` or `classes`, when present, is a list of
      strings. */
  lemma NormalizedStrList(entries: seq<(Obj, Obj)>, key: string)
    requires key == "x_cols" || key == "classes"
    ensures var n := NormalizeBundle(entries);
            n.Ok? && DictGet(n.value, Str(key)).Some? ==> IsStrList(DictGet(n.value, Str(key)).value)
  {
    var n := NormalizeBundle(entries);
    NormalizeBundleSpec(entries, Str(key));
    if n.Ok? && DictGet(n.value, Str(key)).Some? {
      var v := DictGet(n.value, Str(key)).value;
      assert v.List? && forall i :: 0 <= i < |v.items| ==> v.items[i].Str?;
    }
  }

  /** Normalising a normalised dictionary changes nothing. */
  lemma NormalizeBundleIdempotent(entries: seq<(Obj, Obj)>)
    ensures var n := NormalizeBundle(entries);
            n.Ok? ==> NormalizeBundle(n.value) == n
  {
    var n := NormalizeBundle(entries);
    if n.Ok? {
      NormalizedStrList(entries, "x_cols");
      NormalizedStrList(entries, "classes");
      Restringify(n.value, "x_cols");
      Restringify(n.value, "classes");
    }
  }

  /** Reloading a normalised bundle dictionary gives it back. */
  lemma ReloadBundleDict(path: string, entries: seq<(Obj, Obj)>)
    requires IsBundleDict(Dict(entries))
    ensures var r := LoadModelBundle(true, path, Dict(entries));
            r.Ok? ==> LoadModelBundle(true, path, r.value) == r
  {
    var r := LoadModelBundle(true, path, Dict(entries));
    LoadBundleDict(path, entries);
    if r.Ok? {
      LoadBundleDict(path, r.value.entries);
      NormalizeBundleIdempotent(entries);
    }
  }

  /** The default classes are a list of strings. */
  lemma DefaultClassesStrList()
    ensures IsStrList(List([Str("CN"), Str("AD")]))
  {
    var cl := List([Str("CN"), Str("AD")]);
    assert cl.items[0].Str? && cl.items[1].Str?;
  }

  /** Reloading a default bundle gives it back. */
  lemma ReloadDefaultBundle(path: string, obj: Obj)
    requires !IsBundleDict(obj)
    ensures var r := LoadModelBundle(true, path, obj);
            LoadModelBundle(true, path, r.value) == r
  {
    var es := DefaultBundle(obj).entries;
    LoadBundleDefault(path, obj);
    assert LoadModelBundle(true, path, obj) == Ok(Dict(es));
    var xc := List(DefaultXCols());
    assert DictGet(es, Str("x_cols")) == Some(xc);
    assert IsStrList(xc);
    var cl := List([Str("CN"), Str("AD")]);
    assert DictGet(es, Str("classes")) == Some(cl);
    DefaultClassesStrList();
    Restringify(es, "x_cols");
    Restringify(es, "classes");
  }

  /** Loading a loaded bundle again changes nothing. */
  lemma LoadBundleIdempotent(path: string, obj: Obj)
    ensures var r := LoadModelBundle(true, path, obj);
            r.Ok? ==> LoadModelBundle(true, path, r.value) == r
  {
    if IsBundleDict(obj) {
      ReloadBundleDict(path, obj.entries);
    } else {
      ReloadDefaultBundle(path, obj);
    }
  }
}
