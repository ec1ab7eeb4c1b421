/** The model registry of the web backend (backend/app.py): the scan of the
    models folder for `<organ>/<disease>` folders holding a complete model,
    the friendly class-name map of each model, the `/registry` listing and
    the key check of `/infer`. The folder tree and the contents of each
    model's `meta.json` are inputs; HTTP, uploads and logging are not part of
    this model. */
module App {
  import opened Wrappers
  import opened Collections
  import opened Objects
  import Predict

  // ---------------------------------------------------------------------------
  // Scanning the models folder
  // ---------------------------------------------------------------------------

  /** An entry of a folder: a file or a folder with its own entries. */
  datatype Entry = File(name: string) | Dir(name: string, children: seq<Entry>)

  const ModelFile := "model.joblib"
  const LutFile := "lut_parsed.csv"
  const MetaFile := "meta.json"
  const CnrefFile := "cn_reference.joblib"

  /** `parent / name`. */
  function Child(parent: string, name: string): string
  {
    parent + "/" + name
  }

  /** `(parent / name).exists()`: some entry, file or folder, has that name. */
  predicate HasChild(children: seq<Entry>, name: string)
  {
    children != [] && (children[0].name == name || HasChild(children[1..], name))
  }

  lemma {:induction false} HasChildIff(children: seq<Entry>, name: string)
    ensures HasChild(children, name) <==> exists i :: 0 <= i < |children| && children[i].name == name
  {
    if children != [] {
      HasChildIff(children[1..], name);
      if exists i :: 0 <= i < |children| && children[i].name == name {
        var i :| 0 <= i < |children| && children[i].name == name;
        if i > 0 { assert children[1..][i - 1].name == name; }
      }
    }
  }

  /** A disease folder the scan keeps: it holds both the model and the
      parsed label table. */
  predicate Complete(d: Entry)
  {
    d.Dir? && HasChild(d.children, ModelFile) && HasChild(d.children, LutFile)
  }

  /** The four paths registered for a model folder; `meta` and `cnref` are
      registered whether or not those files exist. */
  datatype ModelPaths = ModelPaths(model: string, lut: string, meta: string, cnref: string)

  function PathsFor(diseasePath: string): ModelPaths
  {
    ModelPaths(Child(diseasePath, ModelFile), Child(diseasePath, LutFile),
               Child(diseasePath, MetaFile), Child(diseasePath, CnrefFile))
  }

  type Registry = map<(string, string), ModelPaths>

  /** The registry after the first `m` entries of an organ folder. */
  function ScanDiseases(reg: Registry, organ: string, organPath: string, ds: seq<Entry>, m: nat): Registry
    requires m <= |ds|
  {
    if m == 0 then reg
    else
      var r := ScanDiseases(reg, organ, organPath, ds, m - 1);
      var d := ds[m - 1];
      if Complete(d) then r[(organ, d.name) := PathsFor(Child(organPath, d.name))] else r
  }

  /** The registry after the first `n` entries of the models folder. */
  function ScanOrgans(rootPath: string, organs: seq<Entry>, n: nat): Registry
    requires n <= |organs|
  {
    if n == 0 then map[]
    else
      var r := ScanOrgans(rootPath, organs, n - 1);
      var o := organs[n - 1];
      if o.Dir? then ScanDiseases(r, o.name, Child(rootPath, o.name), o.children, |o.children|) else r
  }

  /** `_scan_models`: `root` is the models folder's entries, or nothing when
      the folder does not exist. Files among the organ and disease folders are
      skipped. */
  method ScanModels(rootPath: string, root: Option<seq<Entry>>) returns (registry: Registry)
    ensures root.None? ==> registry == map[]
    ensures root.Some? ==> registry == ScanOrgans(rootPath, root.value, |root.value|)
  {
    registry := map[];
    if root.None? {
      return;
    }
    var organs := root.value;
    for i := 0 to |organs|
      invariant registry == ScanOrgans(rootPath, organs, i)
    {
      var organDir := organs[i];
      if !organDir.Dir? {
        continue;
      }
      var organPath := Child(rootPath, organDir.name);
      var ds := organDir.children;
      ghost var before := registry;
      for j := 0 to |ds|
        invariant registry == ScanDiseases(before, organDir.name, organPath, ds, j)
      {
        var diseaseDir := ds[j];
        if !diseaseDir.Dir? {
          continue;
        }
        if HasChild(diseaseDir.children, ModelFile) && HasChild(diseaseDir.children, LutFile) {
          registry := registry[(organDir.name, diseaseDir.name) := PathsFor(Child(organPath, diseaseDir.name))];
        }
      }
    }
  }

  /** An organ folder holding a complete folder for `disease`. */
  predicate HasDisease(o: Entry, disease: string)
  {
    o.Dir? && exists j :: 0 <= j < |o.children| && o.children[j].name == disease && Complete(o.children[j])
  }

  /** Scanning an organ folder adds exactly its complete disease folders, under
      that organ. */
  lemma {:induction false} ScanDiseasesKeys(reg: Registry, organ: string, organPath: string, ds: seq<Entry>, m: nat, key: (string, string))
    requires m <= |ds|
    ensures key in ScanDiseases(reg, organ, organPath, ds, m) <==>
            key in reg || (key.0 == organ && exists j :: 0 <= j < m && ds[j].name == key.1 && Complete(ds[j]))
  {
    if m > 0 {
      ScanDiseasesKeys(reg, organ, organPath, ds, m - 1, key);
      if key.0 == organ && key.1 == ds[m - 1].name && Complete(ds[m - 1]) {
        assert 0 <= m - 1 < m && ds[m - 1].name == key.1 && Complete(ds[m - 1]);
      } else {
        forall j | 0 <= j < m && ds[j].name == key.1 && Complete(ds[j]) && key.0 == organ
          ensures 0 <= j < m - 1
        {
        }
      }
    }
  }

  /** The registry has exactly the pairs (organ folder, complete disease
      folder in it). */
  lemma {:induction false} ScanOrgansKeys(rootPath: string, organs: seq<Entry>, n: nat, key: (string, string))
    requires n <= |organs|
    ensures key in ScanOrgans(rootPath, organs, n) <==>
            exists i :: 0 <= i < n && organs[i].name == key.0 && HasDisease(organs[i], key.1)
  {
    if n > 0 {
      ScanOrgansKeys(rootPath, organs, n - 1, key);
      var o := organs[n - 1];
      if o.Dir? {
        ScanDiseasesKeys(ScanOrgans(rootPath, organs, n - 1), o.name, Child(rootPath, o.name), o.children, |o.children|, key);
        if o.name == key.0 && HasDisease(o, key.1) {
          assert 0 <= n - 1 < n && organs[n - 1].name == key.0 && HasDisease(organs[n - 1], key.1);
        }
      }
      forall i | 0 <= i < n && organs[i].name == key.0 && HasDisease(organs[i], key.1) && i == n - 1
        ensures key in ScanOrgans(rootPath, organs, n)
      {
        var j :| 0 <= j < |o.children| && o.children[j].name == key.1 && Complete(o.children[j]);
        assert 0 <= j < |o.children| && o.children[j].name == key.1 && Complete(o.children[j]);
      }
    }
  }

  /** Every registered pair points into its own folder. */
  lemma {:induction false} ScanDiseasesValues(reg: Registry, rootPath: string, organ: string, ds: seq<Entry>, m: nat, key: (string, string))
    requires m <= |ds|
    requires key in reg ==> reg[key] == PathsFor(Child(Child(rootPath, key.0), key.1))
    ensures var r := ScanDiseases(reg, organ, Child(rootPath, organ), ds, m);
            key in r ==> r[key] == PathsFor(Child(Child(rootPath, key.0), key.1))
  {
    if m > 0 {
      ScanDiseasesValues(reg, rootPath, organ, ds, m - 1, key);
    }
  }

  /** The paths registered for `(organ, disease)` are the model, label table,
      meta and CN reference files of `<root>/<organ>/<disease>`. */
  lemma {:induction false} ScanOrgansValues(rootPath: string, organs: seq<Entry>, n: nat, key: (string, string))
    requires n <= |organs|
    ensures var r := ScanOrgans(rootPath, organs, n);
            key in r ==> r[key] == PathsFor(Child(Child(rootPath, key.0), key.1))
  {
    if n > 0 {
      ScanOrgansValues(rootPath, organs, n - 1, key);
      var o := organs[n - 1];
      if o.Dir? {
        ScanDiseasesValues(ScanOrgans(rootPath, organs, n - 1), rootPath, o.name, o.children, |o.children|, key);
      }
    }
  }

  // ---------------------------------------------------------------------------
  // The class-name map
  // ---------------------------------------------------------------------------

  const DefaultClassMap: map<string, string> := map["0" := "CN", "1" := "AD", "CN" := "CN", "AD" := "AD"]

  /** `{str(k): str(v) for k, v in class_name_map.items()}`. */
  function StrPairs(entries: seq<(Obj, Obj)>): (ps: seq<(string, string)>)
    ensures |ps| == |entries|
    ensures forall i :: 0 <= i < |entries| ==> ps[i] == (StrOf(entries[i].0), StrOf(entries[i].1))
  {
    seq(|entries|, i requires 0 <= i < |entries| => (StrOf(entries[i].0), StrOf(entries[i].1)))
  }

  /** The class-name map `meta.json` asks for, if it is a dictionary with a
      dictionary under `class_name_map`. Anything else, including a document
      that is not a dictionary (whose `.get` raises and is ignored), asks for
      nothing. */
  function MetaOverrides(meta: Obj): Option<seq<(Obj, Obj)>>
  {
    if !meta.Dict? then None
    else match DictGet(meta.entries, Str("class_name_map"))
      case Some(Dict(es)) => Some(es)
      case _ => None
  }

  /** The class map of one model. `meta` is the parsed `meta.json`, or nothing
      when the file is missing or reading or parsing it raised. */
  function ClassMap(meta: Option<Obj>): map<string, string>
  {
    if meta.None? then DefaultClassMap
    else match MetaOverrides(meta.value)
      case None => DefaultClassMap
      case Some(es) => DefaultClassMap + BuildMap(StrPairs(es))
  }

  /** Without usable overrides the map is the default one. With them, a key
      is a default key or the `str` of an override key; an overridden key
      maps to the `str` of its last override, any other key keeps its
      default. */
  lemma ClassMapSpec(meta: Option<Obj>, c: string)
    ensures meta.None? || MetaOverrides(meta.value).None? ==> ClassMap(meta) == DefaultClassMap
    ensures meta.Some? && MetaOverrides(meta.value).Some? ==>
            var ps := StrPairs(MetaOverrides(meta.value).value);
            && (c in ClassMap(meta) <==> c in DefaultClassMap || exists i :: 0 <= i < |ps| && ps[i].0 == c)
            && (c in DefaultClassMap && (forall i :: 0 <= i < |ps| ==> ps[i].0 != c) ==>
                  ClassMap(meta)[c] == DefaultClassMap[c])
            && (forall i :: 0 <= i < |ps| && ps[i].0 == c && (forall j :: i < j < |ps| ==> ps[j].0 != c) ==>
                  ClassMap(meta)[c] == ps[i].1)
  {
    if meta.Some? && MetaOverrides(meta.value).Some? {
      var ps := StrPairs(MetaOverrides(meta.value).value);
      BuildMapKeys(ps);
      forall i | 0 <= i < |ps| && ps[i].0 == c && (forall j :: i < j < |ps| ==> ps[j].0 != c)
        ensures ClassMap(meta)[c] == ps[i].1
      {
        BuildMapLastWins(ps, i);
      }
    }
  }
  /** Under the default class map that the web layer attaches to every bundle,
      `map_name` sends "0" to "CN" and "1" to "AD" whatever the bundle's
      classes are, leaves every other label that is not a key as it is, and
      renaming a renamed label changes nothing. */
  lemma MapNameDefaultMap(s: string, classes: seq<string>)
    ensures Predict.MapName("0", Some(DefaultClassMap), classes) == "CN"
    ensures Predict.MapName("1", Some(DefaultClassMap), classes) == "AD"
    ensures s !in DefaultClassMap ==> Predict.MapName(s, Some(DefaultClassMap), classes) == s
    ensures var r := Predict.MapName(s, Some(DefaultClassMap), classes);
            Predict.MapName(r, Some(DefaultClassMap), classes) == r
  {
  }

  /** With any `meta.json` that does not override "0", the model's class map
      still sends the raw label "0" to "CN". */
  lemma MapNameKeepsDefaultZero(meta: Option<Obj>, classes: seq<string>)
    requires meta.Some? && MetaOverrides(meta.value).Some? ==>
             forall i :: 0 <= i < |MetaOverrides(meta.value).value| ==>
               StrOf(MetaOverrides(meta.value).value[i].0) != "0"
    ensures Predict.MapName("0", Some(ClassMap(meta)), classes) == "CN"
  {
    ClassMapSpec(meta, "0");
  }


  // ---------------------------------------------------------------------------
  // The /registry listing
  // ---------------------------------------------------------------------------

  /** One organ of the listing with its diseases. */
  datatype OrganListing = OrganListing(organ: string, diseases: seq<string>)

  /** The `org_to_dis` loop: each organ of a loaded pair, with the diseases
      loaded for it. */
  method GroupByOrgan(loaded: seq<(string, string)>) returns (orgToDis: map<string, set<string>>)
    ensures forall o :: o in orgToDis <==> exists k :: 0 <= k < |loaded| && loaded[k].0 == o
    ensures forall o, d :: o in orgToDis ==> (d in orgToDis[o] <==> (o, d) in loaded)
  {
    orgToDis := map[];
    for k := 0 to |loaded|
      invariant forall o :: o in orgToDis <==> exists k' :: 0 <= k' < k && loaded[k'].0 == o
      invariant forall o, d :: o in orgToDis ==> (d in orgToDis[o] <==> (o, d) in loaded[..k])
    {
      var (o, d) := loaded[k];
      assert loaded[..k + 1] == loaded[..k] + [(o, d)];
      var dis := if o in orgToDis then orgToDis[o] else {};
      orgToDis := orgToDis[o := dis + {d}];
    }
    assert loaded[..|loaded|] == loaded;
  }

  /** `sorted()` of distinct strings. */
  method SortStrings(s: set<string>) returns (r: seq<string>)
    ensures forall x :: x in r <==> x in s
    ensures Increasing(r, StrLess)
  {
    StrLessIsStrictTotalOrder();
    r := SortSet(s, StrLess);
  }

  /** The comprehension over the sorted organs: each with its diseases
      sorted. */
  method ListOrgans(orgToDis: map<string, set<string>>, names: seq<string>) returns (organs: seq<OrganListing>)
    requires forall i :: 0 <= i < |names| ==> names[i] in orgToDis
    ensures |organs| == |names|
    ensures forall j :: 0 <= j < |names| ==> organs[j].organ == names[j]
    ensures forall j :: 0 <= j < |names| ==> Increasing(organs[j].diseases, StrLess)
    ensures forall j, d :: 0 <= j < |names| ==> (d in organs[j].diseases <==> d in orgToDis[names[j]])
  {
    organs := [];
    for i := 0 to |names|
      invariant |organs| == i
      invariant forall j :: 0 <= j < i ==> organs[j].organ == names[j]
      invariant forall j :: 0 <= j < i ==> Increasing(organs[j].diseases, StrLess)
      invariant forall j, d :: 0 <= j < i ==> (d in organs[j].diseases <==> d in orgToDis[names[j]])
    {
      var diseases := SortStrings(orgToDis[names[i]]);
      organs := organs + [OrganListing(names[i], diseases)];
    }
  }

  /** The organ names of a listing, in order. */
  function OrganNames(organs: seq<OrganListing>): (r: seq<string>)
    ensures |r| == |organs| && forall i :: 0 <= i < |organs| ==> r[i] == organs[i].organ
  {
    seq(|organs|, i requires 0 <= i < |organs| => organs[i].organ)
  }

  /** `registry()`: the organs of the loaded models in ascending order, each
      with its diseases in ascending order, so that every loaded pair is
      listed exactly once; no models give no organs. */
  method RegistryListing(loaded: seq<(string, string)>) returns (organs: seq<OrganListing>)
    ensures loaded == [] ==> organs == []
    ensures forall i, j :: 0 <= i < j < |organs| ==> StrLess(organs[i].organ, organs[j].organ)
    ensures forall o :: o in OrganNames(organs) <==> o in Firsts(loaded)
    ensures forall i :: 0 <= i < |organs| ==> Increasing(organs[i].diseases, StrLess)
    ensures forall i, d :: 0 <= i < |organs| ==> (d in organs[i].diseases <==> (organs[i].organ, d) in loaded)
  {
    if loaded == [] {
      return [];
    }
    var orgToDis := GroupByOrgan(loaded);
    var names := SortStrings(orgToDis.Keys);
    organs := ListOrgans(orgToDis, names);
    assert OrganNames(organs) == names;
    forall o ensures o in names <==> o in Firsts(loaded) {
      if o in Firsts(loaded) {
        var k :| 0 <= k < |loaded| && Firsts(loaded)[k] == o;
        assert loaded[k].0 == o;
      }
    }
    forall i, d | 0 <= i < |organs| ensures d in organs[i].diseases <==> (organs[i].organ, d) in loaded {
      assert organs[i].organ == names[i] && names[i] in orgToDis;
    }
  }

  // ---------------------------------------------------------------------------
  // The /infer key check
  // ---------------------------------------------------------------------------

  const NotFoundDetail := "Model not found for organ/disease"

  /** The first step of `/infer`: a pair with no loaded model is answered with
      HTTP 404 before the upload is read. */
  function InferKey(loaded: set<(string, string)>, organ: string, disease: string): (r: Result<(string, string)>)
    ensures r.Err? <==> (organ, disease) !in loaded
    ensures r.Err? ==> r.error == HttpError(404, NotFoundDetail)
    ensures r.Ok? ==> r.value in loaded
  {
    if (organ, disease) !in loaded then Err(HttpError(404, NotFoundDetail)) else Ok((organ, disease))
  }
}
