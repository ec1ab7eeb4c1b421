/** `discover_model_artifacts` (backend/core/registry.py): in a model folder,
    pick the model file, the label table and the optional CN reference by
    first-match rules over the folder's entry names. Whether the folder is a
    directory and the order `os.listdir` returns the names in are inputs. */
module Registry {
  import opened Wrappers
  import opened Text
  import opened Collections

  /** `os.path.join(a, b)` on POSIX: an absolute `b` replaces `a`; otherwise a
      separator is put between them unless `a` is empty or already ends in one. */
  function PathJoin(a: string, b: string): string
  {
    if StartsWith(b, "/") then b
    else if a == [] || EndsWith(a, "/") then a + b
    else a + "/" + b
  }

  /** Joining keeps the entry name as suffix, and a relative name gets the
      folder as prefix. */
  lemma PathJoinParts(a: string, b: string)
    ensures EndsWith(PathJoin(a, b), b)
    ensures !StartsWith(b, "/") ==> StartsWith(PathJoin(a, b), a)
  {
    var r := PathJoin(a, b);
    assert r[|r| - |b|..] == b;
    if !StartsWith(b, "/") { assert r[..|a|] == a; }
  }

  predicate IsJoblib(f: string)
  {
    EndsWith(Lower(f), ".joblib")
  }

  /** A `.joblib` entry whose lower-cased name mentions `model`. */
  predicate IsModelJoblib(f: string)
  {
    IsJoblib(f) && Contains(Lower(f), "model")
  }

  predicate IsLutParsed(f: string)
  {
    Lower(f) == "lut_parsed.csv"
  }

  predicate IsPlainLut(f: string)
  {
    Lower(f) == "lut.csv"
  }

  /** A `.joblib` entry whose lower-cased name mentions `cn`. */
  predicate IsCnJoblib(f: string)
  {
    IsJoblib(f) && Contains(Lower(f), "cn")
  }

  /** `next((os.path.join(dir, f) for f in names if p(f)), None)`. */
  function FirstPath(dir: string, names: seq<string>, p: string -> bool): (r: Option<string>)
    ensures r.None? <==> FirstIndex(names, p).None?
    ensures r.Some? ==> r.value == PathJoin(dir, names[FirstIndex(names, p).value])
  {
    match FirstIndex(names, p)
    case None => None
    case Some(i) => Some(PathJoin(dir, names[i]))
  }

  /** Python's `not x` on an optional path. */
  predicate Falsy(x: Option<string>)
  {
    x.None? || x.value == []
  }

  const NotDirPrefix := "Model directory not found: "
  const NoModelMessage := "No joblib model found in model_dir"
  const NoLutMessage := "No LUT CSV (lut_parsed.csv or lut.csv) found in model_dir"

  /** `p0 or p1` on two optional paths. */
  function OrElse(p0: Option<string>, p1: Option<string>): Option<string>
  {
    if Falsy(p0) then p1 else p0
  }

  /** The model file: the first `.joblib` entry mentioning `model`, falling
      back to the first `.joblib` entry. */
  function ModelPath(modelDir: string, names: seq<string>): Option<string>
  {
    OrElse(FirstPath(modelDir, names, IsModelJoblib), FirstPath(modelDir, names, IsJoblib))
  }

  /** The label table: `lut_parsed.csv`, falling back to `lut.csv`. */
  function LutPath(modelDir: string, names: seq<string>): Option<string>
  {
    OrElse(FirstPath(modelDir, names, IsLutParsed), FirstPath(modelDir, names, IsPlainLut))
  }

  function DiscoverModelArtifacts(isDir: bool, modelDir: string, names: seq<string>): (r: Result<map<string, string>>)
    ensures !isDir ==> r == Err(FileNotFound(NotDirPrefix + modelDir))
    ensures r.Ok? ==> {"model", "lut"} <= r.value.Keys <= {"model", "lut", "cnref"}
  {
    if !isDir then Err(FileNotFound(NotDirPrefix + modelDir))
    else
      var model := ModelPath(modelDir, names);
      if Falsy(model) then Err(FileNotFound(NoModelMessage))
      else
        var lut := LutPath(modelDir, names);
        if Falsy(lut) then Err(FileNotFound(NoLutMessage))
        else
          Ok(Artifacts(model.value, lut.value, CnrefPath(modelDir, names)))
  }

  /** The optional CN reference: the first `.joblib` entry mentioning `cn`,
      kept only when truthy. */
  function CnrefPath(modelDir: string, names: seq<string>): Option<string>
  {
    var cnref := FirstPath(modelDir, names, IsCnJoblib);
    if Falsy(cnref) then None else cnref
  }

  /** The result dictionary: `model` and `lut`, plus `cnref` when one was found. */
  function Artifacts(model: string, lut: string, cnref: Option<string>): (m: map<string, string>)
    ensures m.Keys == {"model", "lut"} + (if cnref.Some? then {"cnref"} else {})
    ensures m["model"] == model && m["lut"] == lut
    ensures cnref.Some? ==> m["cnref"] == cnref.value
  {
    var out := map["model" := model, "lut" := lut];
    if cnref.Some? then out["cnref" := cnref.value] else out
  }

  /** A path built from an entry with a `.joblib` or `.csv` suffix is never
      empty, so `not path` only tests for a missing match. */
  lemma FirstPathTruthy(dir: string, names: seq<string>, p: string -> bool)
    requires forall f :: p(f) ==> f != []
    ensures Falsy(FirstPath(dir, names, p)) <==> forall i :: 0 <= i < |names| ==> !p(names[i])
  {
    var r := FirstPath(dir, names, p);
    if r.Some? {
      PathJoinParts(dir, names[FirstIndex(names, p).value]);
    }
  }

  lemma SuffixedNonEmpty(f: string)
    ensures IsJoblib(f) ==> f != []
    ensures IsLutParsed(f) || IsPlainLut(f) ==> f != []
  {
    if f == [] { assert Lower(f) == []; }
  }

  /** The whole folder fails exactly when it is not a directory, has no
      `.joblib` entry, or has neither `lut_parsed.csv` nor `lut.csv`; the
      model check comes before the label table check. */
  lemma DiscoverErrors(isDir: bool, modelDir: string, names: seq<string>)
    ensures var r := DiscoverModelArtifacts(isDir, modelDir, names);
            var noModel := forall i :: 0 <= i < |names| ==> !IsJoblib(names[i]);
            var noLut := forall i :: 0 <= i < |names| ==> !IsLutParsed(names[i]) && !IsPlainLut(names[i]);
            && (isDir && noModel ==> r == Err(FileNotFound(NoModelMessage)))
            && (isDir && !noModel && noLut ==> r == Err(FileNotFound(NoLutMessage)))
            && (r.Ok? <==> isDir && !noModel && !noLut)
  {
    forall f ensures IsJoblib(f) ==> f != [] ensures IsLutParsed(f) || IsPlainLut(f) ==> f != [] {
      SuffixedNonEmpty(f);
    }
    FirstPathTruthy(modelDir, names, IsModelJoblib);
    FirstPathTruthy(modelDir, names, IsJoblib);
    FirstPathTruthy(modelDir, names, IsLutParsed);
    FirstPathTruthy(modelDir, names, IsPlainLut);
    assert Falsy(ModelPath(modelDir, names)) <==> forall i :: 0 <= i < |names| ==> !IsJoblib(names[i]);
    if forall i :: 0 <= i < |names| ==> !IsLutParsed(names[i]) && !IsPlainLut(names[i]) {
      assert forall i :: 0 <= i < |names| ==> !IsLutParsed(names[i]);
      assert forall i :: 0 <= i < |names| ==> !IsPlainLut(names[i]);
    }
  }

  /** The model is the first `.joblib` entry mentioning `model` (letter case
      ignored), else the first `.joblib` entry, joined to the folder. */
  lemma ModelPathPick(modelDir: string, names: seq<string>)
    ensures var r := ModelPath(modelDir, names);
            var m := FirstIndex(names, IsModelJoblib);
            var j := FirstIndex(names, IsJoblib);
            && (m.Some? ==> r == Some(PathJoin(modelDir, names[m.value])))
            && (m.None? ==> r == if j.Some? then Some(PathJoin(modelDir, names[j.value])) else None)
  {
    var m := FirstIndex(names, IsModelJoblib);
    if m.Some? {
      SuffixedNonEmpty(names[m.value]);
      PathJoinParts(modelDir, names[m.value]);
    }
  }

  /** The label table is `lut_parsed.csv`, else `lut.csv` (letter case
      ignored), joined to the folder. */
  lemma LutPathPick(modelDir: string, names: seq<string>)
    ensures var r := LutPath(modelDir, names);
            var l := FirstIndex(names, IsLutParsed);
            var l2 := FirstIndex(names, IsPlainLut);
            && (l.Some? ==> r == Some(PathJoin(modelDir, names[l.value])))
            && (l.None? ==> r == if l2.Some? then Some(PathJoin(modelDir, names[l2.value])) else None)
  {
    var l := FirstIndex(names, IsLutParsed);
    if l.Some? {
      SuffixedNonEmpty(names[l.value]);
      PathJoinParts(modelDir, names[l.value]);
    }
  }

  /** The CN reference is the first `.joblib` entry mentioning `cn` (letter
      case ignored) joined to the folder, and missing when there is none. */
  lemma CnrefPathPick(modelDir: string, names: seq<string>)
    ensures var c := FirstIndex(names, IsCnJoblib);
            CnrefPath(modelDir, names) == if c.Some? then Some(PathJoin(modelDir, names[c.value])) else None
  {
    var c := FirstIndex(names, IsCnJoblib);
    if c.Some? {
      SuffixedNonEmpty(names[c.value]);
      PathJoinParts(modelDir, names[c.value]);
    }
  }

  /** A successful discovery holds the model and label table paths chosen
      above, and `cnref` exactly when a CN reference was found. */
  lemma DiscoverPicks(modelDir: string, names: seq<string>)
    ensures var r := DiscoverModelArtifacts(true, modelDir, names);
            var c := CnrefPath(modelDir, names);
            r.Ok? ==> && Some(r.value["model"]) == ModelPath(modelDir, names)
                      && Some(r.value["lut"]) == LutPath(modelDir, names)
                      && ("cnref" in r.value <==> c.Some?)
                      && (c.Some? ==> r.value["cnref"] == c.value)
  {
  }
}
