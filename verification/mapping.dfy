/** `read_lut_csv` and `read_lut_to_glb_csv` (backend/core/mapping.py) over the
    frame pandas read: the header cells and rectangular rows of cell strings. */
module Mapping {
  import opened Wrappers
  import opened Text
  import opened Collections

  /** A pandas frame: every row has one cell per column. */
  predicate Rectangular(header: seq<string>, rows: seq<seq<string>>)
  {
    forall i :: 0 <= i < |rows| ==> |rows[i]| == |header|
  }

  /** `c.strip().lower()` for a column label. */
  function NormalizeColumn(c: string): string
  {
    Lower(Strip(c))
  }

  /** `[c.strip().lower() for c in df.columns]`. */
  function Columns(header: seq<string>): (cols: seq<string>)
    ensures |cols| == |header| && forall i :: 0 <= i < |header| ==> cols[i] == NormalizeColumn(header[i])
  {
    seq(|header|, i requires 0 <= i < |header| => NormalizeColumn(header[i]))
  }

  /** Where `name` sits among the column labels: the first such column. */
  function ColumnIndex(cols: seq<string>, name: string): (r: Option<nat>)
    ensures r.None? <==> name !in cols
    ensures r.Some? ==> r.value < |cols| && cols[r.value] == name
  {
    if cols == [] then None
    else if cols[0] == name then Some(0)
    else match ColumnIndex(cols[1..], name)
      case None => None
      case Some(i) => Some(i + 1)
  }

  /** Two or more columns carry `name` after normalisation. pandas then gives
      a Series, not a cell, for `r[name]`. */
  predicate DuplicateColumn(cols: seq<string>, name: string)
  {
    exists i, j :: 0 <= i < j < |cols| && cols[i] == name && cols[j] == name
  }

  /** `int()` of a Series of two or more cells. */
  const SeriesIntMessage := "cannot convert the series to <class 'int'>"

  /** A duplicated column is found first at ColumnIndex and again after it. */
  lemma DuplicateColumnAfterFirst(cols: seq<string>, name: string)
    requires name in cols
    ensures ColumnIndex(cols, name).Some?
    ensures DuplicateColumn(cols, name) <==> name in cols[ColumnIndex(cols, name).value + 1..]
  {
    var k := ColumnIndex(cols, name).value;
    FirstColumn(cols, name);
    if DuplicateColumn(cols, name) {
      var i, j :| 0 <= i < j < |cols| && cols[i] == name && cols[j] == name;
      assert cols[k + 1..][j - k - 1] == name;
    }
    if name in cols[k + 1..] {
      var j :| 0 <= j < |cols| - k - 1 && cols[k + 1..][j] == name;
      assert cols[k] == name && cols[k + j + 1] == name;
    }
  }

  /** ColumnIndex finds the first column with `name`. */
  lemma {:induction false} FirstColumn(cols: seq<string>, name: string)
    requires ColumnIndex(cols, name).Some?
    ensures forall i :: 0 <= i < ColumnIndex(cols, name).value ==> cols[i] != name
  {
    if cols[0] != name {
      FirstColumn(cols[1..], name);
    }
  }

  /** The two cells of every row under columns `a` and `b`. */
  function CellPairs(rows: seq<seq<string>>, a: nat, b: nat): (ps: seq<(string, string)>)
    requires forall i :: 0 <= i < |rows| ==> a < |rows[i]| && b < |rows[i]|
    ensures |ps| == |rows| && forall i :: 0 <= i < |rows| ==> ps[i] == (rows[i][a], rows[i][b])
  {
    seq(|rows|, i requires 0 <= i < |rows| => (rows[i][a], rows[i][b]))
  }

  // ---------------------------------------------------------------------------
  // read_lut_csv
  // ---------------------------------------------------------------------------

  const LutCsvColumnsMessage := "lut.csv must have label_id,label_name"
  const BadIntMessage := "invalid literal for int()"

  /** `int(...)` of every id cell, in row order; the first cell that is not an
      integer raises ValueError. */
  function ParseIds(ps: seq<(string, string)>): (r: Result<seq<(int, string)>>)
    ensures r.Ok? <==> forall i :: 0 <= i < |ps| ==> ParseInt(ps[i].0).Some?
    ensures r.Err? ==> r.error == ValueError(BadIntMessage)
    ensures r.Ok? ==> |r.value| == |ps|
    ensures r.Ok? ==> forall i :: 0 <= i < |ps| ==> r.value[i] == (ParseInt(ps[i].0).value, ps[i].1)
  {
    if ps == [] then Ok([])
    else match ParseIds(ps[..|ps| - 1])
      case Err(e) => Err(e)
      case Ok(init) =>
        match ParseInt(ps[|ps| - 1].0)
        case None => Err(ValueError(BadIntMessage))
        case Some(lid) => Ok(init + [(lid, ps[|ps| - 1].1)])
  }

  /** The dict comprehension over (id cell, name cell) pairs. */
  function PairsLut(ps: seq<(string, string)>): (r: Result<map<int, string>>)
    ensures r.Err? <==> exists i :: 0 <= i < |ps| && ParseInt(ps[i].0).None?
    ensures r.Err? ==> r.error == ValueError(BadIntMessage)
  {
    match ParseIds(ps)
    case Err(e) => Err(e)
    case Ok(es) => Ok(BuildMap(es))
  }

  /** `read_lut_csv`: the assertion on the normalised columns, then one entry
      per row with a later row overwriting an earlier one with the same id.
      When `label_id` names two columns, the first row's `int()` gets a
      Series and raises TypeError. */
  function ReadLutCsv(header: seq<string>, rows: seq<seq<string>>): (r: Result<map<int, string>>)
    requires Rectangular(header, rows)
    ensures ColumnIndex(Columns(header), "label_id").None? || ColumnIndex(Columns(header), "label_name").None? ==>
              r == Err(AssertionError(LutCsvColumnsMessage))
    ensures "label_name" in Columns(header) && DuplicateColumn(Columns(header), "label_id") && rows != [] ==>
              r == Err(TypeError(SeriesIntMessage))
    ensures ColumnIndex(Columns(header), "label_id").Some? && ColumnIndex(Columns(header), "label_name").Some? &&
            !(DuplicateColumn(Columns(header), "label_id") && rows != []) ==>
              r == PairsLut(CellPairs(rows, ColumnIndex(Columns(header), "label_id").value,
                                      ColumnIndex(Columns(header), "label_name").value))
  {
    var cols := Columns(header);
    var idCol := ColumnIndex(cols, "label_id");
    var nameCol := ColumnIndex(cols, "label_name");
    if idCol.None? || nameCol.None? then Err(AssertionError(LutCsvColumnsMessage))
    else if DuplicateColumn(cols, "label_id") && rows != [] then Err(TypeError(SeriesIntMessage))
    else PairsLut(CellPairs(rows, idCol.value, nameCol.value))
  }

  /** An id is a key exactly when some row's id cell parses to it. */
  lemma PairsLutKeys(ps: seq<(string, string)>, lid: int)
    requires PairsLut(ps).Ok?
    ensures lid in PairsLut(ps).value <==> exists i :: 0 <= i < |ps| && ParseInt(ps[i].0) == Some(lid)
  {
    var es := ParseIds(ps).value;
    BuildMapKeys(es);
    if lid in BuildMap(es) {
      var i :| 0 <= i < |es| && es[i].0 == lid;
      assert ParseInt(ps[i].0) == Some(lid);
    } else {
      forall i | 0 <= i < |ps| ensures ParseInt(ps[i].0) != Some(lid) {
        assert es[i].0 != lid;
      }
    }
  }

  /** A later row with the same id overwrites: each key's name is the name cell
      of the LAST row with that id. */
  lemma PairsLutLastRowWins(ps: seq<(string, string)>, i: nat, lid: int)
    requires PairsLut(ps).Ok? && i < |ps| && ParseInt(ps[i].0) == Some(lid)
    requires forall j :: i < j < |ps| ==> ParseInt(ps[j].0) != Some(lid)
    ensures lid in PairsLut(ps).value && PairsLut(ps).value[lid] == ps[i].1
  {
    var es := ParseIds(ps).value;
    forall j | i < j < |es| ensures es[j].0 != es[i].0 {
      assert ParseInt(ps[j].0) != Some(lid);
    }
    BuildMapLastWins(es, i);
  }

  // ---------------------------------------------------------------------------
  // read_lut_to_glb_csv
  // ---------------------------------------------------------------------------

  const GlbColumnsMessage := "mapping_lut_to_glb.csv must have label_id, glb_node"

  /** One `for` iteration of `read_lut_to_glb_csv` on the dict built so far. */
  function GroupStep(g: map<int, seq<string>>, p: (string, string)): map<int, seq<string>>
  {
    var node := Strip(p.1);
    match ParseInt(p.0)
    case Some(lid) =>
      if node == [] then g
      else g[lid := (if lid in g then g[lid] else []) + [node]]
    case None => g
  }

  /** The dict `out.setdefault(lid, []).append(node)` builds over the first
      `n` (id, node) cell pairs: stripped nodes, empty ones skipped. */
  function GroupRows(ps: seq<(string, string)>, n: nat): map<int, seq<string>>
    requires n <= |ps|
  {
    if n == 0 then map[] else GroupStep(GroupRows(ps, n - 1), ps[n - 1])
  }

  /** The stripped, non-empty nodes of the first `n` rows with id `lid`, in row order. */
  function NodesFor(ps: seq<(string, string)>, n: nat, lid: int): seq<string>
    requires n <= |ps|
  {
    if n == 0 then [] else
      var init := NodesFor(ps, n - 1, lid);
      if ParseInt(ps[n - 1].0) == Some(lid) && Strip(ps[n - 1].1) != [] then init + [Strip(ps[n - 1].1)]
      else init
  }

  /** Each id maps to exactly its rows' non-empty stripped nodes, in row order,
      and an id appears only when it has at least one such node. */
  lemma {:induction false} GroupRowsSpec(ps: seq<(string, string)>, n: nat, lid: int)
    requires n <= |ps|
    ensures lid in GroupRows(ps, n) <==> NodesFor(ps, n, lid) != []
    ensures lid in GroupRows(ps, n) ==> GroupRows(ps, n)[lid] == NodesFor(ps, n, lid)
  {
    if n > 0 {
      GroupRowsSpec(ps, n - 1, lid);
    }
  }

  /** The loop over (id cell, node cell) pairs: ValueError as soon as an id
      cell is not an integer, else the grouped dict. */
  function PairsGlb(ps: seq<(string, string)>): (r: Result<map<int, seq<string>>>)
    ensures r.Err? <==> exists i :: 0 <= i < |ps| && ParseInt(ps[i].0).None?
    ensures r.Err? ==> r.error == ValueError(BadIntMessage)
  {
    if forall i :: 0 <= i < |ps| ==> ParseInt(ps[i].0).Some? then Ok(GroupRows(ps, |ps|))
    else Err(ValueError(BadIntMessage))
  }

  /** `read_lut_to_glb_csv`: the assertion on the normalised columns, then the
      row loop, whose first `int()` raises TypeError when `label_id` names two
      columns. */
  method ReadLutToGlbCsv(header: seq<string>, rows: seq<seq<string>>)
    returns (r: Result<map<int, seq<string>>>)
    requires Rectangular(header, rows)
    ensures ColumnIndex(Columns(header), "label_id").None? || ColumnIndex(Columns(header), "glb_node").None? ==>
              r == Err(AssertionError(GlbColumnsMessage))
    ensures "glb_node" in Columns(header) && DuplicateColumn(Columns(header), "label_id") && rows != [] ==>
              r == Err(TypeError(SeriesIntMessage))
    ensures ColumnIndex(Columns(header), "label_id").Some? && ColumnIndex(Columns(header), "glb_node").Some? &&
            !(DuplicateColumn(Columns(header), "label_id") && rows != []) ==>
              r == PairsGlb(CellPairs(rows, ColumnIndex(Columns(header), "label_id").value,
                                      ColumnIndex(Columns(header), "glb_node").value))
  {
    var cols := Columns(header);
    var idCol := ColumnIndex(cols, "label_id");
    var nodeCol := ColumnIndex(cols, "glb_node");
    if idCol.None? || nodeCol.None? {
      return Err(AssertionError(GlbColumnsMessage));
    }
    if DuplicateColumn(cols, "label_id") && rows != [] {
      return Err(TypeError(SeriesIntMessage));
    }
    r := GroupPairs(CellPairs(rows, idCol.value, nodeCol.value));
  }

  /** The row loop of `read_lut_to_glb_csv` over (id cell, node cell) pairs. */
  method GroupPairs(ps: seq<(string, string)>) returns (r: Result<map<int, seq<string>>>)
    ensures r.Err? <==> exists i :: 0 <= i < |ps| && ParseInt(ps[i].0).None?
    ensures r.Err? ==> r.error == ValueError(BadIntMessage)
    ensures r.Ok? ==> r.value == GroupRows(ps, |ps|)
  {
    var out: map<int, seq<string>> := map[];
    var i := 0;
    while i < |ps|
      invariant 0 <= i <= |ps|
      invariant IdsParse(ps, i)
      invariant out == GroupRows(ps, i)
    {
      var lid := ParseInt(ps[i].0);
      if lid.None? {
        assert ParseInt(ps[i].0).None?;
        return Err(ValueError(BadIntMessage));
      }
      var node := Strip(ps[i].1);
      GroupRowsStep(ps, i, lid.value);
      if node != [] {
        out := out[lid.value := (if lid.value in out then out[lid.value] else []) + [node]];
      }
      i := i + 1;
    }
    IdsParseAll(ps, i);
    return Ok(out);
  }

  /** The id cells of the first `n` pairs all parse. */
  predicate IdsParse(ps: seq<(string, string)>, n: nat)
    requires n <= |ps|
  {
    n == 0 || (IdsParse(ps, n - 1) && ParseInt(ps[n - 1].0).Some?)
  }

  lemma {:induction false} IdsParseAll(ps: seq<(string, string)>, n: nat)
    requires n <= |ps|
    ensures IdsParse(ps, n) <==> forall j :: 0 <= j < n ==> ParseInt(ps[j].0).Some?
  {
    if n > 0 {
      IdsParseAll(ps, n - 1);
    }
  }

  lemma GroupRowsStep(ps: seq<(string, string)>, i: nat, lid: int)
    requires i < |ps| && ParseInt(ps[i].0) == Some(lid)
    ensures var g := GroupRows(ps, i);
            GroupRows(ps, i + 1) ==
              if Strip(ps[i].1) == [] then g else g[lid := (if lid in g then g[lid] else []) + [Strip(ps[i].1)]]
  {
  }

  /** The grouped lists are never empty and hold only stripped, non-empty nodes. */
  lemma GroupRowsNonEmpty(ps: seq<(string, string)>, lid: int)
    requires lid in GroupRows(ps, |ps|)
    ensures GroupRows(ps, |ps|)[lid] != []
    ensures forall k :: 0 <= k < |GroupRows(ps, |ps|)[lid]| ==>
              GroupRows(ps, |ps|)[lid][k] != [] && Strip(GroupRows(ps, |ps|)[lid][k]) == GroupRows(ps, |ps|)[lid][k]
  {
    GroupRowsSpec(ps, |ps|, lid);
    NodesForStripped(ps, |ps|, lid);
  }

  lemma {:induction false} NodesForStripped(ps: seq<(string, string)>, n: nat, lid: int)
    requires n <= |ps|
    ensures forall k :: 0 <= k < |NodesFor(ps, n, lid)| ==>
              NodesFor(ps, n, lid)[k] != [] && Strip(NodesFor(ps, n, lid)[k]) == NodesFor(ps, n, lid)[k]
  {
    if n > 0 {
      var init := NodesFor(ps, n - 1, lid);
      NodesForStripped(ps, n - 1, lid);
      var t := Strip(ps[n - 1].1);
      if ParseInt(ps[n - 1].0) == Some(lid) && t != [] {
        StripNoop(t);
        forall k | 0 <= k < |init| + 1 ensures (init + [t])[k] != [] && Strip((init + [t])[k]) == (init + [t])[k] {
          if k < |init| { assert (init + [t])[k] == init[k]; }
        }
      }
    }
  }
}
