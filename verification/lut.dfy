/** `load_lut` (backend/core/lut.py): a label table as `{label_id: label_name}`,
    read either as a headered CSV (`label_id,label_name,...`) or as MALPEM raw
    text (`<id> R G B 1 1 <name...>`, possibly after an `IrtkSegmentTable`
    banner line). The file system and the csv module are inputs: whether the
    file exists, what `csv.Sniffer`/`csv.reader` made of it (nothing, when they
    raised), and the file's lines. */
module Lut {
  import opened Wrappers
  import opened Text
  import opened Collections

  /** What the csv module produced: the sniffer's header verdict and the rows. */
  datatype CsvView = CsvView(hasHeader: bool, rows: seq<seq<string>>)

  // ---------------------------------------------------------------------------
  // Headered CSV branch
  // ---------------------------------------------------------------------------

  /** The headered branch is taken only when the sniffer saw a header and the
      first header cell mentions `label_id`, in any letter case. */
  predicate UsesHeader(csv: Option<CsvView>)
  {
    csv.Some? && csv.value.hasHeader && |csv.value.rows| > 0
    && |csv.value.rows[0]| > 0 && Contains(Lower(csv.value.rows[0][0]), "label_id")
  }

  /** A data row: skipped when it has fewer than two cells or its first cell is
      not an integer; otherwise the id and the stripped second cell. */
  function HeaderedEntry(row: seq<string>): Option<(int, string)>
  {
    if |row| < 2 then None
    else match ParseInt(row[0])
      case None => None
      case Some(lid) => Some((lid, Strip(row[1])))
  }

  /** The dict the headered loop builds from the data rows (all rows after the header). */
  function HeaderedLut(data: seq<seq<string>>): map<int, string>
  {
    BuildMap(Kept(data, HeaderedEntry))
  }

  method ParseHeadered(data: seq<seq<string>>) returns (out: map<int, string>)
    ensures out == HeaderedLut(data)
  {
    out := map[];
    var i := 0;
    while i < |data|
      invariant 0 <= i <= |data|
      invariant out == BuildMap(Kept(data[..i], HeaderedEntry))
    {
      var row := data[i];
      assert data[..i + 1] == data[..i] + [row];
      KeptSnoc(data[..i], row, HeaderedEntry);
      if |row| >= 2 {
        var lid := ParseInt(row[0]);
        if lid.Some? {
          var name := Strip(row[1]);
          BuildMapSnoc(Kept(data[..i], HeaderedEntry), (lid.value, name));
          out := out[lid.value := name];
        }
      }
      i := i + 1;
    }
    assert data[..i] == data;
  }

  // ---------------------------------------------------------------------------
  // Raw MALPEM text branch
  // ---------------------------------------------------------------------------

  /** `ln.strip()` for the lines that are not blank. */
  function NonBlank(ln: string): Option<string>
  {
    var t := Strip(ln);
    if t == [] then None else Some(t)
  }

  /** One leading banner line starting with `irtksegmenttable` (any case) is dropped. */
  function DropBanner(lines: seq<string>): seq<string>
  {
    if lines != [] && StartsWith(Lower(lines[0]), "irtksegmenttable") then lines[1..] else lines
  }

  /** The name of a raw line split into `parts`: the tokens from the seventh on
      when there are at least seven, else every token after the id; joined by
      single spaces. */
  function RawName(parts: seq<string>): string
    requires |parts| >= 1
  {
    Strip(if |parts| >= 7 then JoinSpace(parts[6..]) else JoinSpace(parts[1..]))
  }

  /** A raw line: skipped with fewer than three tokens or a non-integer first token. */
  function RawEntry(ln: string): Option<(int, string)>
  {
    var parts := Words(ln);
    if |parts| < 3 then None
    else match ParseInt(parts[0])
      case None => None
      case Some(lid) => Some((lid, RawName(parts)))
  }

  /** `ln` is a raw line the loop keeps, with id `lid`. */
  predicate RawLineId(ln: string, lid: int)
  {
    |Words(ln)| >= 3 && ParseInt(Words(ln)[0]) == Some(lid)
  }

  lemma RawEntryId(ln: string)
    ensures RawEntry(ln).Some? <==> |Words(ln)| >= 3 && ParseInt(Words(ln)[0]).Some?
    ensures RawEntry(ln).Some? ==>
              RawLineId(ln, RawEntry(ln).value.0) && RawEntry(ln).value.1 == RawName(Words(ln))
  {
  }

  /** The lines the raw loop visits. */
  function RawLines(fileLines: seq<string>): seq<string>
  {
    DropBanner(Kept(fileLines, NonBlank))
  }

  function RawLut(fileLines: seq<string>): map<int, string>
  {
    BuildMap(Kept(RawLines(fileLines), RawEntry))
  }

  method ParseRaw(fileLines: seq<string>) returns (lut: map<int, string>)
    ensures lut == RawLut(fileLines)
  {
    var lines := Kept(fileLines, NonBlank);
    lines := DropBanner(lines);
    lut := map[];
    var i := 0;
    while i < |lines|
      invariant 0 <= i <= |lines|
      invariant lut == BuildMap(Kept(lines[..i], RawEntry))
    {
      var ln := lines[i];
      assert lines[..i + 1] == lines[..i] + [ln];
      KeptSnoc(lines[..i], ln, RawEntry);
      RawEntryId(ln);
      var parts := Words(ln);
      if |parts| >= 3 {
        var lid := ParseInt(parts[0]);
        if lid.Some? {
          var name := RawName(parts);
          assert RawEntry(ln) == Some((lid.value, name));
          BuildMapSnoc(Kept(lines[..i], RawEntry), (lid.value, name));
          lut := lut[lid.value := name];
        }
      }
      i := i + 1;
    }
    assert lines[..i] == lines;
  }

  // ---------------------------------------------------------------------------
  // load_lut
  // ---------------------------------------------------------------------------

  /** The message prefix of a missing LUT. The source formats the path as a
      `Path`, which drops repeated and trailing slashes; here the path is
      given as it was passed in. */
  const MissingLut := "LUT not found: "

  /** A missing file fails before anything is parsed; the headered result is
      returned only when the headered branch applies and found entries;
      otherwise the raw parse decides, and an empty raw parse is an error. */
  method LoadLut(path: string, fileExists: bool, csv: Option<CsvView>, fileLines: seq<string>)
    returns (r: Result<map<int, string>>)
    ensures !fileExists ==> r == Err(FileNotFound(MissingLut + path))
    ensures fileExists && UsesHeader(csv) && HeaderedLut(csv.value.rows[1..]) != map[]
            ==> r == Ok(HeaderedLut(csv.value.rows[1..]))
    ensures fileExists && !(UsesHeader(csv) && HeaderedLut(csv.value.rows[1..]) != map[])
            ==> r == if RawLut(fileLines) == map[] then Err(ValueError("empty raw lut"))
                     else Ok(RawLut(fileLines))
    ensures r.Ok? ==> r.value != map[]
  {
    if !fileExists {
      return Err(FileNotFound(MissingLut + path));
    }
    if UsesHeader(csv) {
      var out := ParseHeadered(csv.value.rows[1..]);
      if out != map[] {
        return Ok(out);
      }
    }
    var lut := ParseRaw(fileLines);
    if lut == map[] {
      return Err(ValueError("empty raw lut"));
    }
    return Ok(lut);
  }

  // ---------------------------------------------------------------------------
  // What the two parsers promise
  // ---------------------------------------------------------------------------

  /** An id is in the headered result exactly when some data row with at least
      two cells has it as its integer first cell. */
  lemma HeaderedLutKeys(data: seq<seq<string>>, lid: int)
    ensures lid in HeaderedLut(data) <==>
            exists i :: 0 <= i < |data| && |data[i]| >= 2 && ParseInt(data[i][0]) == Some(lid)
  {
    KeptMapKeys(data, HeaderedEntry, lid);
    if lid in HeaderedLut(data) {
      var i :| 0 <= i < |data| && HeaderedEntry(data[i]).Some? && HeaderedEntry(data[i]).value.0 == lid;
      assert |data[i]| >= 2 && ParseInt(data[i][0]) == Some(lid);
    } else {
      forall i | 0 <= i < |data| && |data[i]| >= 2 ensures ParseInt(data[i][0]) != Some(lid) {
        assert HeaderedEntry(data[i]).Some? ==> HeaderedEntry(data[i]).value.0 != lid;
      }
    }
  }

  /** A later row with the same id overwrites: the name stored is the stripped
      second cell of the last row carrying that id. */
  lemma HeaderedLastRowWins(data: seq<seq<string>>, i: nat, lid: int)
    requires i < |data| && |data[i]| >= 2 && ParseInt(data[i][0]) == Some(lid)
    requires forall j :: i < j < |data| && |data[j]| >= 2 ==> ParseInt(data[j][0]) != Some(lid)
    ensures lid in HeaderedLut(data) && HeaderedLut(data)[lid] == Strip(data[i][1])
  {
    KeptMapLastWins(data, HeaderedEntry, i);
  }

  /** An id is in the raw result exactly when some visited line (non-blank,
      stripped, banner dropped) has at least three tokens and that integer first. */
  lemma RawLutKeys(fileLines: seq<string>, lid: int)
    ensures lid in RawLut(fileLines) <==>
            exists i :: 0 <= i < |RawLines(fileLines)| && RawLineId(RawLines(fileLines)[i], lid)
  {
    var lines := RawLines(fileLines);
    KeptMapKeys(lines, RawEntry, lid);
    if lid in RawLut(fileLines) {
      var i :| 0 <= i < |lines| && RawEntry(lines[i]).Some? && RawEntry(lines[i]).value.0 == lid;
      RawEntryId(lines[i]);
    } else {
      forall i | 0 <= i < |lines| ensures !RawLineId(lines[i], lid) {
        RawEntryId(lines[i]);
      }
    }
  }

  /** The raw name stored for an id is that of the last visited line with that id. */
  lemma RawLastLineWins(fileLines: seq<string>, i: nat, lid: int)
    requires i < |RawLines(fileLines)| && RawLineId(RawLines(fileLines)[i], lid)
    requires forall j :: i < j < |RawLines(fileLines)| ==> !RawLineId(RawLines(fileLines)[j], lid)
    ensures lid in RawLut(fileLines)
    ensures RawLut(fileLines)[lid] == RawName(Words(RawLines(fileLines)[i]))
  {
    var lines := RawLines(fileLines);
    RawEntryId(lines[i]);
    forall j | i < j < |lines| && RawEntry(lines[j]).Some?
      ensures RawEntry(lines[j]).value.0 != lid
    {
      RawEntryId(lines[j]);
    }
    KeptMapLastWins(lines, RawEntry, i);
  }

  /** Every line the raw loop visits is non-blank and already stripped. */
  lemma RawLinesAreStrippedNonBlank(fileLines: seq<string>)
    ensures forall i :: 0 <= i < |RawLines(fileLines)| ==>
              RawLines(fileLines)[i] != [] && Strip(RawLines(fileLines)[i]) == RawLines(fileLines)[i]
  {
    KeptNonBlank(fileLines);
  }

  lemma {:induction false} KeptNonBlank(fileLines: seq<string>)
    ensures forall i :: 0 <= i < |Kept(fileLines, NonBlank)| ==>
              Kept(fileLines, NonBlank)[i] != [] && Strip(Kept(fileLines, NonBlank)[i]) == Kept(fileLines, NonBlank)[i]
  {
    if fileLines != [] {
      var init := fileLines[..|fileLines| - 1];
      var last := fileLines[|fileLines| - 1];
      KeptNonBlank(init);
      assert fileLines == init + [last];
      KeptSnoc(init, last, NonBlank);
      var t := Strip(last);
      if t != [] {
        StripNoop(t);
        var k := Kept(init, NonBlank);
        assert Kept(fileLines, NonBlank) == k + [t];
        forall i | 0 <= i < |k| + 1 ensures (k + [t])[i] != [] && Strip((k + [t])[i]) == (k + [t])[i] {
          if i < |k| { assert (k + [t])[i] == k[i]; }
        }
      }
    }
  }
}
