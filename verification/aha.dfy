/** The AHA segment table (backend/core/aha.py): the names of the 16 segments
    of the American Heart Association's 17-segment model of the left
    ventricle (the apex, segment 17, is not used), and the numbering of the
    bins: three rings from base to apex with 6, 6 and 4 sectors, numbered
    consecutively from 1. The geometry of each bin (its voxel mask) is not
    part of this model; a bin is known by its ring and sector. */
module Aha {

  /** `AHA16_NAMES`. */
  const Aha16Names: map<int, string> := map[
    1 := "Basal Anterior", 2 := "Basal Anteroseptal", 3 := "Basal Inferoseptal",
    4 := "Basal Inferior", 5 := "Basal Inferolateral", 6 := "Basal Anterolateral",
    7 := "Mid Anterior", 8 := "Mid Anteroseptal", 9 := "Mid Inferoseptal",
    10 := "Mid Inferior", 11 := "Mid Inferolateral", 12 := "Mid Anterolateral",
    13 := "Apical Anterior", 14 := "Apical Septal", 15 := "Apical Inferior", 16 := "Apical Lateral"]

  /** `aha16_names_map()`: a copy of the table, which the caller may change
      without touching the table. */
  function Aha16NamesMap(): (m: map<int, string>)
    ensures forall id :: id in m <==> 1 <= id <= 16
    ensures forall id :: id in m ==> m[id] == Aha16Names[id]
  {
    Aha16Names
  }

  /** The sectors of each ring, from base to apex. */
  const RingSizes: seq<nat> := [6, 6, 4]

  /** The first word of the names of a ring's segments. */
  const RingNames: seq<string> := ["Basal", "Mid", "Apical"]

  /** The number of bins in the rings before `ring`. */
  function Offset(ring: nat): nat
    requires ring <= |RingSizes|
  {
    if ring == 0 then 0 else Offset(ring - 1) + RingSizes[ring - 1]
  }

  /** A bin: the ring it lies in and its sector within the ring. */
  datatype Bin = Bin(ring: nat, sector: nat)

  predicate ValidBin(b: Bin)
  {
    b.ring < |RingSizes| && b.sector < RingSizes[b.ring]
  }

  /** The id a bin gets. */
  function BinId(b: Bin): int
    requires ValidBin(b)
  {
    Offset(b.ring) + b.sector + 1
  }

  /** The numbering loop of `aha16_bins`: `ridx` starts at 1 and goes up by
      one for each sector of each ring in turn. The result holds exactly the
      ids 1..16, each for the bin that numbering gives it. */
  method Aha16Bins() returns (segs: map<int, Bin>)
    ensures forall id :: id in segs <==> 1 <= id <= 16
    ensures forall id :: id in segs ==> ValidBin(segs[id]) && BinId(segs[id]) == id
  {
    segs := map[];
    var ridx := 1;
    for ring := 0 to |RingSizes|
      invariant ridx == Offset(ring) + 1
      invariant forall id :: id in segs <==> 1 <= id < ridx
      invariant forall id :: id in segs ==> ValidBin(segs[id]) && BinId(segs[id]) == id
    {
      for sector := 0 to RingSizes[ring]
        invariant ridx == Offset(ring) + sector + 1
        invariant forall id :: id in segs <==> 1 <= id < ridx
        invariant forall id :: id in segs ==> ValidBin(segs[id]) && BinId(segs[id]) == id
      {
        segs := segs[ridx := Bin(ring, sector)];
        ridx := ridx + 1;
      }
    }
    assert Offset(3) == 16;
  }

  /** No two bins share an id, and within a ring the ids grow with the
      sector. */
  lemma BinIdOrder(a: Bin, b: Bin)
    requires ValidBin(a) && ValidBin(b)
    ensures BinId(a) == BinId(b) ==> a == b
    ensures a.ring == b.ring && a.sector < b.sector ==> BinId(a) < BinId(b)
    ensures a.ring < b.ring ==> BinId(a) < BinId(b)
  {
    assert Offset(1) == 6 && Offset(2) == 12;
  }

  /** Whether `name` starts with `prefix`. */
  predicate HasPrefix(name: string, prefix: string)
  {
    |prefix| <= |name| && name[..|prefix|] == prefix
  }

  lemma BasalNames(id: int)
    requires 1 <= id <= 6
    ensures id in Aha16Names && HasPrefix(Aha16Names[id], "Basal ")
  {
    if id == 1 {
      assert Aha16Names[id] == "Basal Anterior";
    } else if id == 2 {
      assert Aha16Names[id] == "Basal Anteroseptal";
    } else if id == 3 {
      assert Aha16Names[id] == "Basal Inferoseptal";
    } else if id == 4 {
      assert Aha16Names[id] == "Basal Inferior";
    } else if id == 5 {
      assert Aha16Names[id] == "Basal Inferolateral";
    } else if id == 6 {
      assert Aha16Names[id] == "Basal Anterolateral";
    }
  }

  lemma MidNames(id: int)
    requires 7 <= id <= 12
    ensures id in Aha16Names && HasPrefix(Aha16Names[id], "Mid ")
  {
    if id == 7 {
      assert Aha16Names[id] == "Mid Anterior";
    } else if id == 8 {
      assert Aha16Names[id] == "Mid Anteroseptal";
    } else if id == 9 {
      assert Aha16Names[id] == "Mid Inferoseptal";
    } else if id == 10 {
      assert Aha16Names[id] == "Mid Inferior";
    } else if id == 11 {
      assert Aha16Names[id] == "Mid Inferolateral";
    } else if id == 12 {
      assert Aha16Names[id] == "Mid Anterolateral";
    }
  }

  lemma ApicalNames(id: int)
    requires 13 <= id <= 16
    ensures id in Aha16Names && HasPrefix(Aha16Names[id], "Apical ")
  {
    if id == 13 {
      assert Aha16Names[id] == "Apical Anterior";
    } else if id == 14 {
      assert Aha16Names[id] == "Apical Septal";
    } else if id == 15 {
      assert Aha16Names[id] == "Apical Inferior";
    } else if id == 16 {
      assert Aha16Names[id] == "Apical Lateral";
    }
  }

  /** The ids of a ring are the ones its names are given under: 1-6 basal,
      7-12 mid, 13-16 apical. */
  lemma BinNamesMatchRings(b: Bin)
    requires ValidBin(b)
    ensures BinId(b) in Aha16Names
    ensures HasPrefix(Aha16Names[BinId(b)], RingNames[b.ring] + " ")
  {
    assert Offset(1) == 6 && Offset(2) == 12;
    var id := BinId(b);
    if b.ring == 0 {
      BasalNames(id);
    } else if b.ring == 1 {
      MidNames(id);
    } else {
      ApicalNames(id);
    }
  }

  /** The table names 16 distinct segments. */
  lemma Aha16NamesDistinct(a: int, b: int)
    requires a in Aha16Names && b in Aha16Names && a != b
    ensures Aha16Names[a] != Aha16Names[b]
  {
  }
}
