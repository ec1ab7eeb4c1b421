/** `extract_roi_features` (backend/core/features.py): the volume of every
    label of the label table, in ascending label id order, and their total,
    which serves as the intracranial volume. The label grid (the segmentation
    image's voxels, flattened) and the volume of one voxel are inputs. */
module Features {
  import opened Text
  import opened Collections
  import opened Predict

  /** `np.count_nonzero(arr == lid)`. */
  function Count(grid: seq<int>, lid: int): nat
  {
    if grid == [] then 0
    else Count(grid[..|grid| - 1], lid) + (if grid[|grid| - 1] == lid then 1 else 0)
  }

  /** The number of voxels whose label is one of `ids`. */
  function CountIn(grid: seq<int>, ids: set<int>): nat
  {
    if grid == [] then 0
    else CountIn(grid[..|grid| - 1], ids) + (if grid[|grid| - 1] in ids then 1 else 0)
  }

  /** `c * v` for a count `c`, written as `c` copies of `v` added up. */
  function Scale(c: nat, v: real): real
  {
    if c == 0 then 0.0 else Scale(c - 1, v) + v
  }

  lemma {:induction false} ScaleIsProduct(c: nat, v: real)
    ensures Scale(c, v) == c as real * v
  {
    if c > 0 { ScaleIsProduct(c - 1, v); }
  }

  lemma {:induction false} ScaleAdd(a: nat, b: nat, v: real)
    ensures Scale(a + b, v) == Scale(a, v) + Scale(b, v)
    decreases b
  {
    if b > 0 { ScaleAdd(a, b - 1, v); }
  }

  /** `cnt * vox_mm3`. */
  method LabelVolume(cnt: nat, voxelVolume: real) returns (vol: real)
    ensures vol == Scale(cnt, voxelVolume)
  {
    vol := cnt as real * voxelVolume;
    ScaleIsProduct(cnt, voxelVolume);
  }

  function Sum(xs: seq<real>): real
  {
    if xs == [] then 0.0 else Sum(xs[..|xs| - 1]) + xs[|xs| - 1]
  }

  /** The volume of each of the first `n` labels of `ids`, in that order. */
  function Volumes(grid: seq<int>, voxelVolume: real, ids: seq<int>, n: nat): (vols: seq<real>)
    requires n <= |ids|
    ensures |vols| == n
  {
    if n == 0 then []
    else Volumes(grid, voxelVolume, ids, n - 1) + [Scale(Count(grid, ids[n - 1]), voxelVolume)]
  }

  /** The dictionary `{key(lid): volume}` filled with the first `n` labels of
      `ids`, a later label overwriting an earlier one with the same key. */
  function KeyedVolumes(grid: seq<int>, voxelVolume: real, ids: seq<int>, n: nat, key: int -> string): map<string, real>
    requires n <= |ids|
  {
    if n == 0 then map[]
    else KeyedVolumes(grid, voxelVolume, ids, n - 1, key)[key(ids[n - 1]) := Scale(Count(grid, ids[n - 1]), voxelVolume)]
  }

  /** `{f"vol_{lid}": volume}` filled with the first `n` labels of `ids`. */
  function VolumeMap(grid: seq<int>, voxelVolume: real, ids: seq<int>, n: nat): map<string, real>
    requires n <= |ids|
  {
    KeyedVolumes(grid, voxelVolume, ids, n, VolName)
  }

  /** The voxels counted for the first `n` labels of `ids`. */
  function CountSum(grid: seq<int>, ids: seq<int>, n: nat): nat
    requires n <= |ids|
  {
    if n == 0 then 0 else CountSum(grid, ids, n - 1) + Count(grid, ids[n - 1])
  }

  /** The first `n` labels of `ids`, as a set. */
  function IdSet(ids: seq<int>, n: nat): set<int>
    requires n <= |ids|
  {
    if n == 0 then {} else IdSet(ids, n - 1) + {ids[n - 1]}
  }

  /** `sorted(lut.keys())`. */
  ghost function LabelIds(lut: map<int, string>): seq<int>
  {
    IntLessIsStrictTotalOrder();
    SortedSeq(lut.Keys, IntLess)
  }

  /** The two shapes of the result, chosen by `return_type`. */
  datatype RoiFeatures = VolArray(vols: seq<real>) | VolDict(byName: map<string, real>)

  /** The features come out in ascending label id order, one per label of the
      table, and the total counts exactly the voxels whose label is in the
      table, each for one voxel volume. */
  method ExtractRoiFeatures(grid: seq<int>, voxelVolume: real, lut: map<int, string>, returnType: string)
    returns (features: RoiFeatures, total: real)
    ensures var ids := LabelIds(lut);
            features == if returnType == "dict" then VolDict(VolumeMap(grid, voxelVolume, ids, |ids|))
                        else VolArray(Volumes(grid, voxelVolume, ids, |ids|))
    ensures total == Scale(CountIn(grid, lut.Keys), voxelVolume)
  {
    IntLessIsStrictTotalOrder();
    var ids := SortSet(lut.Keys, IntLess);
    var vols, volDict;
    vols, volDict, total := AccumulateVolumes(grid, voxelVolume, ids);
    TotalCountsLabels(grid, lut);
    if returnType == "dict" {
      features := VolDict(volDict);
    } else {
      features := VolArray(vols);
    }
  }

  /** The loop over the sorted label ids: append each volume, store it under
      `vol_<id>`, and add it to the total. */
  method AccumulateVolumes(grid: seq<int>, voxelVolume: real, ids: seq<int>)
    returns (vols: seq<real>, volDict: map<string, real>, total: real)
    ensures vols == Volumes(grid, voxelVolume, ids, |ids|)
    ensures volDict == VolumeMap(grid, voxelVolume, ids, |ids|)
    ensures total == Scale(CountSum(grid, ids, |ids|), voxelVolume)
  {
    vols := [];
    volDict := map[];
    total := 0.0;
    for j := 0 to |ids|
      invariant vols == Volumes(grid, voxelVolume, ids, j)
      invariant volDict == VolumeMap(grid, voxelVolume, ids, j)
      invariant total == Scale(CountSum(grid, ids, j), voxelVolume)
    {
      var lid := ids[j];
      var cnt := Count(grid, lid);
      var vol := LabelVolume(cnt, voxelVolume);
      ScaleAdd(CountSum(grid, ids, j), cnt, voxelVolume);
      vols := vols + [vol];
      volDict := volDict[VolName(lid) := vol];
      total := total + vol;
    }
  }

  lemma {:induction false} IdSetMembers(ids: seq<int>, n: nat)
    requires n <= |ids|
    ensures forall x :: x in IdSet(ids, n) <==> x in ids[..n]
  {
    if n > 0 {
      IdSetMembers(ids, n - 1);
      assert ids[..n] == ids[..n - 1] + [ids[n - 1]];
    }
  }

  /** A voxel counts towards `ids + {lid}` when it counts towards `ids` or has
      label `lid`. */
  lemma {:induction false} CountInAdd(grid: seq<int>, ids: set<int>, lid: int)
    requires lid !in ids
    ensures CountIn(grid, ids + {lid}) == CountIn(grid, ids) + Count(grid, lid)
  {
    if grid != [] {
      CountInAdd(grid[..|grid| - 1], ids, lid);
    }
  }

  lemma {:induction false} CountInNone(grid: seq<int>)
    ensures CountIn(grid, {}) == 0
  {
    if grid != [] { CountInNone(grid[..|grid| - 1]); }
  }

  /** Adding up the counts of distinct labels counts every voxel carrying one
      of them once: voxels of other labels never contribute. */
  lemma {:induction false} CountSumIn(grid: seq<int>, ids: seq<int>, n: nat)
    requires n <= |ids| && forall i, j :: 0 <= i < j < |ids| ==> ids[i] < ids[j]
    ensures CountSum(grid, ids, n) == CountIn(grid, IdSet(ids, n))
  {
    if n == 0 {
      CountInNone(grid);
    } else {
      CountSumIn(grid, ids, n - 1);
      IdSetMembers(ids, n - 1);
      assert ids[n - 1] !in ids[..n - 1];
      CountInAdd(grid, IdSet(ids, n - 1), ids[n - 1]);
    }
  }

  /** Over the sorted label ids, adding up the per-label counts counts the
      voxels whose label is in the table. */
  lemma TotalCountsLabels(grid: seq<int>, lut: map<int, string>)
    ensures var ids := LabelIds(lut);
            CountSum(grid, ids, |ids|) == CountIn(grid, lut.Keys)
  {
    var ids := LabelIds(lut);
    LabelIdsSpec(lut);
    CountSumIn(grid, ids, |ids|);
    IdSetMembers(ids, |ids|);
    assert ids[..|ids|] == ids;
    forall x ensures x in IdSet(ids, |ids|) <==> x in lut.Keys {
      assert x in IdSet(ids, |ids|) <==> x in ids[..|ids|];
      assert x in ids <==> x in lut;
    }
    assert IdSet(ids, |ids|) == lut.Keys;
  }

  /** The total is the sum of the per-label volumes. */
  lemma {:induction false} SumVolumes(grid: seq<int>, voxelVolume: real, ids: seq<int>, n: nat)
    requires n <= |ids|
    ensures Sum(Volumes(grid, voxelVolume, ids, n)) == Scale(CountSum(grid, ids, n), voxelVolume)
  {
    if n > 0 {
      SumVolumes(grid, voxelVolume, ids, n - 1);
      var vols := Volumes(grid, voxelVolume, ids, n);
      assert vols[..n - 1] == Volumes(grid, voxelVolume, ids, n - 1);
      ScaleAdd(CountSum(grid, ids, n - 1), Count(grid, ids[n - 1]), voxelVolume);
    }
  }

  /** Entry `i` is the volume of label `ids[i]`: its voxel count times the
      volume of one voxel. */
  lemma {:induction false} VolumesAt(grid: seq<int>, voxelVolume: real, ids: seq<int>, n: nat, i: nat)
    requires i < n <= |ids|
    ensures Volumes(grid, voxelVolume, ids, n)[i] == Scale(Count(grid, ids[i]), voxelVolume)
  {
    if i < n - 1 {
      VolumesAt(grid, voxelVolume, ids, n - 1, i);
    }
  }

  /** Every key of the dictionary was written for one of the labels. */
  lemma {:induction false} KeyedOrigin(grid: seq<int>, voxelVolume: real, ids: seq<int>, n: nat, key: int -> string, name: string)
    returns (i: nat)
    requires n <= |ids| && name in KeyedVolumes(grid, voxelVolume, ids, n, key)
    ensures i < n && name == key(ids[i])
  {
    if name == key(ids[n - 1]) {
      i := n - 1;
    } else {
      i := KeyedOrigin(grid, voxelVolume, ids, n - 1, key, name);
    }
  }

  /** Every label's key is a key of the dictionary. */
  lemma {:induction false} KeyedHasKey(grid: seq<int>, voxelVolume: real, ids: seq<int>, n: nat, key: int -> string, i: nat)
    requires i < n <= |ids|
    ensures key(ids[i]) in KeyedVolumes(grid, voxelVolume, ids, n, key)
  {
    if i < n - 1 {
      KeyedHasKey(grid, voxelVolume, ids, n - 1, key, i);
    }
  }

  /** When the labels' keys are distinct, each label's key holds its volume. */
  lemma {:induction false} KeyedAt(grid: seq<int>, voxelVolume: real, ids: seq<int>, n: nat, key: int -> string, i: nat)
    requires forall a, b :: 0 <= a < b < |ids| ==> key(ids[a]) != key(ids[b])
    requires i < n <= |ids|
    ensures key(ids[i]) in KeyedVolumes(grid, voxelVolume, ids, n, key)
    ensures KeyedVolumes(grid, voxelVolume, ids, n, key)[key(ids[i])] == Scale(Count(grid, ids[i]), voxelVolume)
  {
    if i < n - 1 {
      KeyedAt(grid, voxelVolume, ids, n - 1, key, i);
    }
  }

  /** The dictionary form has exactly the keys `vol_<id>` for the labels. */
  lemma VolumeMapKeys(grid: seq<int>, voxelVolume: real, ids: seq<int>, n: nat, name: string)
    requires n <= |ids|
    ensures name in VolumeMap(grid, voxelVolume, ids, n) <==> exists i :: 0 <= i < n && name == VolName(ids[i])
  {
    if name in VolumeMap(grid, voxelVolume, ids, n) {
      var i := KeyedOrigin(grid, voxelVolume, ids, n, VolName, name);
    } else {
      forall i | 0 <= i < n ensures name != VolName(ids[i]) {
        KeyedHasKey(grid, voxelVolume, ids, n, VolName, i);
      }
    }
  }

  /** For distinct labels, `vol_<id>` holds the same volume as the array
      form's entry for that label. */
  lemma VolumeMapValues(grid: seq<int>, voxelVolume: real, ids: seq<int>, n: nat, i: nat)
    requires Increasing(ids, IntLess)
    requires i < n <= |ids|
    ensures VolName(ids[i]) in VolumeMap(grid, voxelVolume, ids, n)
    ensures VolumeMap(grid, voxelVolume, ids, n)[VolName(ids[i])] == Volumes(grid, voxelVolume, ids, n)[i]
  {
    forall a, b | 0 <= a < b < |ids| ensures VolName(ids[a]) != VolName(ids[b]) {
      assert IntLess(ids[a], ids[b]);
      VolNameInjective(ids[a], ids[b]);
    }
    KeyedAt(grid, voxelVolume, ids, n, VolName, i);
    VolumesAt(grid, voxelVolume, ids, n, i);
  }

  /** The labels are exactly the table's, in strictly ascending order. */
  lemma LabelIdsSpec(lut: map<int, string>)
    ensures var ids := LabelIds(lut);
            && (forall lid :: lid in ids <==> lid in lut)
            && (forall i, j :: 0 <= i < j < |ids| ==> ids[i] < ids[j])
  {
    IntLessIsStrictTotalOrder();
  }
}
