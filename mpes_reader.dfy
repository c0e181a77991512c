/** The older single-wave reader of the photoemission plugin: every file's axes, payload and
    units go under fixed, un-prefixed keys of `ibw_data`, and `ibw_attrs` is the note of the
    file read last. The note parser, the ramp and the unit concatenation are the ones of the
    current plugin (`Notes.ParseNote`, `Axis.AxisFrom`, `Axis.AxisUnitsFrom`). */
module MpesReader {
  import opened Wrappers
  import opened Text
  import opened Values
  import opened Wave
  import opened Axis
  import opened Notes
  import opened Normalize

  /** `f"axis{dim}/@units"`. */
  function UnitsKey(d: nat): string
  {
    DimName(d) + "/@units"
  }

  /** `ibw_data` after the dimension loop has run over the first `n` dimensions of `w`: each
      dimension, populated or not, writes its ramp and then its units. */
  function WithDims(m: map<string, Value>, w: Wave, n: nat): map<string, Value>
    requires n <= |w.nDim|
  {
    if n == 0 then m
    else WithDims(m, w, n - 1)[DimName(n - 1) := Coords(AxisFrom(w, n - 1))]
                              [UnitsKey(n - 1) := Str(Concat(w.dimUnits[n - 1]))]
  }

  /** `ibw_data` after one file: the dimension loop, then `data` and `data/@units`. */
  function WithWave(m: map<string, Value>, w: Wave): map<string, Value>
  {
    WithDims(m, w, |w.nDim|)["data" := Array(w.wData)]["data/@units" := Str(w.dataUnits)]
  }

  /** The keys the dimension loop writes over the first `n` dimensions. */
  function DimKeys(n: nat): set<string>
  {
    if n == 0 then {} else DimKeys(n - 1) + {DimName(n - 1), UnitsKey(n - 1)}
  }

  /** The keys one file writes. */
  function WaveKeys(w: Wave): set<string>
  {
    DimKeys(|w.nDim|) + {"data", "data/@units"}
  }

  /** The two stores `post_process` fills. */
  datatype Stores = Stores(data: map<string, Value>, attrs: map<string, string>)

  /** `post_process` over the files, in order; `load` stands for the decoder. */
  function PostProcessRun(s: Stores, files: seq<string>, load: string -> Wave): Stores
  {
    if files == [] then s
    else
      var before := PostProcessRun(s, files[..|files| - 1], load);
      AfterFile(before, load(files[|files| - 1]))
  }

  /** The stores after reading one more file: its note replaces `ibw_attrs`, its writes go
      over `ibw_data`. */
  function AfterFile(s: Stores, w: Wave): Stores
  {
    Stores(WithWave(s.data, w), NotesOf(Tokens(w.note)))
  }

  // ---- the keys ---------------------------------------------------------------------------

  /** `axis<d>` holds no `/`, and its second letter is `x`. */
  lemma DimNameShape(d: nat)
    ensures '/' !in DimName(d) && |DimName(d)| > 1 && DimName(d)[1] == 'x'
  {
    NatTextDigits(d);
    var s := DimName(d);
    forall i | 0 <= i < |s|
      ensures s[i] != '/'
    {
      if i >= 4 {
        assert s[i] == NatText(d)[i - 4];
      }
    }
  }

  /** No `axis<d>` is a units key. */
  lemma DimNotUnits(d: nat, e: nat)
    ensures DimName(d) != UnitsKey(e)
  {
    DimNameShape(d);
    DimNameShape(e);
    assert UnitsKey(e)[|DimName(e)|] == '/';
  }

  /** Different dimensions have different keys. */
  lemma DimKeysInjective(d: nat, e: nat)
    ensures DimName(d) == DimName(e) ==> d == e
    ensures UnitsKey(d) == UnitsKey(e) ==> d == e
  {
    if DimName(d) == DimName(e) {
      DimNameInjective(d, e);
    }
    if UnitsKey(d) == UnitsKey(e) {
      DimNameShape(d);
      DimNameShape(e);
      assert |DimName(d)| == |DimName(e)|;
      assert DimName(d) == UnitsKey(d)[..|DimName(d)|];
      assert DimName(e) == UnitsKey(e)[..|DimName(e)|];
      DimNameInjective(d, e);
    }
  }

  /** The dimension keys are not the payload keys. */
  lemma DimNotPayload(d: nat)
    ensures DimName(d) != "data" && DimName(d) != "data/@units"
    ensures UnitsKey(d) != "data" && UnitsKey(d) != "data/@units"
  {
    DimNameShape(d);
    assert UnitsKey(d)[1] == 'x';
  }

  /** `axis<d>` is written by the loop over `n` dimensions exactly when `d < n`. */
  lemma {:induction false} DimKeysHasDim(n: nat, d: nat)
    ensures DimName(d) in DimKeys(n) <==> d < n
  {
    if n > 0 {
      DimKeysHasDim(n - 1, d);
      DimNotUnits(d, n - 1);
      DimKeysInjective(d, n - 1);
      InAddTwo(DimKeys(n - 1), DimName(n - 1), UnitsKey(n - 1), DimName(d));
    }
  }

  /** `axis<d>/@units` is written by the loop over `n` dimensions exactly when `d < n`. */
  lemma {:induction false} DimKeysHasUnits(n: nat, d: nat)
    ensures UnitsKey(d) in DimKeys(n) <==> d < n
  {
    if n > 0 {
      DimKeysHasUnits(n - 1, d);
      DimNotUnits(n - 1, d);
      DimKeysInjective(d, n - 1);
      InAddTwo(DimKeys(n - 1), DimName(n - 1), UnitsKey(n - 1), UnitsKey(d));
    }
  }

  /** Membership in a set with two more keys. */
  lemma InAddTwo(a: set<string>, b: string, c: string, x: string)
    ensures x in a + {b, c} <==> x in a || x == b || x == c
  {
  }

  // ---- one file ---------------------------------------------------------------------------

  /** The dimension loop adds its keys to the old ones. */
  lemma {:induction false} WithDimsKeys(m: map<string, Value>, w: Wave, n: nat)
    requires n <= |w.nDim|
    ensures WithDims(m, w, n).Keys == m.Keys + DimKeys(n)
  {
    if n > 0 {
      WithDimsKeys(m, w, n - 1);
      UpdateTwoKeys(WithDims(m, w, n - 1), DimName(n - 1), Coords(AxisFrom(w, n - 1)),
                    UnitsKey(n - 1), Str(Concat(w.dimUnits[n - 1])));
      UnionRegroup(WithDims(m, w, n - 1).Keys, m.Keys, DimKeys(n - 1), {DimName(n - 1), UnitsKey(n - 1)});
    }
  }

  /** Two updates add their two keys. */
  lemma UpdateTwoKeys(m: map<string, Value>, k1: string, v1: Value, k2: string, v2: Value)
    ensures m[k1 := v1][k2 := v2].Keys == m.Keys + {k1, k2}
  {
  }

  lemma UnionRegroup(x: set<string>, a: set<string>, b: set<string>, c: set<string>)
    requires x == a + b
    ensures x + c == a + (b + c)
  {
  }

  /** A key the dimension loop does not write keeps its value. */
  lemma {:induction false} WithDimsOther(m: map<string, Value>, w: Wave, n: nat, k: string)
    requires n <= |w.nDim| && k in m && k !in DimKeys(n)
    ensures k in WithDims(m, w, n) && WithDims(m, w, n)[k] == m[k]
  {
    if n > 0 {
      WithDimsOther(m, w, n - 1, k);
    }
  }

  /** One more dimension leaves the keys it does not write as they were. */
  lemma WithDimsKeep(m: map<string, Value>, w: Wave, n: nat, k: string)
    requires 0 < n <= |w.nDim|
    requires k in WithDims(m, w, n - 1) && k != DimName(n - 1) && k != UnitsKey(n - 1)
    ensures k in WithDims(m, w, n) && WithDims(m, w, n)[k] == WithDims(m, w, n - 1)[k]
  {
    UpdateTwoOther(WithDims(m, w, n - 1), DimName(n - 1), Coords(AxisFrom(w, n - 1)),
                   UnitsKey(n - 1), Str(Concat(w.dimUnits[n - 1])), k);
  }

  /** One more dimension leaves the ramp of an earlier one as it was. */
  lemma WithDimsKeepAxis(m: map<string, Value>, w: Wave, n: nat, d: nat)
    requires d < n - 1 && n <= |w.nDim| && DimName(d) in WithDims(m, w, n - 1)
    ensures DimName(d) in WithDims(m, w, n)
    ensures WithDims(m, w, n)[DimName(d)] == WithDims(m, w, n - 1)[DimName(d)]
  {
    DimKeysInjective(d, n - 1);
    DimNotUnits(d, n - 1);
    WithDimsKeep(m, w, n, DimName(d));
  }

  /** One more dimension leaves the units of an earlier one as they were. */
  lemma WithDimsKeepUnits(m: map<string, Value>, w: Wave, n: nat, d: nat)
    requires d < n - 1 && n <= |w.nDim| && UnitsKey(d) in WithDims(m, w, n - 1)
    ensures UnitsKey(d) in WithDims(m, w, n)
    ensures WithDims(m, w, n)[UnitsKey(d)] == WithDims(m, w, n - 1)[UnitsKey(d)]
  {
    DimKeysInjective(d, n - 1);
    DimNotUnits(n - 1, d);
    WithDimsKeep(m, w, n, UnitsKey(d));
  }

  /** Dimension `n - 1` holds what the last step wrote. */
  lemma WithDimsLast(m: map<string, Value>, w: Wave, n: nat)
    requires 0 < n <= |w.nDim|
    ensures DimName(n - 1) in WithDims(m, w, n)
    ensures WithDims(m, w, n)[DimName(n - 1)] == Coords(AxisFrom(w, n - 1))
    ensures UnitsKey(n - 1) in WithDims(m, w, n)
    ensures WithDims(m, w, n)[UnitsKey(n - 1)] == Str(Concat(w.dimUnits[n - 1]))
  {
    DimNotUnits(n - 1, n - 1);
    UpdateTwoFirst(WithDims(m, w, n - 1), DimName(n - 1), Coords(AxisFrom(w, n - 1)),
                   UnitsKey(n - 1), Str(Concat(w.dimUnits[n - 1])));
  }

  /** Dimension `d` holds its ramp once the loop has passed it. */
  lemma {:induction false} WithDimsAxis(m: map<string, Value>, w: Wave, n: nat, d: nat)
    requires d < n <= |w.nDim|
    ensures DimName(d) in WithDims(m, w, n)
    ensures WithDims(m, w, n)[DimName(d)] == Coords(AxisFrom(w, d))
  {
    if d < n - 1 {
      WithDimsAxis(m, w, n - 1, d);
      WithDimsKeepAxis(m, w, n, d);
    } else {
      WithDimsLast(m, w, n);
    }
  }

  /** Dimension `d` holds its units once the loop has passed it. */
  lemma {:induction false} WithDimsUnits(m: map<string, Value>, w: Wave, n: nat, d: nat)
    requires d < n <= |w.nDim|
    ensures UnitsKey(d) in WithDims(m, w, n)
    ensures WithDims(m, w, n)[UnitsKey(d)] == Str(Concat(w.dimUnits[d]))
  {
    if d < n - 1 {
      WithDimsUnits(m, w, n - 1, d);
      WithDimsKeepUnits(m, w, n, d);
    } else {
      WithDimsLast(m, w, n);
    }
  }

  /** Two updates at other keys leave a key as it was. */
  lemma UpdateTwoOther(m: map<string, Value>, k1: string, v1: Value, k2: string, v2: Value, j: string)
    requires j in m && j != k1 && j != k2
    ensures j in m[k1 := v1][k2 := v2] && m[k1 := v1][k2 := v2][j] == m[j]
  {
  }

  /** The first of two updates at different keys survives the second. */
  lemma UpdateTwoFirst(m: map<string, Value>, k1: string, v1: Value, k2: string, v2: Value)
    requires k1 != k2
    ensures k1 in m[k1 := v1][k2 := v2] && m[k1 := v1][k2 := v2][k1] == v1
    ensures k2 in m[k1 := v1][k2 := v2] && m[k1 := v1][k2 := v2][k2] == v2
  {
  }

  /** One file's payload writes over the dimension loop's result. */
  lemma WithWaveShape(m: map<string, Value>, w: Wave)
    ensures WithWave(m, w) == WithDims(m, w, |w.nDim|)["data" := Array(w.wData)]
                                                      ["data/@units" := Str(w.dataUnits)]
  {
  }

  /** After one file, dimension `d` below its dimension count holds the file's ramp and
      units. */
  lemma WithWaveDim(m: map<string, Value>, w: Wave, d: nat)
    requires d < |w.nDim|
    ensures var out := WithWave(m, w);
      && DimName(d) in out && out[DimName(d)] == Coords(AxisFrom(w, d))
      && UnitsKey(d) in out && out[UnitsKey(d)] == Str(Concat(w.dimUnits[d]))
  {
    var dims := WithDims(m, w, |w.nDim|);
    WithWaveShape(m, w);
    WithDimsAxis(m, w, |w.nDim|, d);
    WithDimsUnits(m, w, |w.nDim|, d);
    DimNotPayload(d);
    UpdateTwoOther(dims, "data", Array(w.wData), "data/@units", Str(w.dataUnits), DimName(d));
    UpdateTwoOther(dims, "data", Array(w.wData), "data/@units", Str(w.dataUnits), UnitsKey(d));
  }

  /** After one file, a key it does not write keeps its earlier value. */
  lemma WithWaveOther(m: map<string, Value>, w: Wave, k: string)
    requires k in m && k !in WaveKeys(w)
    ensures k in WithWave(m, w) && WithWave(m, w)[k] == m[k]
  {
    var dims := WithDims(m, w, |w.nDim|);
    WithWaveShape(m, w);
    WithDimsOther(m, w, |w.nDim|, k);
    UpdateTwoOther(dims, "data", Array(w.wData), "data/@units", Str(w.dataUnits), k);
  }

  /** After one file, `data` and `data/@units` hold its payload and units, every dimension
      index below the wave's dimension count holds the wave's ramp and units, and any other
      key keeps the value an earlier file left. */
  lemma WithWaveValues(m: map<string, Value>, w: Wave)
    ensures var out := WithWave(m, w);
      && out.Keys == m.Keys + WaveKeys(w)
      && out["data"] == Array(w.wData) && out["data/@units"] == Str(w.dataUnits)
      && (forall d :: 0 <= d < |w.nDim| ==>
            && DimName(d) in out && out[DimName(d)] == Coords(AxisFrom(w, d))
            && UnitsKey(d) in out && out[UnitsKey(d)] == Str(Concat(w.dimUnits[d])))
      && (forall k :: k in m && k !in WaveKeys(w) ==> out[k] == m[k])
  {
    var dims := WithDims(m, w, |w.nDim|);
    WithWaveShape(m, w);
    WithDimsKeys(m, w, |w.nDim|);
    UpdateTwoFirst(dims, "data", Array(w.wData), "data/@units", Str(w.dataUnits));
    forall d | 0 <= d < |w.nDim|
      ensures && DimName(d) in WithWave(m, w)
              && WithWave(m, w)[DimName(d)] == Coords(AxisFrom(w, d))
              && UnitsKey(d) in WithWave(m, w)
              && WithWave(m, w)[UnitsKey(d)] == Str(Concat(w.dimUnits[d]))
    {
      WithWaveDim(m, w, d);
    }
    forall k | k in m && k !in WaveKeys(w)
      ensures k in WithWave(m, w) && WithWave(m, w)[k] == m[k]
    {
      WithWaveOther(m, w, k);
    }
  }

  // ---- several files ----------------------------------------------------------------------

  /** With at least one file, `ibw_attrs` is the note of the last file alone, and the last
      file's payload, units, ramps and dimension units are what `ibw_data` holds under its
      keys. */
  lemma LastFileWins(s: Stores, files: seq<string>, load: string -> Wave)
    requires files != []
    ensures var out := PostProcessRun(s, files, load);
      var w := load(files[|files| - 1]);
      && out.attrs == NotesOf(Tokens(w.note))
      && "data" in out.data && out.data["data"] == Array(w.wData)
      && "data/@units" in out.data && out.data["data/@units"] == Str(w.dataUnits)
      && (forall d :: 0 <= d < |w.nDim| ==>
            && DimName(d) in out.data && out.data[DimName(d)] == Coords(AxisFrom(w, d))
            && UnitsKey(d) in out.data && out.data[UnitsKey(d)] == Str(Concat(w.dimUnits[d])))
  {
    var w := load(files[|files| - 1]);
    WithWaveValues(PostProcessRun(s, files[..|files| - 1], load).data, w);
    forall d | 0 <= d < |w.nDim|
      ensures DimName(d) in WaveKeys(w) && UnitsKey(d) in WaveKeys(w)
    {
      DimKeysHasDim(|w.nDim|, d);
      DimKeysHasUnits(|w.nDim|, d);
    }
  }

  /** `ibw_data` is never cleared: when the last file has fewer dimensions than an earlier
      one, the axes of the higher dimensions keep the earlier file's values. */
  lemma HigherDimsPersist(s: Stores, files: seq<string>, load: string -> Wave, d: nat)
    requires files != []
    requires d >= |load(files[|files| - 1]).nDim|
    ensures var before := PostProcessRun(s, files[..|files| - 1], load).data;
      var out := PostProcessRun(s, files, load).data;
      && (DimName(d) in out <==> DimName(d) in before)
      && (DimName(d) in before ==> out[DimName(d)] == before[DimName(d)])
      && (UnitsKey(d) in out <==> UnitsKey(d) in before)
      && (UnitsKey(d) in before ==> out[UnitsKey(d)] == before[UnitsKey(d)])
  {
    var w := load(files[|files| - 1]);
    WithWaveValues(PostProcessRun(s, files[..|files| - 1], load).data, w);
    DimKeysHasDim(|w.nDim|, d);
    DimKeysHasUnits(|w.nDim|, d);
    DimNotPayload(d);
  }

  /** One more file is one more `AfterFile`. */
  lemma PostProcessRunSnoc(s: Stores, files: seq<string>, f: string, load: string -> Wave)
    ensures PostProcessRun(s, files + [f], load) == AfterFile(PostProcessRun(s, files, load), load(f))
  {
    assert (files + [f])[..|files|] == files;
  }

  /** Without files, nothing changes. */
  lemma NoFilesNoChange(s: Stores, load: string -> Wave)
    ensures PostProcessRun(s, [], load) == s
  {
  }

  // ---- the reader -------------------------------------------------------------------------

  /** The dimension loop and the payload writes of one file. */
  method PutWave(m: map<string, Value>, w: Wave) returns (r: map<string, Value>)
    ensures r == WithWave(m, w)
  {
    r := m;
    var d: nat := 0;
    while d < |w.nDim|
      invariant d <= |w.nDim|
      invariant r == WithDims(m, w, d)
    {
      var axis := AxisFrom(w, d);
      var units := AxisUnitsFrom(w, d);
      r := r[DimName(d) := Coords(axis)][UnitsKey(d) := Str(units)];
      assert r == WithDims(m, w, d + 1);
      d := d + 1;
    }
    r := r["data" := Array(w.wData)];
    r := r["data/@units" := Str(w.dataUnits)];
  }

  /** One iteration of `post_process`. */
  method ReadFile(s: Stores, w: Wave) returns (r: Stores)
    ensures r == AfterFile(s, w)
  {
    var attrs := ParseNote(w.note);
    var data := PutWave(s.data, w);
    r := Stores(data, attrs);
  }

  class IgorReader {
    var configFile: Option<string>
    var ibwFiles: seq<string>
    var ibwData: map<string, Value>
    var ibwAttrs: map<string, string>

    function Current(): Stores
      reads this
    {
      Stores(ibwData, ibwAttrs)
    }

    constructor ()
      ensures configFile == None && ibwFiles == [] && ibwData == map[] && ibwAttrs == map[]
    {
      configFile := None;
      ibwFiles := [];
      ibwData := map[];
      ibwAttrs := map[];
    }

    /** A later configuration file replaces an earlier one, although the source logs that
        it skips it. */
    method SetConfigFile(path: string)
      modifies this`configFile
      ensures configFile == Some(path)
    {
      configFile := Some(path);
    }

    method CollectIbwFile(path: string)
      modifies this`ibwFiles
      ensures ibwFiles == old(ibwFiles) + [path]
    {
      ibwFiles := ibwFiles + [path];
    }

    /** `get_data`: the value under the path itself, with no entry prefix. */
    method GetData(path: string) returns (v: Option<Value>)
      ensures path in ibwData ==> v == Some(ibwData[path])
      ensures path !in ibwData ==> v == None
    {
      v := if path in ibwData then Some(ibwData[path]) else None;
    }

    /** `get_attr`: the note value under the path itself. */
    method GetAttr(path: string) returns (v: Option<string>)
      ensures path in ibwAttrs ==> v == Some(ibwAttrs[path])
      ensures path !in ibwAttrs ==> v == None
    {
      v := if path in ibwAttrs then Some(ibwAttrs[path]) else None;
    }

    /** `post_process`: every collected file in order. */
    method PostProcess(load: string -> Wave)
      modifies this`ibwData, this`ibwAttrs
      ensures Current() == PostProcessRun(old(Current()), ibwFiles, load)
    {
      var i := 0;
      while i < |ibwFiles|
        invariant 0 <= i <= |ibwFiles|
        invariant Current() == PostProcessRun(old(Current()), ibwFiles[..i], load)
      {
        assert ibwFiles[..i + 1] == ibwFiles[..i] + [ibwFiles[i]];
        PostProcessRunSnoc(old(Current()), ibwFiles[..i], ibwFiles[i], load);
        var next := ReadFile(Current(), load(ibwFiles[i]));
        ibwData, ibwAttrs := next.data, next.attrs;
        i := i + 1;
      }
      assert ibwFiles[..i] == ibwFiles;
    }
  }
}
