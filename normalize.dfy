/** What both modes of the reader share: the entry configuration, the names and keys of the
    axis fields, the writes one entry makes to the output stores, and what those writes leave
    in the stores. */
module Normalize {
  import opened Wrappers
  import opened Text
  import opened Values
  import opened Wave
  import opened Store

  /** One entry's configuration: `data`, `data_errors`, `data_units`, `axis<d>`,
      `axis<d>_name`, `axis<d>_units` and `metadata`, each optional. */
  type Config = map<string, Value>

  /** The reader's state that normalization reads and writes: the two output stores and the
      configured entries, in insertion order. */
  datatype State = State(
    data: map<string, Value>,
    attrs: map<string, Value>,
    order: seq<string>,
    entries: map<string, Config>)

  /** A finished step: the new state and the exception that ended it, if any. The state holds
      every write made before the exception, as the Python object does. */
  datatype Outcome = Outcome(st: State, err: Option<Error>)

  /** `order` lists the keys of `entries` once each, as a dict's iteration does. */
  predicate EntriesValid(order: seq<string>, entries: map<string, Config>)
  {
    && (forall i :: 0 <= i < |order| ==> order[i] in entries)
    && (forall n :: n in entries ==> n in order)
    && (forall i, j :: 0 <= i < j < |order| ==> order[i] != order[j])
  }

  /** The state invariant normalization relies on: the entry order lists the configured
      entries, and every configured axis name can be printed. */
  ghost predicate Consistent(st: State)
  {
    EntriesValid(st.order, st.entries) && forall n :: n in st.entries ==> NamesDisplayable(st.entries[n])
  }

  /** Where `entries[name] = ...` puts a name in the iteration order. */
  function Register(order: seq<string>, name: string): (r: seq<string>)
    ensures name in r
  {
    if name in order then order else order + [name]
  }

  lemma RegisterValid(order: seq<string>, entries: map<string, Config>, name: string, cfg: Config)
    requires EntriesValid(order, entries)
    ensures EntriesValid(Register(order, name), entries[name := cfg])
  {
  }

  /** `f"axis{d}"`. */
  function DimName(d: nat): string
  {
    "axis" + NatText(d)
  }

  /** Different dimensions have different default names. */
  lemma DimNameInjective(d1: nat, d2: nat)
    requires DimName(d1) == DimName(d2)
    ensures d1 == d2
  {
    CancelPrefix("axis", NatText(d1), NatText(d2));
    NatTextInjective(d1, d2);
  }

  /** The configured name of axis `d`, else `axis<d>`. */
  function AxisNameOf(cfg: Config, d: nat): Value
  {
    var key := DimName(d) + "_name";
    if key in cfg then cfg[key] else Str(DimName(d))
  }

  /** Every axis name the configuration can supply has a `str()` this model spells out. */
  ghost predicate NamesDisplayable(cfg: Config)
  {
    forall d: nat :: Displayable(AxisNameOf(cfg, d))
  }

  /** The units axis `d` ends up with: the configured `axis<d>_units`, else those of the
      axis source. */
  function AxisUnits(cfg: Config, d: nat, sourceUnits: Value): Value
  {
    var key := DimName(d) + "_units";
    if key in cfg then cfg[key] else sourceUnits
  }

  /** The units the payload ends up with: the configured `data_units`, else the wave's. */
  function DataUnits(cfg: Config, w: Wave): Value
  {
    if "data_units" in cfg then cfg["data_units"] else Str(w.dataUnits)
  }

  /** `f"{entry}/{name}{suffix}"`. */
  function Field(entry: string, name: string, suffix: string): string
  {
    entry + "/" + name + suffix
  }

  predicate IsAxisSuffix(s: string)
  {
    s == ".data" || s == ".units" || s == ".index"
  }

  /** The writes for one populated dimension, in source order: coordinates, units from the
      source, the configured units over them, and the dimension index. `source` is the pair
      (coordinates, units) that the dimension's axis comes from. */
  function AxisWrites(entry: string, cfg: Config, d: nat, source: (Value, Value)): seq<Write>
    requires Displayable(AxisNameOf(cfg, d))
  {
    var name := Display(AxisNameOf(cfg, d));
    var unitsKey := DimName(d) + "_units";
    [(Field(entry, name, ".data"), source.0), (Field(entry, name, ".units"), source.1)]
    + (if unitsKey in cfg then [(Field(entry, name, ".units"), cfg[unitsKey])] else [])
    + [(Field(entry, name, ".index"), Int(d))]
  }

  /** The writes of the dimension loop over the first `n` dimensions: only dimensions with a
      positive element count write anything. */
  function Axes(entry: string, cfg: Config, w: Wave, sources: seq<(Value, Value)>, n: nat): seq<Write>
    requires n <= |w.nDim| && |sources| == |w.nDim| && NamesDisplayable(cfg)
  {
    if n == 0 then []
    else
      Axes(entry, cfg, w, sources, n - 1)
      + (if w.nDim[n - 1] > 0 then AxisWrites(entry, cfg, n - 1, sources[n - 1]) else [])
  }

  /** One more dimension of the loop. */
  lemma AxesSnoc(entry: string, cfg: Config, w: Wave, sources: seq<(Value, Value)>, d: nat)
    requires d < |w.nDim| && |sources| == |w.nDim| && NamesDisplayable(cfg)
    ensures w.nDim[d] > 0 ==>
      Axes(entry, cfg, w, sources, d + 1) == Axes(entry, cfg, w, sources, d) + AxisWrites(entry, cfg, d, sources[d])
    ensures w.nDim[d] <= 0 ==> Axes(entry, cfg, w, sources, d + 1) == Axes(entry, cfg, w, sources, d)
  {
    assert Axes(entry, cfg, w, sources, d) + [] == Axes(entry, cfg, w, sources, d);
  }

  /** The dimensions with a positive element count among the first `n`, in increasing order. */
  function PositiveDims(w: Wave, n: nat): (r: seq<nat>)
    requires n <= |w.nDim|
    ensures forall d: nat :: d in r <==> d < n && w.nDim[d] > 0
    ensures forall i, j :: 0 <= i < j < |r| ==> r[i] < r[j]
  {
    if n == 0 then []
    else
      var front := PositiveDims(w, n - 1);
      assert forall i :: 0 <= i < |front| ==> front[i] in front;
      front + (if w.nDim[n - 1] > 0 then [n - 1] else [])
  }

  /** The `dims` list: the axis name of every populated dimension, in dimension order. */
  function AxisNames(cfg: Config, w: Wave, n: nat): seq<Value>
    requires n <= |w.nDim|
  {
    if n == 0 then []
    else AxisNames(cfg, w, n - 1) + (if w.nDim[n - 1] > 0 then [AxisNameOf(cfg, n - 1)] else [])
  }

  /** One more dimension of the loop appends its name when it is populated. */
  lemma AxisNamesSnoc(cfg: Config, w: Wave, d: nat)
    requires d < |w.nDim|
    ensures w.nDim[d] > 0 ==> AxisNames(cfg, w, d + 1) == AxisNames(cfg, w, d) + [AxisNameOf(cfg, d)]
    ensures w.nDim[d] <= 0 ==> AxisNames(cfg, w, d + 1) == AxisNames(cfg, w, d)
  {
    assert AxisNames(cfg, w, d) + [] == AxisNames(cfg, w, d);
  }

  /** `dims` names exactly the populated dimensions, in increasing order. */
  lemma {:induction false} AxisNamesPositive(cfg: Config, w: Wave, n: nat)
    requires n <= |w.nDim|
    ensures |AxisNames(cfg, w, n)| == |PositiveDims(w, n)|
    ensures forall i :: 0 <= i < |AxisNames(cfg, w, n)| ==>
      AxisNames(cfg, w, n)[i] == AxisNameOf(cfg, PositiveDims(w, n)[i])
  {
    if n > 0 {
      AxisNamesPositive(cfg, w, n - 1);
      AxisNamesSnoc(cfg, w, n - 1);
      var names, dims := AxisNames(cfg, w, n - 1), PositiveDims(w, n - 1);
      if w.nDim[n - 1] > 0 {
        assert PositiveDims(w, n) == dims + [n - 1];
        SnocIndex(names, AxisNameOf(cfg, n - 1));
        SnocIndex(dims, n - 1);
      } else {
        assert PositiveDims(w, n) == dims + [];
      }
    }
  }

  /** The closing writes of an entry: `dims`, `data` and `data.units`. */
  function PayloadWrites(entry: string, cfg: Config, w: Wave): seq<Write>
  {
    [(entry + "/dims", List(AxisNames(cfg, w, |w.nDim|))),
     (entry + "/data", Array(w.wData)),
     (entry + "/data.units", DataUnits(cfg, w))]
  }

  /** Everything one entry writes to `self.data`: its axes, then `extra` (the error array in
      archive mode), then the closing writes. */
  function EntryWrites(entry: string, cfg: Config, w: Wave, sources: seq<(Value, Value)>,
                       extra: seq<Write>): seq<Write>
    requires |sources| == |w.nDim| && NamesDisplayable(cfg)
  {
    Axes(entry, cfg, w, sources, |w.nDim|) + extra + PayloadWrites(entry, cfg, w)
  }

  /** An entry's writes in their three stages. */
  lemma EntryWritesStages(m: map<string, Value>, entry: string, cfg: Config, w: Wave,
                          sources: seq<(Value, Value)>, extra: seq<Write>)
    requires |sources| == |w.nDim| && NamesDisplayable(cfg)
    ensures Apply(m, EntryWrites(entry, cfg, w, sources, extra)) ==
            Apply(Apply(Apply(m, Axes(entry, cfg, w, sources, |w.nDim|)), extra), PayloadWrites(entry, cfg, w))
  {
    var axes := Axes(entry, cfg, w, sources, |w.nDim|);
    ApplyConcat(m, axes + extra, PayloadWrites(entry, cfg, w));
    ApplyConcat(m, axes, extra);
  }

  /** `f"{entry}/note/{key}"`. */
  function NoteKey(entry: string, k: string): string
  {
    entry + "/note/" + k
  }

  lemma NoteKeyInjective(entry: string)
    ensures forall j, k :: NoteKey(entry, j) == NoteKey(entry, k) ==> j == k
  {
    PrefixInjective(entry + "/note/");
  }

  /** `attrs[f"{entry}/note/{key}"] = val` for every parsed note pair. */
  function NoteAttrs(entry: string, notes: map<string, string>): map<string, Value>
  {
    NoteKeyInjective(entry);
    map k | k in notes :: NoteKey(entry, k) := Str(notes[k])
  }

  /** One more note pair adds one attribute. */
  lemma NoteAttrsAdd(entry: string, notes: map<string, string>, k: string, v: string)
    ensures NoteAttrs(entry, notes[k := v]) == NoteAttrs(entry, notes)[NoteKey(entry, k) := Str(v)]
  {
    var bigger := NoteAttrs(entry, notes[k := v]);
    var updated := NoteAttrs(entry, notes)[NoteKey(entry, k) := Str(v)];
    NoteAttrsAddKeys(entry, notes, k, v);
    NoteAttrsAddValues(entry, notes, k, v, bigger, updated);
  }

  /** Writing one more note pair over a store holding some pairs. */
  lemma NotePairStep(base: map<string, Value>, entry: string, done: map<string, string>, k: string, v: string)
    ensures (base + NoteAttrs(entry, done))[NoteKey(entry, k) := Str(v)] == base + NoteAttrs(entry, done[k := v])
  {
    NoteAttrsAdd(entry, done, k, v);
    var merged := base + NoteAttrs(entry, done);
    assert merged[NoteKey(entry, k) := Str(v)] == base + NoteAttrs(entry, done)[NoteKey(entry, k) := Str(v)];
  }

  /** Before the loop over the note pairs: nothing written yet. */
  lemma NotesNoneDone(m: map<string, Value>, entry: string, notes: map<string, string>)
    ensures m + NoteAttrs(entry, notes - notes.Keys) == m
  {
    assert notes - notes.Keys == map[];
  }

  /** Taking key `k` off the pairs still to write. */
  lemma NotesOneMoreDone(notes: map<string, string>, keys: set<string>, k: string)
    requires k in keys && keys <= notes.Keys
    ensures (notes - keys)[k := notes[k]] == notes - (keys - {k})
  {
  }

  /** After the loop over the note pairs: every pair written. */
  lemma NotesAllDone(notes: map<string, string>)
    ensures notes - {} == notes
  {
  }

  lemma NoteAttrsAddKeys(entry: string, notes: map<string, string>, k: string, v: string)
    ensures NoteAttrs(entry, notes[k := v]).Keys == NoteAttrs(entry, notes)[NoteKey(entry, k) := Str(v)].Keys
  {
    NoteKeyInjective(entry);
  }

  lemma NoteAttrsAddValues(entry: string, notes: map<string, string>, k: string, v: string,
                           bigger: map<string, Value>, updated: map<string, Value>)
    requires bigger == NoteAttrs(entry, notes[k := v])
    requires updated == NoteAttrs(entry, notes)[NoteKey(entry, k) := Str(v)]
    requires bigger.Keys == updated.Keys
    ensures forall key :: key in bigger ==> bigger[key] == updated[key]
  {
    NoteKeyInjective(entry);
  }

  /** `attrs[f"{entry}/{key}"] = val` for the metadata items, in order. */
  function MetadataWrites(entry: string, items: seq<(string, Value)>): seq<Write>
  {
    seq(|items|, i requires 0 <= i < |items| => (entry + "/" + items[i].0, items[i].1))
  }

  /** The metadata copy that ends an entry: nothing without `metadata`, the items of a dict,
      and `AttributeError` (no `.items()`) for any other value. */
  function WithMetadata(attrs: map<string, Value>, entry: string, cfg: Config)
    : (map<string, Value>, Option<Error>)
  {
    if "metadata" !in cfg then (attrs, None)
    else
      match cfg["metadata"]
      case Dict(items) => (Apply(attrs, MetadataWrites(entry, items)), None)
      case _ => (attrs, Some(AttributeError))
  }

  /** The populated dimensions carry pairwise different axis names. */
  predicate DistinctNames(cfg: Config, w: Wave)
    requires NamesDisplayable(cfg)
  {
    forall d1, d2 ::
      0 <= d1 < |w.nDim| && 0 <= d2 < |w.nDim| && d1 != d2 && w.nDim[d1] > 0 && w.nDim[d2] > 0
      ==> Display(AxisNameOf(cfg, d1)) != Display(AxisNameOf(cfg, d2))
  }

  /** No populated dimension is named `data`, whose `.units` field is the payload's. */
  predicate NoDataName(cfg: Config, w: Wave)
    requires NamesDisplayable(cfg)
  {
    forall d :: 0 <= d < |w.nDim| && w.nDim[d] > 0 ==> Display(AxisNameOf(cfg, d)) != "data"
  }

  // ---- key arithmetic -------------------------------------------------------------------

  lemma CancelPrefix(p: string, x: string, y: string)
    requires p + x == p + y
    ensures x == y
  {
    assert x == (p + x)[|p|..];
    assert y == (p + y)[|p|..];
  }

  /** Different tails stay different behind a common prefix. */
  lemma PrefixApart(p: string, x: string, y: string)
    ensures x != y ==> p + x != p + y
  {
    if p + x == p + y {
      CancelPrefix(p, x, y);
    }
  }

  lemma PrefixInjective(p: string)
    ensures forall x, y :: p + x == p + y ==> x == y
  {
    forall x, y | p + x == p + y
      ensures x == y
    {
      CancelPrefix(p, x, y);
    }
  }

  /** The three axis suffixes end in different letters, so a name and a suffix are read back
      from their concatenation. */
  lemma SuffixedInjective(a: string, s1: string, b: string, s2: string)
    requires IsAxisSuffix(s1) && IsAxisSuffix(s2) && a + s1 == b + s2
    ensures a == b && s1 == s2
  {
    var x := a + s1;
    assert x[|x| - 1] == s1[|s1| - 1] && x[|x| - 1] == (b + s2)[|x| - 1] == s2[|s2| - 1];
    assert s1 == s2;
    assert a == x[..|a|] && b == (b + s2)[..|b|];
  }

  /** Axis fields of an entry are equal only when names and suffixes are. */
  lemma FieldInjective(entry: string, a: string, s1: string, b: string, s2: string)
    requires IsAxisSuffix(s1) && IsAxisSuffix(s2) && Field(entry, a, s1) == Field(entry, b, s2)
    ensures a == b && s1 == s2
  {
    assert Field(entry, a, s1) == (entry + "/") + (a + s1);
    assert Field(entry, b, s2) == (entry + "/") + (b + s2);
    CancelPrefix(entry + "/", a + s1, b + s2);
    SuffixedInjective(a, s1, b, s2);
  }

  /** The three fields of axis `name`. */
  function AxisFields(entry: string, name: string): set<string>
  {
    {Field(entry, name, ".data"), Field(entry, name, ".units"), Field(entry, name, ".index")}
  }

  /** Two differently named axes share no field. */
  lemma FieldNotOfOther(entry: string, name: string, other: string, s: string)
    requires IsAxisSuffix(s) && name != other
    ensures Field(entry, name, s) !in AxisFields(entry, other)
  {
    forall s' | IsAxisSuffix(s') && Field(entry, name, s) == Field(entry, other, s')
      ensures false
    {
      FieldInjective(entry, name, s, other, s');
    }
  }

  /** An axis field is none of the entry's closing keys, except `data.units` for an axis
      named `data`. */
  lemma FieldNotPayload(entry: string, a: string, s: string)
    requires IsAxisSuffix(s)
    ensures Field(entry, a, s) != entry + "/dims"
    ensures Field(entry, a, s) != entry + "/data"
    ensures Field(entry, a, s) != entry + "/data.errors"
    ensures a != "data" ==> Field(entry, a, s) != entry + "/data.units"
  {
    var p := entry + "/";
    SuffixedNotPayload(a, s);
    PrefixApart(p, a + s, "dims");
    PrefixApart(p, a + s, "data");
    PrefixApart(p, a + s, "data.errors");
    PrefixApart(p, a + s, "data.units");
    assert Field(entry, a, s) == p + (a + s);
    assert entry + "/dims" == p + "dims" && entry + "/data" == p + "data";
    assert entry + "/data.errors" == p + "data.errors" && entry + "/data.units" == p + "data.units";
  }

  /** The name-and-suffix part of an axis field is none of the closing key names. */
  lemma SuffixedNotPayload(a: string, s: string)
    requires IsAxisSuffix(s)
    ensures a + s != "dims" && a + s != "data" && a + s != "data.errors"
    ensures a != "data" ==> a + s != "data.units"
  {
    var t := a + s;
    assert |t| > 4;
    if |t| == 11 {
      if s == ".units" {
        assert t[5] == '.';
      } else {
        assert t[10] != 's';
      }
    }
    if t == "data.units" {
      SuffixedInjective(a, s, "data", ".units");
    }
  }


  lemma PayloadKeysDistinct(entry: string)
    ensures entry + "/dims" != entry + "/data" && entry + "/dims" != entry + "/data.units"
    ensures entry + "/data" != entry + "/data.units"
    ensures entry + "/data.errors" !in {entry + "/dims", entry + "/data", entry + "/data.units"}
  {
    var p := entry + "/";
    PrefixApart(p, "dims", "data");
    PrefixApart(p, "dims", "data.units");
    PrefixApart(p, "data", "data.units");
    PrefixApart(p, "data.errors", "dims");
    PrefixApart(p, "data.errors", "data");
    PrefixApart(p, "data.errors", "data.units");
    assert entry + "/dims" == p + "dims" && entry + "/data" == p + "data";
    assert entry + "/data.errors" == p + "data.errors" && entry + "/data.units" == p + "data.units";
  }

  // ---- what the writes leave in the store -------------------------------------------------

  /** A dimension writes its three axis fields and nothing else. */
  lemma AxisWritesKeys(entry: string, cfg: Config, d: nat, source: (Value, Value))
    requires Displayable(AxisNameOf(cfg, d))
    ensures Keys(AxisWrites(entry, cfg, d, source)) == AxisFields(entry, Display(AxisNameOf(cfg, d)))
  {
    var ws := AxisWrites(entry, cfg, d, source);
    var name := Display(AxisNameOf(cfg, d));
    assert ws[0].0 == Field(entry, name, ".data") && ws[1].0 == Field(entry, name, ".units");
    assert ws[|ws| - 1].0 == Field(entry, name, ".index");
    if DimName(d) + "_units" in cfg {
      assert |ws| == 4 && ws[2].0 == Field(entry, name, ".units");
    }
  }

  /** After one dimension's writes its fields hold the source coordinates, the configured
      units if any (else the source units) and the dimension index. */
  lemma AxisWritesValues(m: map<string, Value>, entry: string, cfg: Config, d: nat, source: (Value, Value))
    requires Displayable(AxisNameOf(cfg, d))
    ensures var out := Apply(m, AxisWrites(entry, cfg, d, source));
      var name := Display(AxisNameOf(cfg, d));
      && Field(entry, name, ".data") in out && out[Field(entry, name, ".data")] == source.0
      && Field(entry, name, ".units") in out
      && out[Field(entry, name, ".units")] == AxisUnits(cfg, d, source.1)
      && Field(entry, name, ".index") in out && out[Field(entry, name, ".index")] == Int(d)
  {
    var name := Display(AxisNameOf(cfg, d));
    var ws := AxisWrites(entry, cfg, d, source);
    var kd, ku, ki := Field(entry, name, ".data"), Field(entry, name, ".units"), Field(entry, name, ".index");
    assert kd != ku && kd != ki && ku != ki by {
      if kd == ku { FieldInjective(entry, name, ".data", name, ".units"); }
      if kd == ki { FieldInjective(entry, name, ".data", name, ".index"); }
      if ku == ki { FieldInjective(entry, name, ".units", name, ".index"); }
    }
    ApplyLastWrite(m, ws, kd);
    ApplyLastWrite(m, ws, ku);
    ApplyLastWrite(m, ws, ki);
    assert ws[0] == (kd, source.0);
    assert ws[|ws| - 1] == (ki, Int(d));
    if DimName(d) + "_units" in cfg {
      assert ws[2] == (ku, cfg[DimName(d) + "_units"]);
    } else {
      assert ws[1] == (ku, source.1);
    }
  }

  /** The fields of the populated dimensions among the first `n`. */
  function AxesFields(entry: string, cfg: Config, w: Wave, n: nat): set<string>
    requires n <= |w.nDim| && NamesDisplayable(cfg)
  {
    if n == 0 then {}
    else
      AxesFields(entry, cfg, w, n - 1)
      + (if w.nDim[n - 1] > 0 then AxisFields(entry, Display(AxisNameOf(cfg, n - 1))) else {})
  }

  /** The fields one more dimension adds to the loop's keys. */
  lemma AxesStepKeys(entry: string, cfg: Config, w: Wave, sources: seq<(Value, Value)>, d: nat)
    requires d < |w.nDim| && |sources| == |w.nDim| && NamesDisplayable(cfg)
    ensures Keys(Axes(entry, cfg, w, sources, d + 1))
         == Keys(Axes(entry, cfg, w, sources, d))
            + (if w.nDim[d] > 0 then AxisFields(entry, Display(AxisNameOf(cfg, d))) else {})
  {
    AxesSnoc(entry, cfg, w, sources, d);
    if w.nDim[d] > 0 {
      KeysConcat(Axes(entry, cfg, w, sources, d), AxisWrites(entry, cfg, d, sources[d]));
      AxisWritesKeys(entry, cfg, d, sources[d]);
    }
  }

  /** The dimension loop writes exactly the fields of the populated dimensions: a dimension
      with no elements produces no field of its own. */
  lemma {:induction false} AxesKeys(entry: string, cfg: Config, w: Wave, sources: seq<(Value, Value)>, n: nat)
    requires n <= |w.nDim| && |sources| == |w.nDim| && NamesDisplayable(cfg)
    ensures Keys(Axes(entry, cfg, w, sources, n)) == AxesFields(entry, cfg, w, n)
  {
    if n > 0 {
      AxesKeys(entry, cfg, w, sources, n - 1);
      AxesStepKeys(entry, cfg, w, sources, n - 1);
    }
  }

  /** A field of a populated dimension `d` belongs to no other populated dimension. */
  lemma {:induction false} FieldNotOfOthers(entry: string, cfg: Config, w: Wave, n: nat, d: nat, s: string)
    requires n <= |w.nDim| && NamesDisplayable(cfg) && DistinctNames(cfg, w)
    requires d < |w.nDim| && w.nDim[d] > 0 && n <= d && IsAxisSuffix(s)
    ensures Field(entry, Display(AxisNameOf(cfg, d)), s) !in AxesFields(entry, cfg, w, n)
  {
    if n > 0 {
      FieldNotOfOthers(entry, cfg, w, n - 1, d, s);
      FieldNotOfNext(entry, cfg, w, n - 1, d, s);
    }
  }

  /** ... nor to dimension `e` below it. */
  lemma FieldNotOfNext(entry: string, cfg: Config, w: Wave, e: nat, d: nat, s: string)
    requires NamesDisplayable(cfg) && DistinctNames(cfg, w)
    requires d < |w.nDim| && w.nDim[d] > 0 && e < d && IsAxisSuffix(s)
    requires Field(entry, Display(AxisNameOf(cfg, d)), s) !in AxesFields(entry, cfg, w, e)
    ensures Field(entry, Display(AxisNameOf(cfg, d)), s) !in AxesFields(entry, cfg, w, e + 1)
  {
    var f := Field(entry, Display(AxisNameOf(cfg, d)), s);
    if w.nDim[e] > 0 {
      var other := Display(AxisNameOf(cfg, e));
      assert Display(AxisNameOf(cfg, d)) != other;
      FieldNotOfOther(entry, Display(AxisNameOf(cfg, d)), other, s);
      NotInUnion(f, AxesFields(entry, cfg, w, e), AxisFields(entry, other));
    } else {
      NotInUnion(f, AxesFields(entry, cfg, w, e), {});
    }
  }

  lemma NotInUnion(x: string, a: set<string>, b: set<string>)
    requires x !in a && x !in b
    ensures x !in a + b
  {
  }

  /** After the dimension loop, each populated dimension's fields hold its coordinates, its
      units (configured units first) and its index, provided no two populated dimensions
      share a name. */
  lemma {:induction false} AxesValues(m: map<string, Value>, entry: string, cfg: Config, w: Wave,
                                      sources: seq<(Value, Value)>, n: nat, d: nat)
    requires d < n <= |w.nDim| && |sources| == |w.nDim| && NamesDisplayable(cfg)
    requires w.nDim[d] > 0 && DistinctNames(cfg, w)
    ensures var out := Apply(m, Axes(entry, cfg, w, sources, n));
      var name := Display(AxisNameOf(cfg, d));
      && Field(entry, name, ".data") in out && out[Field(entry, name, ".data")] == sources[d].0
      && Field(entry, name, ".units") in out
      && out[Field(entry, name, ".units")] == AxisUnits(cfg, d, sources[d].1)
      && Field(entry, name, ".index") in out && out[Field(entry, name, ".index")] == Int(d)
  {
    if n - 1 == d {
      ApplyConcat(m, Axes(entry, cfg, w, sources, d), AxisWrites(entry, cfg, d, sources[d]));
      AxisWritesValues(Apply(m, Axes(entry, cfg, w, sources, d)), entry, cfg, d, sources[d]);
    } else {
      var step := if w.nDim[n - 1] > 0 then AxisWrites(entry, cfg, n - 1, sources[n - 1]) else [];
      var front := Axes(entry, cfg, w, sources, n - 1);
      ApplyConcat(m, front, step);
      AxesValues(m, entry, cfg, w, sources, n - 1, d);
      var name := Display(AxisNameOf(cfg, d));
      if w.nDim[n - 1] > 0 {
        AxisWritesKeys(entry, cfg, n - 1, sources[n - 1]);
        FieldNotOfOther(entry, name, Display(AxisNameOf(cfg, n - 1)), ".data");
        FieldNotOfOther(entry, name, Display(AxisNameOf(cfg, n - 1)), ".units");
        FieldNotOfOther(entry, name, Display(AxisNameOf(cfg, n - 1)), ".index");
      }
      ApplyUntouched(Apply(m, front), step, Field(entry, name, ".data"));
      ApplyUntouched(Apply(m, front), step, Field(entry, name, ".units"));
      ApplyUntouched(Apply(m, front), step, Field(entry, name, ".index"));
    }
  }

  /** The closing writes and the error array leave the axis fields alone (no populated
      dimension is named `data`). */
  lemma AxisFieldSurvives(m: map<string, Value>, entry: string, cfg: Config, w: Wave,
                          sources: seq<(Value, Value)>, extra: seq<Write>, name: string, s: string)
    requires |sources| == |w.nDim| && NamesDisplayable(cfg)
    requires Keys(extra) <= {entry + "/data.errors"}
    requires IsAxisSuffix(s) && name != "data"
    ensures var key := Field(entry, name, s);
      var mid := Apply(m, Axes(entry, cfg, w, sources, |w.nDim|));
      var out := Apply(m, EntryWrites(entry, cfg, w, sources, extra));
      (key in out <==> key in mid) && (key in mid ==> out[key] == mid[key])
  {
    var key := Field(entry, name, s);
    var axes := Axes(entry, cfg, w, sources, |w.nDim|);
    var tail := PayloadWrites(entry, cfg, w);
    ApplyConcat(m, axes + extra, tail);
    ApplyConcat(m, axes, extra);
    FieldNotPayload(entry, name, s);
    ApplyThree(Apply(Apply(m, axes), extra), tail[0], tail[1], tail[2]);
    ApplyUntouched(Apply(m, axes), extra, key);
    ApplyUntouched(Apply(Apply(m, axes), extra), tail, key);
  }

  /** No axis field is `dims` or `data`, nor `data.units` while no populated dimension is
      named `data`. */
  lemma {:induction false} PayloadNotAxisField(entry: string, cfg: Config, w: Wave, n: nat)
    requires n <= |w.nDim| && NamesDisplayable(cfg)
    ensures entry + "/dims" !in AxesFields(entry, cfg, w, n)
    ensures entry + "/data" !in AxesFields(entry, cfg, w, n)
    ensures NoDataName(cfg, w) ==> entry + "/data.units" !in AxesFields(entry, cfg, w, n)
  {
    if n > 0 {
      PayloadNotAxisField(entry, cfg, w, n - 1);
      if w.nDim[n - 1] > 0 {
        var name := Display(AxisNameOf(cfg, n - 1));
        FieldNotPayload(entry, name, ".data");
        FieldNotPayload(entry, name, ".units");
        FieldNotPayload(entry, name, ".index");
      }
    }
  }

  /** The dimension loop, however far it got, leaves `dims` and `data` as they were, and
      `data.units` too while no populated dimension is named `data`. */
  lemma AxesKeepPayload(m: map<string, Value>, entry: string, cfg: Config, w: Wave,
                        sources: seq<(Value, Value)>, n: nat)
    requires n <= |w.nDim| && |sources| == |w.nDim| && NamesDisplayable(cfg)
    ensures var out := Apply(m, Axes(entry, cfg, w, sources, n));
      && Kept(m, out, entry + "/dims") && Kept(m, out, entry + "/data")
      && (NoDataName(cfg, w) ==> Kept(m, out, entry + "/data.units"))
  {
    var writes := Axes(entry, cfg, w, sources, n);
    AxesKeys(entry, cfg, w, sources, n);
    PayloadNotAxisField(entry, cfg, w, n);
    ApplyUntouched(m, writes, entry + "/dims");
    ApplyUntouched(m, writes, entry + "/data");
    if NoDataName(cfg, w) {
      ApplyUntouched(m, writes, entry + "/data.units");
    }
  }

  /** What a whole entry leaves in `self.data` for a populated dimension `d`: its coordinates,
      its units (configured units first) and its index, under the axis name it was given. */
  lemma EntryAxisValues(m: map<string, Value>, entry: string, cfg: Config, w: Wave,
                        sources: seq<(Value, Value)>, extra: seq<Write>, d: nat)
    requires |sources| == |w.nDim| && NamesDisplayable(cfg)
    requires DistinctNames(cfg, w) && NoDataName(cfg, w)
    requires Keys(extra) <= {entry + "/data.errors"}
    requires d < |w.nDim| && w.nDim[d] > 0
    ensures var out := Apply(m, EntryWrites(entry, cfg, w, sources, extra));
      var name := Display(AxisNameOf(cfg, d));
      && Field(entry, name, ".data") in out && out[Field(entry, name, ".data")] == sources[d].0
      && Field(entry, name, ".units") in out
      && out[Field(entry, name, ".units")] == AxisUnits(cfg, d, sources[d].1)
      && Field(entry, name, ".index") in out && out[Field(entry, name, ".index")] == Int(d)
  {
    var name := Display(AxisNameOf(cfg, d));
    AxesValues(m, entry, cfg, w, sources, |w.nDim|, d);
    AxisFieldSurvives(m, entry, cfg, w, sources, extra, name, ".data");
    AxisFieldSurvives(m, entry, cfg, w, sources, extra, name, ".units");
    AxisFieldSurvives(m, entry, cfg, w, sources, extra, name, ".index");
  }

  /** What a whole entry leaves in `self.data` besides its axes: `dims` listing the axis
      names in dimension order, the payload, its units (configured units first) and, when
      one was written, the error array. */
  lemma EntryPayloadValues(m: map<string, Value>, entry: string, cfg: Config, w: Wave,
                           sources: seq<(Value, Value)>, extra: seq<Write>)
    requires |sources| == |w.nDim| && NamesDisplayable(cfg)
    requires |extra| <= 1 && Keys(extra) <= {entry + "/data.errors"}
    ensures var out := Apply(m, EntryWrites(entry, cfg, w, sources, extra));
      && entry + "/dims" in out && out[entry + "/dims"] == List(AxisNames(cfg, w, |w.nDim|))
      && entry + "/data" in out && out[entry + "/data"] == Array(w.wData)
      && entry + "/data.units" in out && out[entry + "/data.units"] == DataUnits(cfg, w)
      && (|extra| == 1 ==> entry + "/data.errors" in out && out[entry + "/data.errors"] == extra[0].1)
  {
    var axes := Axes(entry, cfg, w, sources, |w.nDim|);
    var tail := PayloadWrites(entry, cfg, w);
    ApplyConcat(m, axes + extra, tail);
    ApplyConcat(m, axes, extra);
    var before := Apply(Apply(m, axes), extra);
    PayloadKeysDistinct(entry);
    ApplyThree(before, tail[0], tail[1], tail[2]);
    if |extra| == 1 {
      assert extra == [extra[0]];
      ApplyOne(Apply(m, axes), extra[0]);
    }
  }

  /** Without configured names the default names `axis<d>` meet both hypotheses above. */
  lemma DefaultNames(cfg: Config, w: Wave)
    requires forall d: nat :: DimName(d) + "_name" !in cfg
    ensures NamesDisplayable(cfg) && DistinctNames(cfg, w) && NoDataName(cfg, w)
  {
    forall d1: nat, d2: nat | DimName(d1) == DimName(d2)
      ensures d1 == d2
    {
      DimNameInjective(d1, d2);
    }
    forall d: nat
      ensures DimName(d) != "data"
    {
      assert DimName(d)[1] == 'x';
    }
  }

  /** `ed.get("data", "") == Path(file).name`. */
  predicate Matches(cfg: Config, base: string)
  {
    (if "data" in cfg then cfg["data"] else Str("")) == Str(base)
  }

  /** The position of the first entry, in configuration order, whose `data` is `base`. */
  function FirstMatch(order: seq<string>, entries: map<string, Config>, base: string): (r: Option<nat>)
    requires forall i :: 0 <= i < |order| ==> order[i] in entries
    ensures r.Some? ==> r.value < |order| && Matches(entries[order[r.value]], base)
    ensures r.Some? ==> forall j :: 0 <= j < r.value ==> !Matches(entries[order[j]], base)
    ensures r.None? ==> forall j :: 0 <= j < |order| ==> !Matches(entries[order[j]], base)
  {
    if order == [] then None
    else if Matches(entries[order[0]], base) then Some(0)
    else
      match FirstMatch(order[1..], entries, base)
      case None => None
      case Some(i) => Some(i + 1)
  }

  /** The first matching position is the one `FirstMatch` finds. */
  lemma FirstMatchAt(order: seq<string>, entries: map<string, Config>, base: string, i: nat)
    requires forall j :: 0 <= j < |order| ==> order[j] in entries
    requires i < |order| && Matches(entries[order[i]], base)
    requires forall j :: 0 <= j < i ==> !Matches(entries[order[j]], base)
    ensures FirstMatch(order, entries, base) == Some(i)
  {
    var found := FirstMatch(order, entries, base);
    if found.Some? && found.value < i {
    } else if found.Some? && found.value > i {
    }
  }

  // Sequence prefixes, stated apart from the runs over them, whose unfolding would
  // otherwise swamp the solver.

  /** The elements of a sequence with one more element at its end. */
  lemma SnocIndex<T>(s: seq<T>, x: T)
    ensures |s + [x]| == |s| + 1 && (s + [x])[|s|] == x
    ensures forall i :: 0 <= i < |s| ==> (s + [x])[i] == s[i]
  {
  }

  lemma PrefixWhole<T>(s: seq<T>)
    ensures s[..|s|] == s
  {
  }

  lemma PrefixLast<T>(s: seq<T>, i: nat)
    requires i < |s|
    ensures var p := s[..i + 1]; p[..|p| - 1] == s[..i] && p[|p| - 1] == s[i]
  {
    var p := s[..i + 1];
    assert p[..|p| - 1] == s[..i];
  }
}
