/** Packed-experiment mode (`process_pxp_files`): every configured entry names its data wave,
    and optionally its axis and error waves, by a path into the experiment's folder tree. */
module PxpMode {
  import opened Wrappers
  import opened Values
  import opened Wave
  import opened Axis
  import opened Text
  import opened Notes
  import opened Store
  import opened Paths
  import opened Normalize

  /** `f"{what} wave {path} not found in file {file}."` */
  function NotFound(what: string, path: string, file: string): string
  {
    what + " wave " + path + " not found in file " + file + "."
  }

  /** `f"'data' not found for entry {entry}."` */
  function NoDataMessage(entry: string): string
  {
    "'data' not found for entry " + entry + "."
  }

  /** `"'" + f"axis{d}" + "'"`: how an axis wave is named in its error message. */
  function AxisLabel(d: nat): string
  {
    "'" + DimName(d) + "'"
  }

  /** The wave a configured reference names: `iterate_dictionary` on it, then the falsiness
      test (`not obj`), then `.wave`. A reference that is not text has no `.split`; a missing
      name and an empty folder are "not found"; a path descending below a wave cannot be
      searched; a non-empty folder has no `.wave`. */
  function FetchWave(tree: map<Key, Node>, ref: Value, what: string, file: string): (r: Result<Wave>)
    ensures r.Success? <==> ref.Str? && Resolve(tree, ref.s).Found? && Resolve(tree, ref.s).node.Leaf?
    ensures r.Success? ==> Resolve(tree, ref.s) == Found(Leaf(r.value))
    ensures r.Failure? && r.error.ValueError? <==>
              ref.Str? && (Resolve(tree, ref.s) == Missing || Resolve(tree, ref.s) == Found(Folder(map[])))
    ensures r.Failure? && r.error.ValueError? ==> r.error.message == NotFound(what, ref.s, file)
  {
    if !ref.Str? then Failure(AttributeError)
    else
      match Resolve(tree, ref.s)
      case Missing => Failure(ValueError(NotFound(what, ref.s, file)))
      case BelowWave => Failure(TypeError)
      case Found(node) =>
        match node
        case Leaf(w) => Success(w)
        case Folder(children) =>
          if children == map[] then Failure(ValueError(NotFound(what, ref.s, file)))
          else Failure(AttributeError)
  }

  /** The coordinates and units of dimension `d`: the configured `axis<d>` wave's payload and
      data units, or else the ramp and units of the data wave's header. */
  function PxpSource(cfg: Config, tree: map<Key, Node>, file: string, w: Wave, d: nat)
    : Result<(Value, Value)>
    requires d < |w.nDim|
  {
    if DimName(d) in cfg then
      match FetchWave(tree, cfg[DimName(d)], AxisLabel(d), file)
      case Success(aw) => Success((Array(aw.wData), Str(aw.dataUnits)))
      case Failure(e) => Failure(e)
    else Success((Coords(AxisFrom(w, d)), Str(Concat(w.dimUnits[d]))))
  }

  /** The sources of every dimension whose source can be fetched (placeholders elsewhere). */
  function PxpSources(cfg: Config, tree: map<Key, Node>, file: string, w: Wave): (r: seq<(Value, Value)>)
    ensures |r| == |w.nDim|
    ensures forall d :: 0 <= d < |w.nDim| && PxpSource(cfg, tree, file, w, d).Success? ==>
              r[d] == PxpSource(cfg, tree, file, w, d).value
  {
    seq(|w.nDim|, d requires 0 <= d < |w.nDim| =>
      match PxpSource(cfg, tree, file, w, d)
      case Success(src) => src
      case Failure(_) => (Null, Null))
  }

  /** The writes made before an exception, and the exception, if any. */
  datatype Partial = Partial(writes: seq<Write>, err: Option<Error>)

  /** The axis loop over the first `n` dimensions, which stops at the first axis wave that
      cannot be fetched. */
  function PxpAxes(entry: string, cfg: Config, tree: map<Key, Node>, file: string, w: Wave, n: nat)
    : Partial
    requires n <= |w.nDim| && NamesDisplayable(cfg)
  {
    if n == 0 then Partial([], None)
    else
      var p := PxpAxes(entry, cfg, tree, file, w, n - 1);
      if p.err.Some? || w.nDim[n - 1] <= 0 then p
      else
        match PxpSource(cfg, tree, file, w, n - 1)
        case Failure(e) => Partial(p.writes, Some(e))
        case Success(src) => Partial(p.writes + AxisWrites(entry, cfg, n - 1, src), None)
  }

  /** The `data_errors` wave's payload under `<entry>/data.errors`, when one is configured. */
  function ErrorsWrites(entry: string, cfg: Config, tree: map<Key, Node>, file: string)
    : (r: Result<seq<Write>>)
    ensures r.Success? ==> |r.value| <= 1 && Keys(r.value) <= {entry + "/data.errors"}
    ensures "data_errors" !in cfg ==> r == Success([])
    ensures "data_errors" in cfg ==>
      (r.Failure? <==> FetchWave(tree, cfg["data_errors"], "'data_errors'", file).Failure?)
    ensures r.Failure? ==>
      "data_errors" in cfg && r.error == FetchWave(tree, cfg["data_errors"], "'data_errors'", file).error
  {
    if "data_errors" !in cfg then Success([])
    else
      match FetchWave(tree, cfg["data_errors"], "'data_errors'", file)
      case Success(ew) => Success([(entry + "/data.errors", Array(ew.wData))])
      case Failure(e) => Failure(e)
  }

  /** One configured entry: its data wave's notes, axes, errors, payload and metadata. The
      state is left as the writes before an exception left it. */
  function PxpEntry(st: State, entry: string, cfg: Config, tree: map<Key, Node>, file: string)
    : (o: Outcome)
    requires NamesDisplayable(cfg)
    ensures o.st.order == st.order && o.st.entries == st.entries
    ensures "data" !in cfg ==> o == Outcome(st, Some(ValueError(NoDataMessage(entry))))
    ensures "data" in cfg && FetchWave(tree, cfg["data"], "'data'", file).Failure? ==>
              o == Outcome(st, Some(FetchWave(tree, cfg["data"], "'data'", file).error))
    ensures o.err.Some? && o.err.value.ValueError? ==> |o.err.value.message| > 0 && o.err.value.message[0] == '\''
  {
    if "data" !in cfg then Outcome(st, Some(ValueError(NoDataMessage(entry))))
    else
      match FetchWave(tree, cfg["data"], "'data'", file)
      case Failure(e) => Outcome(st, Some(e))
      case Success(w) =>
        var attrs := st.attrs + NoteAttrs(entry, NotesOf(Tokens(w.note)));
        var axes := PxpAxes(entry, cfg, tree, file, w, |w.nDim|);
        PxpAxesMessage(entry, cfg, tree, file, w, |w.nDim|);
        if axes.err.Some? then
          Outcome(State(Apply(st.data, axes.writes), attrs, st.order, st.entries), axes.err)
        else
          match ErrorsWrites(entry, cfg, tree, file)
          case Failure(e) => Outcome(State(Apply(st.data, axes.writes), attrs, st.order, st.entries), Some(e))
          case Success(ew) =>
            var data := Apply(st.data, axes.writes + ew + PayloadWrites(entry, cfg, w));
            var (attrs', err) := WithMetadata(attrs, entry, cfg);
            Outcome(State(data, attrs', st.order, st.entries), err)
  }

  /** The entries named, in order, stopping at the first exception. */
  function PxpRun(st: State, tree: map<Key, Node>, file: string, names: seq<string>): (o: Outcome)
    requires Consistent(st) && forall i :: 0 <= i < |names| ==> names[i] in st.entries
    ensures o.st.order == st.order && o.st.entries == st.entries
    ensures o.err.Some? && o.err.value.ValueError? ==> |o.err.value.message| > 0 && o.err.value.message[0] == '\''
  {
    if names == [] then Outcome(st, None)
    else
      var o := PxpRun(st, tree, file, names[..|names| - 1]);
      var name := names[|names| - 1];
      if o.err.Some? then o else PxpEntry(o.st, name, st.entries[name], tree, file)
  }

  /** The last entry of a run. */
  lemma PxpRunUnfold(st: State, tree: map<Key, Node>, file: string, names: seq<string>)
    requires Consistent(st) && forall i :: 0 <= i < |names| ==> names[i] in st.entries
    requires names != []
    ensures var o := PxpRun(st, tree, file, names[..|names| - 1]);
      var name := names[|names| - 1];
      PxpRun(st, tree, file, names) == if o.err.Some? then o else PxpEntry(o.st, name, st.entries[name], tree, file)
  {
  }

  /** One more entry, after the entries before it succeeded. */
  lemma PxpRunSnoc(st: State, tree: map<Key, Node>, file: string, names: seq<string>, i: nat)
    requires Consistent(st) && forall j :: 0 <= j < |names| ==> names[j] in st.entries
    requires i < |names| && PxpRun(st, tree, file, names[..i]).err.None?
    ensures PxpRun(st, tree, file, names[..i + 1]) ==
            PxpEntry(PxpRun(st, tree, file, names[..i]).st, names[i], st.entries[names[i]], tree, file)
  {
    PxpRunUnfold(st, tree, file, names[..i + 1]);
    PrefixLast(names, i);
  }

  /** An entry that raises ends the run with its outcome. */
  lemma PxpRunEndsAt(st: State, tree: map<Key, Node>, file: string, names: seq<string>, i: nat, o: Outcome)
    requires Consistent(st) && forall j :: 0 <= j < |names| ==> names[j] in st.entries
    requires i < |names| && PxpRun(st, tree, file, names[..i]).err.None?
    requires o == PxpEntry(PxpRun(st, tree, file, names[..i]).st, names[i], st.entries[names[i]], tree, file)
    requires o.err.Some?
    ensures PxpRun(st, tree, file, names) == o
  {
    PxpRunSnoc(st, tree, file, names, i);
    PxpRunStops(st, tree, file, names, i + 1);
  }

  /** Once an entry has raised, the later entries change nothing. */
  lemma {:induction false} PxpRunStops(st: State, tree: map<Key, Node>, file: string, names: seq<string>,
                                       k: nat)
    requires Consistent(st) && forall i :: 0 <= i < |names| ==> names[i] in st.entries
    requires k <= |names| && PxpRun(st, tree, file, names[..k]).err.Some?
    ensures PxpRun(st, tree, file, names) == PxpRun(st, tree, file, names[..k])
    decreases |names|
  {
    if |names| > k {
      var front := names[..|names| - 1];
      assert front[..k] == names[..k];
      PxpRunStops(st, tree, file, front, k);
    } else {
      assert names[..k] == names;
    }
  }

  /** Every populated dimension among the first `n` has a source that can be fetched. */
  predicate Fetchable(cfg: Config, tree: map<Key, Node>, file: string, w: Wave, n: nat)
    requires n <= |w.nDim|
  {
    forall d :: 0 <= d < n && w.nDim[d] > 0 ==> PxpSource(cfg, tree, file, w, d).Success?
  }

  /** One more dimension of `Fetchable`. */
  lemma FetchableSnoc(cfg: Config, tree: map<Key, Node>, file: string, w: Wave, d: nat)
    requires d < |w.nDim|
    ensures Fetchable(cfg, tree, file, w, d + 1) <==>
      Fetchable(cfg, tree, file, w, d) && (w.nDim[d] > 0 ==> PxpSource(cfg, tree, file, w, d).Success?)
  {
  }

  /** The axis loop succeeds exactly when every populated dimension's source can be fetched. */
  lemma {:induction false} PxpAxesSuccess(entry: string, cfg: Config, tree: map<Key, Node>, file: string,
                                          w: Wave, n: nat)
    requires n <= |w.nDim| && NamesDisplayable(cfg)
    ensures PxpAxes(entry, cfg, tree, file, w, n).err.None? <==> Fetchable(cfg, tree, file, w, n)
  {
    if n > 0 {
      PxpAxesSuccess(entry, cfg, tree, file, w, n - 1);
      FetchableSnoc(cfg, tree, file, w, n - 1);
      if PxpAxes(entry, cfg, tree, file, w, n - 1).err.Some? {
        PxpAxesStops(entry, cfg, tree, file, w, n - 1, n);
      } else {
        PxpAxesSnoc(entry, cfg, tree, file, w, n - 1);
      }
    }
  }

  /** A successful axis loop makes the full axis writes of the sources. */
  lemma {:induction false} PxpAxesWrites(entry: string, cfg: Config, tree: map<Key, Node>, file: string,
                                         w: Wave, n: nat)
    requires n <= |w.nDim| && NamesDisplayable(cfg)
    ensures var p := PxpAxes(entry, cfg, tree, file, w, n);
      p.err.None? ==> p.writes == Axes(entry, cfg, w, PxpSources(cfg, tree, file, w), n)
  {
    if n > 0 {
      PxpAxesWrites(entry, cfg, tree, file, w, n - 1);
      if PxpAxes(entry, cfg, tree, file, w, n - 1).err.None? {
        PxpAxesSnoc(entry, cfg, tree, file, w, n - 1);
        AxesSnoc(entry, cfg, w, PxpSources(cfg, tree, file, w), n - 1);
        var src := PxpSource(cfg, tree, file, w, n - 1);
        if w.nDim[n - 1] > 0 && src.Success? {
          assert PxpSources(cfg, tree, file, w)[n - 1] == src.value;
        }
      } else {
        PxpAxesStops(entry, cfg, tree, file, w, n - 1, n);
      }
    }
  }

  /** One more dimension of the axis loop, after the dimensions before it succeeded. */
  lemma PxpAxesSnoc(entry: string, cfg: Config, tree: map<Key, Node>, file: string, w: Wave, d: nat)
    requires d < |w.nDim| && NamesDisplayable(cfg)
    requires PxpAxes(entry, cfg, tree, file, w, d).err.None?
    ensures var p := PxpAxes(entry, cfg, tree, file, w, d);
      var src := PxpSource(cfg, tree, file, w, d);
      PxpAxes(entry, cfg, tree, file, w, d + 1) ==
        if w.nDim[d] <= 0 then p
        else if src.Failure? then Partial(p.writes, Some(src.error))
        else Partial(p.writes + AxisWrites(entry, cfg, d, src.value), None)
  {
  }

  /** A populated dimension either raises the error of its source, which ends the loop, or
      adds the writes of its source. */
  lemma PxpAxesStep(entry: string, cfg: Config, tree: map<Key, Node>, file: string, w: Wave, d: nat,
                    src: Result<(Value, Value)>)
    requires d < |w.nDim| && NamesDisplayable(cfg) && w.nDim[d] > 0
    requires PxpAxes(entry, cfg, tree, file, w, d).err.None? && src == PxpSource(cfg, tree, file, w, d)
    ensures src.Failure? ==>
      PxpAxes(entry, cfg, tree, file, w, |w.nDim|)
        == Partial(PxpAxes(entry, cfg, tree, file, w, d).writes, Some(src.error))
    ensures src.Success? ==>
      PxpAxes(entry, cfg, tree, file, w, d + 1)
        == Partial(PxpAxes(entry, cfg, tree, file, w, d).writes + AxisWrites(entry, cfg, d, src.value), None)
  {
    PxpAxesSnoc(entry, cfg, tree, file, w, d);
    if src.Failure? {
      PxpAxesStops(entry, cfg, tree, file, w, d + 1, |w.nDim|);
    }
  }

  /** An empty dimension adds nothing. */
  lemma PxpAxesSkip(entry: string, cfg: Config, tree: map<Key, Node>, file: string, w: Wave, d: nat)
    requires d < |w.nDim| && NamesDisplayable(cfg) && w.nDim[d] <= 0
    requires PxpAxes(entry, cfg, tree, file, w, d).err.None?
    ensures PxpAxes(entry, cfg, tree, file, w, d + 1) == PxpAxes(entry, cfg, tree, file, w, d)
  {
  }

  /** Once the axis loop has raised, later dimensions change nothing. */
  lemma {:induction false} PxpAxesStops(entry: string, cfg: Config, tree: map<Key, Node>, file: string,
                                        w: Wave, n: nat, k: nat)
    requires n <= k <= |w.nDim| && NamesDisplayable(cfg)
    requires PxpAxes(entry, cfg, tree, file, w, n).err.Some?
    ensures PxpAxes(entry, cfg, tree, file, w, k) == PxpAxes(entry, cfg, tree, file, w, n)
    decreases k
  {
    if k > n {
      PxpAxesStops(entry, cfg, tree, file, w, n, k - 1);
    }
  }

  /** When the axis loop fails, it raises the error of a populated dimension whose source
      cannot be fetched, having made the full axis writes of the dimensions before it. */
  lemma {:induction false} PxpAxesFailure(entry: string, cfg: Config, tree: map<Key, Node>, file: string,
                                          w: Wave, n: nat)
    requires n <= |w.nDim| && NamesDisplayable(cfg)
    ensures var p := PxpAxes(entry, cfg, tree, file, w, n);
      p.err.Some? ==> exists d :: (0 <= d < n && w.nDim[d] > 0 &&
        PxpSource(cfg, tree, file, w, d) == Failure(p.err.value) &&
        p.writes == Axes(entry, cfg, w, PxpSources(cfg, tree, file, w), d))
  {
    if n > 0 {
      var p := PxpAxes(entry, cfg, tree, file, w, n - 1);
      if p.err.Some? {
        PxpAxesFailure(entry, cfg, tree, file, w, n - 1);
        PxpAxesStops(entry, cfg, tree, file, w, n - 1, n);
      } else {
        PxpAxesWrites(entry, cfg, tree, file, w, n - 1);
        PxpAxesSnoc(entry, cfg, tree, file, w, n - 1);
        var q := PxpAxes(entry, cfg, tree, file, w, n);
        if q.err.Some? {
          assert w.nDim[n - 1] > 0 && PxpSource(cfg, tree, file, w, n - 1) == Failure(q.err.value);
          assert q.writes == Axes(entry, cfg, w, PxpSources(cfg, tree, file, w), n - 1);
        }
      }
    }
  }

  /** A source that cannot be fetched raises a `ValueError` only with the axis wave's
      not-found message, which starts with a quote. */
  lemma PxpSourceMessage(cfg: Config, tree: map<Key, Node>, file: string, w: Wave, d: nat)
    requires d < |w.nDim|
    ensures var r := PxpSource(cfg, tree, file, w, d);
      r.Failure? && r.error.ValueError? ==>
        r.error.message == NotFound(AxisLabel(d), cfg[DimName(d)].s, file) && r.error.message[0] == '\''
  {
  }

  /** The axis loop raises a `ValueError` only with a quote-led not-found message. */
  lemma PxpAxesMessage(entry: string, cfg: Config, tree: map<Key, Node>, file: string, w: Wave, n: nat)
    requires n <= |w.nDim| && NamesDisplayable(cfg)
    ensures var p := PxpAxes(entry, cfg, tree, file, w, n);
      p.err.Some? && p.err.value.ValueError? ==> |p.err.value.message| > 0 && p.err.value.message[0] == '\''
  {
    var p := PxpAxes(entry, cfg, tree, file, w, n);
    PxpAxesFailure(entry, cfg, tree, file, w, n);
    if p.err.Some? {
      var d :| 0 <= d < n && w.nDim[d] > 0 && PxpSource(cfg, tree, file, w, d) == Failure(p.err.value);
      PxpSourceMessage(cfg, tree, file, w, d);
    }
  }

  /** What a fully fetched entry leaves in `data`: for each populated dimension the configured
      axis wave's payload and data units, or else the data wave's ramp and header units
      (configured `axis<d>_units` first), and its index, under its configured or default
      name; `dims`; the payload and its units; and the error wave's payload when configured. */
  lemma PxpEntryData(st: State, entry: string, cfg: Config, tree: map<Key, Node>, file: string)
    requires NamesDisplayable(cfg) && "data" in cfg
    requires FetchWave(tree, cfg["data"], "'data'", file).Success?
    requires var w := FetchWave(tree, cfg["data"], "'data'", file).value;
      Fetchable(cfg, tree, file, w, |w.nDim|) && DistinctNames(cfg, w) && NoDataName(cfg, w)
    requires ErrorsWrites(entry, cfg, tree, file).Success?
    ensures var w := FetchWave(tree, cfg["data"], "'data'", file).value;
      var out := PxpEntry(st, entry, cfg, tree, file).st.data;
      && (forall d :: 0 <= d < |w.nDim| && w.nDim[d] > 0 ==>
            var name := Display(AxisNameOf(cfg, d));
            && Field(entry, name, ".data") in out
            && out[Field(entry, name, ".data")] ==
                 (if DimName(d) in cfg then Array(FetchWave(tree, cfg[DimName(d)], AxisLabel(d), file).value.wData) else Coords(AxisFrom(w, d)))
            && Field(entry, name, ".units") in out
            && out[Field(entry, name, ".units")] ==
                 AxisUnits(cfg, d, if DimName(d) in cfg then Str(FetchWave(tree, cfg[DimName(d)], AxisLabel(d), file).value.dataUnits) else Str(Concat(w.dimUnits[d])))
            && Field(entry, name, ".index") in out && out[Field(entry, name, ".index")] == Int(d))
      && entry + "/dims" in out && out[entry + "/dims"] == List(AxisNames(cfg, w, |w.nDim|))
      && entry + "/data" in out && out[entry + "/data"] == Array(w.wData)
      && entry + "/data.units" in out && out[entry + "/data.units"] == DataUnits(cfg, w)
      && ("data_errors" in cfg ==>
            var ew := FetchWave(tree, cfg["data_errors"], "'data_errors'", file);
            entry + "/data.errors" in out && out[entry + "/data.errors"] == Array(ew.value.wData))
  {
    var w := FetchWave(tree, cfg["data"], "'data'", file).value;
    var sources := PxpSources(cfg, tree, file, w);
    var ew := ErrorsWrites(entry, cfg, tree, file).value;
    var out := PxpEntry(st, entry, cfg, tree, file).st.data;
    PxpEntryWrites(st, entry, cfg, tree, file);
    forall d | 0 <= d < |w.nDim| && w.nDim[d] > 0
      ensures var name := Display(AxisNameOf(cfg, d));
        && Field(entry, name, ".data") in out
        && out[Field(entry, name, ".data")] ==
             (if DimName(d) in cfg then Array(FetchWave(tree, cfg[DimName(d)], AxisLabel(d), file).value.wData) else Coords(AxisFrom(w, d)))
        && Field(entry, name, ".units") in out
        && out[Field(entry, name, ".units")] ==
             AxisUnits(cfg, d, if DimName(d) in cfg then Str(FetchWave(tree, cfg[DimName(d)], AxisLabel(d), file).value.dataUnits) else Str(Concat(w.dimUnits[d])))
        && Field(entry, name, ".index") in out && out[Field(entry, name, ".index")] == Int(d)
    {
      var src := PxpSource(cfg, tree, file, w, d);
      assert src.Success?;
      assert sources[d] == src.value;
      EntryAxisValues(st.data, entry, cfg, w, sources, ew, d);
    }
    EntryPayloadValues(st.data, entry, cfg, w, sources, ew);
  }

  /** A fully fetched entry makes the writes of an entry whose axes come from its sources and
      whose extra write is the error wave. */
  lemma PxpEntryWrites(st: State, entry: string, cfg: Config, tree: map<Key, Node>, file: string)
    requires NamesDisplayable(cfg) && "data" in cfg
    requires FetchWave(tree, cfg["data"], "'data'", file).Success?
    requires var w := FetchWave(tree, cfg["data"], "'data'", file).value; Fetchable(cfg, tree, file, w, |w.nDim|)
    requires ErrorsWrites(entry, cfg, tree, file).Success?
    ensures var w := FetchWave(tree, cfg["data"], "'data'", file).value;
      PxpEntry(st, entry, cfg, tree, file).st.data ==
        Apply(st.data, EntryWrites(entry, cfg, w, PxpSources(cfg, tree, file, w), ErrorsWrites(entry, cfg, tree, file).value))
  {
    var w := FetchWave(tree, cfg["data"], "'data'", file).value;
    PxpEntryFetched(st, entry, cfg, tree, file);
    PxpAxesWrites(entry, cfg, tree, file, w, |w.nDim|);
  }

  /** A fully fetched entry runs to its end: every write is made, and the only exception
      left is that of the metadata. */
  lemma PxpEntryFetched(st: State, entry: string, cfg: Config, tree: map<Key, Node>, file: string)
    requires NamesDisplayable(cfg) && "data" in cfg
    requires FetchWave(tree, cfg["data"], "'data'", file).Success?
    requires var w := FetchWave(tree, cfg["data"], "'data'", file).value; Fetchable(cfg, tree, file, w, |w.nDim|)
    requires ErrorsWrites(entry, cfg, tree, file).Success?
    ensures var w := FetchWave(tree, cfg["data"], "'data'", file).value;
      var axes := PxpAxes(entry, cfg, tree, file, w, |w.nDim|).writes;
      var ew := ErrorsWrites(entry, cfg, tree, file).value;
      var meta := WithMetadata(st.attrs + NoteAttrs(entry, NotesOf(Tokens(w.note))), entry, cfg);
      && PxpAxes(entry, cfg, tree, file, w, |w.nDim|).err.None?
      && PxpEntry(st, entry, cfg, tree, file) ==
        Outcome(State(Apply(st.data, axes + ew + PayloadWrites(entry, cfg, w)), meta.0, st.order, st.entries), meta.1)
  {
    var w := FetchWave(tree, cfg["data"], "'data'", file).value;
    PxpAxesSuccess(entry, cfg, tree, file, w, |w.nDim|);
  }

  /** What a fully fetched entry leaves in `attrs`: the data wave's note pairs, then the
      metadata items over them; a `metadata` value that is not a dict raises `AttributeError`. */
  lemma PxpEntryAttrs(st: State, entry: string, cfg: Config, tree: map<Key, Node>, file: string)
    requires NamesDisplayable(cfg) && "data" in cfg
    requires FetchWave(tree, cfg["data"], "'data'", file).Success?
    requires var w := FetchWave(tree, cfg["data"], "'data'", file).value; Fetchable(cfg, tree, file, w, |w.nDim|)
    requires ErrorsWrites(entry, cfg, tree, file).Success?
    ensures var w := FetchWave(tree, cfg["data"], "'data'", file).value;
      var o := PxpEntry(st, entry, cfg, tree, file);
      var notes := st.attrs + NoteAttrs(entry, NotesOf(Tokens(w.note)));
      && ("metadata" !in cfg ==> o.st.attrs == notes && o.err.None?)
      && ("metadata" in cfg && cfg["metadata"].Dict? ==>
            o.st.attrs == Apply(notes, MetadataWrites(entry, cfg["metadata"].items)) && o.err.None?)
      && ("metadata" in cfg && !cfg["metadata"].Dict? ==> o.st.attrs == notes && o.err == Some(AttributeError))
  {
    PxpEntryFetched(st, entry, cfg, tree, file);
  }

  /** An axis wave that cannot be fetched ends the entry with its error, whose not-found
      message names the configured path and the file: the note pairs and the axis writes of
      the dimensions before it stay, and `dims`, `data` and `data.units` are not written. */
  lemma PxpEntryAxisFailure(st: State, entry: string, cfg: Config, tree: map<Key, Node>, file: string)
    requires NamesDisplayable(cfg) && "data" in cfg
    requires FetchWave(tree, cfg["data"], "'data'", file).Success?
    requires var w := FetchWave(tree, cfg["data"], "'data'", file).value;
      PxpAxes(entry, cfg, tree, file, w, |w.nDim|).err.Some?
    ensures var w := FetchWave(tree, cfg["data"], "'data'", file).value;
      var p := PxpAxes(entry, cfg, tree, file, w, |w.nDim|);
      var o := PxpEntry(st, entry, cfg, tree, file);
      && o.err == p.err
      && o.st.data == Apply(st.data, p.writes)
      && o.st.attrs == st.attrs + NoteAttrs(entry, NotesOf(Tokens(w.note)))
      && (exists d :: 0 <= d < |w.nDim| && w.nDim[d] > 0 && DimName(d) in cfg &&
            PxpSource(cfg, tree, file, w, d) == Failure(p.err.value) &&
            p.writes == Axes(entry, cfg, w, PxpSources(cfg, tree, file, w), d) &&
            (p.err.value.ValueError? ==>
               cfg[DimName(d)].Str? && p.err.value.message == NotFound(AxisLabel(d), cfg[DimName(d)].s, file)))
      && Kept(st.data, o.st.data, entry + "/dims") && Kept(st.data, o.st.data, entry + "/data")
      && (NoDataName(cfg, w) ==> Kept(st.data, o.st.data, entry + "/data.units"))
  {
    var w := FetchWave(tree, cfg["data"], "'data'", file).value;
    var p := PxpAxes(entry, cfg, tree, file, w, |w.nDim|);
    PxpAxesFailure(entry, cfg, tree, file, w, |w.nDim|);
    var d :| 0 <= d < |w.nDim| && w.nDim[d] > 0 &&
      PxpSource(cfg, tree, file, w, d) == Failure(p.err.value) &&
      p.writes == Axes(entry, cfg, w, PxpSources(cfg, tree, file, w), d);
    PxpSourceMessage(cfg, tree, file, w, d);
    AxesKeepPayload(st.data, entry, cfg, w, PxpSources(cfg, tree, file, w), d);
  }

  /** A `data_errors` wave that cannot be fetched, after every axis was, ends the entry with
      its error, whose not-found message names the configured path and the file: the note
      pairs and every axis write stay, and `dims`, `data` and `data.units` are not written. */
  lemma PxpEntryErrorsFailure(st: State, entry: string, cfg: Config, tree: map<Key, Node>, file: string)
    requires NamesDisplayable(cfg) && "data" in cfg
    requires FetchWave(tree, cfg["data"], "'data'", file).Success?
    requires var w := FetchWave(tree, cfg["data"], "'data'", file).value;
      PxpAxes(entry, cfg, tree, file, w, |w.nDim|).err.None?
    requires ErrorsWrites(entry, cfg, tree, file).Failure?
    ensures var w := FetchWave(tree, cfg["data"], "'data'", file).value;
      var ew := FetchWave(tree, cfg["data_errors"], "'data_errors'", file);
      var o := PxpEntry(st, entry, cfg, tree, file);
      && "data_errors" in cfg && ew.Failure?
      && o.err == Some(ew.error)
      && (ew.error.ValueError? ==>
            cfg["data_errors"].Str? && ew.error.message == NotFound("'data_errors'", cfg["data_errors"].s, file))
      && o.st.data == Apply(st.data, Axes(entry, cfg, w, PxpSources(cfg, tree, file, w), |w.nDim|))
      && o.st.attrs == st.attrs + NoteAttrs(entry, NotesOf(Tokens(w.note)))
      && Kept(st.data, o.st.data, entry + "/dims") && Kept(st.data, o.st.data, entry + "/data")
      && (NoDataName(cfg, w) ==> Kept(st.data, o.st.data, entry + "/data.units"))
  {
    var w := FetchWave(tree, cfg["data"], "'data'", file).value;
    PxpAxesWrites(entry, cfg, tree, file, w, |w.nDim|);
    AxesKeepPayload(st.data, entry, cfg, w, PxpSources(cfg, tree, file, w), |w.nDim|);
  }
}
