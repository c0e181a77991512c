/** Single-wave mode (`process_ibw_files`): each `.ibw` file is normalized into the entry
    whose `data` names the file, or into a new entry named after the file. */
module IbwMode {
  import opened Wrappers
  import opened Values
  import opened Wave
  import opened Axis
  import opened Text
  import opened Notes
  import opened Store
  import opened FileNames
  import opened Normalize

  /** A single wave's axes always come from its own header. */
  function HeaderSources(w: Wave): (r: seq<(Value, Value)>)
    ensures |r| == |w.nDim|
    ensures forall d :: 0 <= d < |w.nDim| ==> r[d] == (Coords(AxisFrom(w, d)), Str(Concat(w.dimUnits[d])))
  {
    seq(|w.nDim|, d requires 0 <= d < |w.nDim| => (Coords(AxisFrom(w, d)), Str(Concat(w.dimUnits[d]))))
  }

  /** A header with element counts `[3, 1]` and no configured names gives
      `dims == ["axis0", "axis1"]`: a dimension of one element is populated too. With
      `sfA[0] = 1` and `sfB[0] = 0` dimension 0 has the coordinates `[0, 1, 2]`, and
      dimension 1 has the single coordinate `sfB[1]`. */
  lemma TwoDimExample(cfg: Config, w: Wave)
    requires w.nDim == [3, 1] && w.sfA[0] == 1.0 && w.sfB[0] == 0.0
    requires "axis0_name" !in cfg && "axis1_name" !in cfg
    ensures AxisNames(cfg, w, 2) == [Str("axis0"), Str("axis1")]
    ensures AxisFrom(w, 0) == [0.0, 1.0, 2.0]
    ensures AxisFrom(w, 1) == [w.sfB[1]]
  {
    assert NatText(0) == "0" && NatText(1) == "1";
    assert DimName(0) == "axis0" && DimName(1) == "axis1";
    assert DimName(0) + "_name" == "axis0_name" && DimName(1) + "_name" == "axis1_name";
    assert AxisNameOf(cfg, 0) == Str("axis0") && AxisNameOf(cfg, 1) == Str("axis1");
    AxisNamesSnoc(cfg, w, 0);
    AxisNamesSnoc(cfg, w, 1);
    assert AxisNames(cfg, w, 2) == [AxisNameOf(cfg, 0)] + [AxisNameOf(cfg, 1)];
    AxisFromRamp(w, 0);
    AxisFromRamp(w, 1);
  }

  /** The entry a file is normalized into, the configuration used for it, and the entries
      afterwards. */
  datatype Choice = Choice(entry: string, cfg: Config, order: seq<string>, entries: map<string, Config>)

  /** The first entry whose `data` is the file's name, unless there is none or its name is
      empty: then the part of the file's name before the first dot, registered with an empty
      configuration (the matched configuration, if any, is still the one used). */
  function ChooseEntry(st: State, file: string): Choice
    requires EntriesValid(st.order, st.entries)
  {
    var base := BaseName(file);
    var found := FirstMatch(st.order, st.entries, base);
    if found.Some? && st.order[found.value] != "" then
      Choice(st.order[found.value], st.entries[st.order[found.value]], st.order, st.entries)
    else
      var stem := Stem(base);
      Choice(stem, if found.Some? then st.entries[st.order[found.value]] else map[],
             Register(st.order, stem), st.entries[stem := map[]])
  }

  /** One file: note pairs to `attrs`, the entry's writes to `data`, then the metadata. */
  function IbwFile(st: State, file: string, w: Wave): (o: Outcome)
    requires Consistent(st)
    ensures Consistent(o.st)
    ensures o.err.None? || o.err == Some(AttributeError)
  {
    var c := ChooseEntry(st, file);
    ChooseEntryConsistent(st, file);
    var notes := st.attrs + NoteAttrs(c.entry, NotesOf(Tokens(w.note)));
    var data := Apply(st.data, EntryWrites(c.entry, c.cfg, w, HeaderSources(w), []));
    var (attrs, err) := WithMetadata(notes, c.entry, c.cfg);
    Outcome(State(data, attrs, c.order, c.entries), err)
  }

  /** The chosen entry is registered, its configuration can be printed, and the entries stay
      consistent. */
  lemma ChooseEntryConsistent(st: State, file: string)
    requires Consistent(st)
    ensures var c := ChooseEntry(st, file);
      && Consistent(State(st.data, st.attrs, c.order, c.entries))
      && c.entry in c.entries && NamesDisplayable(c.cfg)
  {
    var c := ChooseEntry(st, file);
    var found := FirstMatch(st.order, st.entries, BaseName(file));
    if !(found.Some? && st.order[found.value] != "") {
      RegisterValid(st.order, st.entries, Stem(BaseName(file)), map[]);
      assert NamesDisplayable(map[]);
    }
  }

  /** `IbwFile` assembled from its stages: the entry choice, the note pairs, the axes, the
      closing writes and the metadata. */
  lemma IbwFileStages(st: State, file: string, w: Wave, c: Choice, notes: map<string, Value>,
                      axes: map<string, Value>, out: map<string, Value>, meta: map<string, Value>,
                      err: Option<Error>)
    requires Consistent(st) && c == ChooseEntry(st, file) && NamesDisplayable(c.cfg)
    requires notes == st.attrs + NoteAttrs(c.entry, NotesOf(Tokens(w.note)))
    requires axes == Apply(st.data, Axes(c.entry, c.cfg, w, HeaderSources(w), |w.nDim|))
    requires out == Apply(axes, PayloadWrites(c.entry, c.cfg, w))
    requires (meta, err) == WithMetadata(notes, c.entry, c.cfg)
    ensures IbwFile(st, file, w) == Outcome(State(out, meta, c.order, c.entries), err)
    ensures Consistent(State(out, meta, c.order, c.entries))
  {
    EntryWritesStages(st.data, c.entry, c.cfg, w, HeaderSources(w), []);
    assert Apply(axes, []) == axes;
  }

  /** The files, in order, stopping at the first exception. */
  function IbwRun(st: State, files: seq<string>, load: string -> Wave): (o: Outcome)
    requires Consistent(st)
    ensures Consistent(o.st)
    ensures o.err.None? || o.err == Some(AttributeError)
  {
    if files == [] then Outcome(st, None)
    else
      var o := IbwRun(st, files[..|files| - 1], load);
      if o.err.Some? then o else IbwFile(o.st, files[|files| - 1], load(files[|files| - 1]))
  }

  /** A file that raises ends the run with its outcome. */
  lemma IbwRunEndsAt(st: State, files: seq<string>, load: string -> Wave, i: nat, o: Outcome)
    requires Consistent(st) && i < |files| && IbwRun(st, files[..i], load).err.None?
    requires o == IbwFile(IbwRun(st, files[..i], load).st, files[i], load(files[i])) && o.err.Some?
    ensures IbwRun(st, files, load) == o
  {
    IbwRunSnoc(st, files, load, i);
    IbwRunStops(st, files, load, i + 1);
  }

  /** One more file, after the files before it succeeded. */
  lemma IbwRunSnoc(st: State, files: seq<string>, load: string -> Wave, i: nat)
    requires Consistent(st) && i < |files| && IbwRun(st, files[..i], load).err.None?
    ensures IbwRun(st, files[..i + 1], load) ==
            IbwFile(IbwRun(st, files[..i], load).st, files[i], load(files[i]))
  {
    var p := files[..i + 1];
    IbwRunUnfold(st, p, load);
    PrefixLast(files, i);
  }

  /** The last file of a run. */
  lemma IbwRunUnfold(st: State, files: seq<string>, load: string -> Wave)
    requires Consistent(st) && files != []
    ensures var o := IbwRun(st, files[..|files| - 1], load);
      IbwRun(st, files, load) == if o.err.Some? then o else IbwFile(o.st, files[|files| - 1], load(files[|files| - 1]))
  {
  }

  /** Once a file has raised, the later files change nothing. */
  lemma {:induction false} IbwRunStops(st: State, files: seq<string>, load: string -> Wave, k: nat)
    requires Consistent(st) && k <= |files| && IbwRun(st, files[..k], load).err.Some?
    ensures IbwRun(st, files, load) == IbwRun(st, files[..k], load)
    decreases |files|
  {
    if |files| > k {
      var front := files[..|files| - 1];
      assert front[..k] == files[..k];
      IbwRunStops(st, front, load, k);
    } else {
      assert files[..k] == files;
    }
  }

  /** The entry chosen for a file: the first configured entry (in configuration order) whose
      `data` is the file's name, with its configuration and no new entry; when no entry
      names the file, a new entry named by the file's stem with an empty configuration,
      replacing any entry of that name. */
  lemma ChooseEntryIsFirstMatch(st: State, file: string, i: nat)
    requires EntriesValid(st.order, st.entries)
    requires i < |st.order| && Matches(st.entries[st.order[i]], BaseName(file))
    requires forall j :: 0 <= j < i ==> !Matches(st.entries[st.order[j]], BaseName(file))
    requires st.order[i] != ""
    ensures ChooseEntry(st, file) == Choice(st.order[i], st.entries[st.order[i]], st.order, st.entries)
  {
    FirstMatchAt(st.order, st.entries, BaseName(file), i);
  }

  lemma ChooseEntryWithoutMatch(st: State, file: string)
    requires EntriesValid(st.order, st.entries)
    requires forall j :: 0 <= j < |st.order| ==> !Matches(st.entries[st.order[j]], BaseName(file))
    ensures var stem := Stem(BaseName(file));
      ChooseEntry(st, file) == Choice(stem, map[], Register(st.order, stem), st.entries[stem := map[]])
  {
  }

  /** What one file leaves in `data`: for each populated dimension its ramp coordinates, its
      units (configured `axis<d>_units` first, else the header's) and its index, under its
      configured or default name; `dims` naming the populated dimensions in order; the
      payload and its units (configured `data_units` first). */
  lemma IbwFileData(st: State, file: string, w: Wave)
    requires Consistent(st)
    requires var c := ChooseEntry(st, file); DistinctNames(c.cfg, w) && NoDataName(c.cfg, w)
    ensures var c := ChooseEntry(st, file);
      var out := IbwFile(st, file, w).st.data;
      && (forall d :: 0 <= d < |w.nDim| && w.nDim[d] > 0 ==>
            var name := Display(AxisNameOf(c.cfg, d));
            && Field(c.entry, name, ".data") in out
            && out[Field(c.entry, name, ".data")] == Coords(AxisFrom(w, d))
            && Field(c.entry, name, ".units") in out
            && out[Field(c.entry, name, ".units")] == AxisUnits(c.cfg, d, Str(Concat(w.dimUnits[d])))
            && Field(c.entry, name, ".index") in out && out[Field(c.entry, name, ".index")] == Int(d))
      && c.entry + "/dims" in out && out[c.entry + "/dims"] == List(AxisNames(c.cfg, w, |w.nDim|))
      && c.entry + "/data" in out && out[c.entry + "/data"] == Array(w.wData)
      && c.entry + "/data.units" in out && out[c.entry + "/data.units"] == DataUnits(c.cfg, w)
  {
    var c := ChooseEntry(st, file);
    ChooseEntryConsistent(st, file);
    forall d | 0 <= d < |w.nDim| && w.nDim[d] > 0
      ensures var out := IbwFile(st, file, w).st.data;
        var name := Display(AxisNameOf(c.cfg, d));
        && Field(c.entry, name, ".data") in out
        && out[Field(c.entry, name, ".data")] == Coords(AxisFrom(w, d))
        && Field(c.entry, name, ".units") in out
        && out[Field(c.entry, name, ".units")] == AxisUnits(c.cfg, d, Str(Concat(w.dimUnits[d])))
        && Field(c.entry, name, ".index") in out && out[Field(c.entry, name, ".index")] == Int(d)
    {
      EntryAxisValues(st.data, c.entry, c.cfg, w, HeaderSources(w), [], d);
    }
    EntryPayloadValues(st.data, c.entry, c.cfg, w, HeaderSources(w), []);
  }

  /** What one file leaves in `attrs`: every note pair under `<entry>/note/<key>`, and then
      the metadata items under `<entry>/<key>`, which win over a note key they collide with;
      a `metadata` value that is not a dict raises `AttributeError` after the notes. */
  lemma IbwFileAttrs(st: State, file: string, w: Wave)
    requires Consistent(st)
    ensures var c := ChooseEntry(st, file);
      var o := IbwFile(st, file, w);
      var notes := st.attrs + NoteAttrs(c.entry, NotesOf(Tokens(w.note)));
      && ("metadata" !in c.cfg ==> o.st.attrs == notes && o.err.None?)
      && ("metadata" in c.cfg && c.cfg["metadata"].Dict? ==>
            o.st.attrs == Apply(notes, MetadataWrites(c.entry, c.cfg["metadata"].items)) && o.err.None?)
      && ("metadata" in c.cfg && !c.cfg["metadata"].Dict? ==>
            o.st.attrs == notes && o.err == Some(AttributeError))
  {
    var c := ChooseEntry(st, file);
    var notes := st.attrs + NoteAttrs(c.entry, NotesOf(Tokens(w.note)));
    var o := IbwFile(st, file, w);
    assert o.st.attrs == WithMetadata(notes, c.entry, c.cfg).0;
    assert o.err == WithMetadata(notes, c.entry, c.cfg).1;
  }
}
