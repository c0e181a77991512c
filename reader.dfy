/** The reader object of the current plugin: it collects the configuration, the entry
    dictionary and the file names handed to it, and `post_process` normalizes the files
    into `data` and `attrs`. */
module Reader {
  import opened Wrappers
  import opened Text
  import opened Values
  import opened Wave
  import opened Axis
  import opened Notes
  import opened Store
  import opened Paths
  import opened FileNames
  import opened Normalize
  import opened IbwMode
  import opened PxpMode

  // ---- the entry dictionary ---------------------------------------------------------------

  /** The entry table after reading some entry-dictionary items, and the exception that
      stopped the reading, if any. */
  datatype Parsed = Parsed(order: seq<string>, entries: map<string, Config>, err: Option<Error>)

  /** `f"Entry dict need to contain only dicts, got {type(entry)} for key {name}!"` */
  function EntryTypeMessage(v: Value, name: string): string
  {
    "Entry dict need to contain only dicts, got " + TypeName(v) + " for key " + name + "!"
  }

  /** One item of `parse_entry_dict`: a dict value becomes (or replaces) the entry of its
      key; any other value raises. Nothing happens once an exception was raised. */
  function ParseStep(p: Parsed, item: (string, Value)): Parsed
  {
    if p.err.Some? then p
    else if item.1.Dict? then Parsed(Register(p.order, item.0), p.entries[item.0 := ToMap(item.1.items)], None)
    else Parsed(p.order, p.entries, Some(ValueError(EntryTypeMessage(item.1, item.0))))
  }

  /** `parse_entry_dict` over the items in order. */
  function ParseEntries(order: seq<string>, entries: map<string, Config>, items: seq<(string, Value)>)
    : Parsed
  {
    if items == [] then Parsed(order, entries, None)
    else ParseStep(ParseEntries(order, entries, items[..|items| - 1]), items[|items| - 1])
  }

  /** The names of the items. */
  function ItemNames(items: seq<(string, Value)>): set<string>
  {
    set i | 0 <= i < |items| :: items[i].0
  }

  lemma ItemNamesSnoc(items: seq<(string, Value)>)
    requires items != []
    ensures ItemNames(items) == ItemNames(items[..|items| - 1]) + {items[|items| - 1].0}
  {
    var front := items[..|items| - 1];
    assert forall i :: 0 <= i < |front| ==> front[i] == items[i];
  }

  /** The configurations given can have their axis names printed. */
  ghost predicate ItemsDisplayable(items: seq<(string, Value)>)
  {
    forall i :: 0 <= i < |items| && items[i].1.Dict? ==> NamesDisplayable(ToMap(items[i].1.items))
  }

  /** Reading keeps the entry order in step with the entries. */
  lemma {:induction false} ParseEntriesValid(order: seq<string>, entries: map<string, Config>,
                                             items: seq<(string, Value)>)
    requires EntriesValid(order, entries)
    ensures var r := ParseEntries(order, entries, items); EntriesValid(r.order, r.entries)
  {
    if items != [] {
      var front := items[..|items| - 1];
      ParseEntriesValid(order, entries, front);
      var p := ParseEntries(order, entries, front);
      var last := items[|items| - 1];
      if p.err.None? && last.1.Dict? {
        RegisterValid(p.order, p.entries, last.0, ToMap(last.1.items));
      }
    }
  }

  /** Reading keeps every configuration printable when the new ones are. */
  lemma {:induction false} ParseEntriesDisplayable(order: seq<string>, entries: map<string, Config>,
                                                   items: seq<(string, Value)>)
    requires ItemsDisplayable(items)
    requires forall n :: n in entries ==> NamesDisplayable(entries[n])
    ensures var r := ParseEntries(order, entries, items);
      forall n :: n in r.entries ==> NamesDisplayable(r.entries[n])
  {
    if items != [] {
      var front := items[..|items| - 1];
      assert forall i :: 0 <= i < |front| ==> front[i] == items[i];
      assert ItemsDisplayable(front);
      ParseEntriesDisplayable(order, entries, front);
      assert forall n :: n in ParseEntries(order, entries, front).entries ==>
        NamesDisplayable(ParseEntries(order, entries, front).entries[n]);
      var p := ParseEntries(order, entries, front);
      var r := ParseEntries(order, entries, items);
      var last := items[|items| - 1];
      if p.err.None? && last.1.Dict? {
        assert r.entries == p.entries[last.0 := ToMap(last.1.items)];
        assert NamesDisplayable(ToMap(last.1.items));
        forall n | n in r.entries
          ensures NamesDisplayable(r.entries[n])
        {
          if n != last.0 {
            assert r.entries[n] == p.entries[n];
          }
        }
      } else {
        assert r.entries == p.entries;
      }
    }
  }

  /** Reading succeeds exactly when every value is a dict. */
  lemma {:induction false} ParseEntriesSucceeds(order: seq<string>, entries: map<string, Config>,
                                                items: seq<(string, Value)>)
    ensures ParseEntries(order, entries, items).err.None? <==> forall i :: 0 <= i < |items| ==> items[i].1.Dict?
  {
    if items != [] {
      var front := items[..|items| - 1];
      ParseEntriesSucceeds(order, entries, front);
      assert forall i :: 0 <= i < |front| ==> front[i] == items[i];
    }
  }

  /** When every value is a dict, the entries afterwards are the old ones and the items'
      names, the entries not named keep their configuration, and the new names follow the
      old ones in the iteration order. */
  lemma {:induction false} ParseEntriesKeys(order: seq<string>, entries: map<string, Config>,
                                            items: seq<(string, Value)>)
    requires forall i :: 0 <= i < |items| ==> items[i].1.Dict?
    ensures var r := ParseEntries(order, entries, items);
      && r.err.None?
      && r.entries.Keys == entries.Keys + ItemNames(items)
      && (forall n :: n in entries && n !in ItemNames(items) ==> r.entries[n] == entries[n])
      && |order| <= |r.order| && r.order[..|order|] == order
  {
    if items != [] {
      var front := items[..|items| - 1];
      var last := items[|items| - 1];
      assert forall i :: 0 <= i < |front| ==> front[i] == items[i];
      ParseEntriesKeys(order, entries, front);
      var p := ParseEntries(order, entries, front);
      assert ParseEntries(order, entries, items)
          == Parsed(Register(p.order, last.0), p.entries[last.0 := ToMap(last.1.items)], None);
      ItemNamesSnoc(items);
      assert Register(p.order, last.0)[..|order|] == p.order[..|order|];
    }
  }

  /** When every value is a dict, every item's name has the dict of its last item. */
  lemma {:induction false} ParseEntriesLastWins(order: seq<string>, entries: map<string, Config>,
                                                items: seq<(string, Value)>)
    requires forall i :: 0 <= i < |items| ==> items[i].1.Dict?
    ensures var r := ParseEntries(order, entries, items);
      forall i :: 0 <= i < |items| && (forall j :: i < j < |items| ==> items[j].0 != items[i].0) ==>
        items[i].0 in r.entries && r.entries[items[i].0] == ToMap(items[i].1.items)
  {
    if items != [] {
      var front := items[..|items| - 1];
      assert forall i :: 0 <= i < |front| ==> front[i] == items[i];
      ParseEntriesLastWins(order, entries, front);
      ParseEntriesSucceeds(order, entries, front);
      var p, r := ParseEntries(order, entries, front), ParseEntries(order, entries, items);
      var last := items[|items| - 1];
      assert r.entries == p.entries[last.0 := ToMap(last.1.items)];
      forall i | 0 <= i < |items| && (forall j :: i < j < |items| ==> items[j].0 != items[i].0)
        ensures items[i].0 in r.entries && r.entries[items[i].0] == ToMap(items[i].1.items)
      {
        if i < |front| {
          assert items[i].0 != last.0;
          assert forall j :: i < j < |front| ==> front[j].0 != front[i].0;
        }
      }
    }
  }

  /** Once an item has raised, the items after it are not read. */
  lemma {:induction false} ParseEntriesStops(order: seq<string>, entries: map<string, Config>,
                                             items: seq<(string, Value)>, k: nat)
    requires k <= |items| && ParseEntries(order, entries, items[..k]).err.Some?
    ensures ParseEntries(order, entries, items) == ParseEntries(order, entries, items[..k])
  {
    if |items| > k {
      var front := items[..|items| - 1];
      assert front[..k] == items[..k];
      ParseEntriesStops(order, entries, front, k);
    } else {
      assert items[..k] == items;
    }
  }

  /** The first value that is not a dict raises with its type and key in the message; the
      table is what the items before it make of it. */
  lemma {:induction false} ParseEntriesError(order: seq<string>, entries: map<string, Config>,
                                             items: seq<(string, Value)>, k: nat)
    requires k < |items| && !items[k].1.Dict?
    requires forall j :: 0 <= j < k ==> items[j].1.Dict?
    ensures var p := ParseEntries(order, entries, items[..k]);
      ParseEntries(order, entries, items) ==
        Parsed(p.order, p.entries, Some(ValueError(EntryTypeMessage(items[k].1, items[k].0))))
  {
    if |items| - 1 > k {
      var front := items[..|items| - 1];
      assert front[..k] == items[..k];
      ParseEntriesError(order, entries, front, k);
    } else {
      assert items[..|items| - 1] == items[..k];
      assert forall j :: 0 <= j < k ==> items[..k][j] == items[j];
      ParseEntriesSucceeds(order, entries, items[..k]);
    }
  }

  // ---- post-processing --------------------------------------------------------------------

  /** More than one packed experiment, or packed experiments beside single waves. */
  predicate Conflict(ibw: nat, pxp: nat)
  {
    (ibw > 0 && pxp > 0) || pxp > 1
  }

  /** The fixed head of the mode message; its short first piece lets proofs read its first letter. */
  const ModeHead := "This reader " + "supports either (multiple) ibw files, or one pxp file! Got "

  /** The message of the mode check (with the source's spelling `iwb`). */
  function ModeMessage(ibw: nat, pxp: nat): string
  {
    ModeHead + (NatText(ibw) + (" iwb file(s), and " + (NatText(pxp) + " pxp file(s).")))
  }

  /** `post_process`: the mode check, then every single-wave file in order, or the one packed
      experiment over every entry in order. `loadIbw` and `loadPxp` stand for the decoder. */
  function PostProcessSpec(st: State, ibw: seq<string>, pxp: seq<string>,
                           loadIbw: string -> Wave, loadPxp: string -> map<Key, Node>): (o: Outcome)
    requires Consistent(st)
    ensures Consistent(o.st)
  {
    if Conflict(|ibw|, |pxp|) then Outcome(st, Some(ValueError(ModeMessage(|ibw|, |pxp|))))
    else if |ibw| > 0 then IbwRun(st, ibw, loadIbw)
    else if |pxp| > 0 then PxpRun(st, loadPxp(pxp[0]), pxp[0], st.order)
    else Outcome(st, None)
  }

  /** The mode check raises its message, and changes nothing, exactly when the files conflict:
      no exception of a permitted mode carries that message. */
  lemma ModeCheck(st: State, ibw: seq<string>, pxp: seq<string>,
                  loadIbw: string -> Wave, loadPxp: string -> map<Key, Node>)
    requires Consistent(st)
    ensures var o := PostProcessSpec(st, ibw, pxp, loadIbw, loadPxp);
      o.err == Some(ValueError(ModeMessage(|ibw|, |pxp|))) <==> Conflict(|ibw|, |pxp|)
    ensures Conflict(|ibw|, |pxp|) ==> PostProcessSpec(st, ibw, pxp, loadIbw, loadPxp).st == st
    ensures ibw == [] && pxp == [] ==> PostProcessSpec(st, ibw, pxp, loadIbw, loadPxp) == Outcome(st, None)
  {
    assert "This reader "[0] == 'T';
    assert ModeMessage(|ibw|, |pxp|)[0] == 'T';
  }

  // ---- the statements that write one entry ------------------------------------------------

  /** The note pairs of a wave under `<entry>/note/<key>`. */
  method PutNotes(m: map<string, Value>, entry: string, note: string) returns (r: map<string, Value>)
    ensures r == m + NoteAttrs(entry, NotesOf(Tokens(note)))
  {
    var notes := ParseNote(note);
    r := PutNotePairs(m, entry, notes);
  }

  /** `attrs[f"{entry}/note/{key}"] = val` for every pair. */
  method PutNotePairs(m: map<string, Value>, entry: string, notes: map<string, string>)
    returns (r: map<string, Value>)
    ensures r == m + NoteAttrs(entry, notes)
  {
    var keys := notes.Keys;
    r := m;
    NotesNoneDone(m, entry, notes);
    while keys != {}
      invariant keys <= notes.Keys
      invariant r == m + NoteAttrs(entry, notes - keys)
      decreases keys
    {
      var k :| k in keys;
      NotePairStep(m, entry, notes - keys, k, notes[k]);
      NotesOneMoreDone(notes, keys, k);
      r := r[NoteKey(entry, k) := Str(notes[k])];
      keys := keys - {k};
    }
    NotesAllDone(notes);
  }

  /** The writes of one populated dimension, from the given coordinates and units. */
  method PutAxis(m: map<string, Value>, entry: string, cfg: Config, d: nat, source: (Value, Value))
    returns (r: map<string, Value>)
    requires Displayable(AxisNameOf(cfg, d))
    ensures r == Apply(m, AxisWrites(entry, cfg, d, source))
  {
    var name := Display(AxisNameOf(cfg, d));
    var unitsKey := DimName(d) + "_units";
    var head := [(Field(entry, name, ".data"), source.0), (Field(entry, name, ".units"), source.1)];
    var over := if unitsKey in cfg then [(Field(entry, name, ".units"), cfg[unitsKey])] else [];
    var tail := [(Field(entry, name, ".index"), Int(d))];
    r := m[Field(entry, name, ".data") := source.0];
    r := r[Field(entry, name, ".units") := source.1];
    assert [head[0]][..0] == [] && head[..1] == [head[0]];
    ApplySnoc(m, [head[0]], head[1]);
    assert r == Apply(m, head);
    if unitsKey in cfg {
      ApplySnoc(m, head, over[0]);
      r := r[Field(entry, name, ".units") := cfg[unitsKey]];
    }
    assert head + over == if unitsKey in cfg then head + [over[0]] else head;
    ApplySnoc(m, head + over, tail[0]);
    r := r[Field(entry, name, ".index") := Int(d)];
  }

  /** `dims`, the payload and its units. */
  method PutPayload(m: map<string, Value>, entry: string, cfg: Config, w: Wave, dims: seq<Value>)
    returns (r: map<string, Value>)
    requires dims == AxisNames(cfg, w, |w.nDim|)
    ensures r == Apply(m, PayloadWrites(entry, cfg, w))
  {
    var writes := PayloadWrites(entry, cfg, w);
    ApplyThree(m, writes[0], writes[1], writes[2]);
    assert writes == [writes[0], writes[1], writes[2]];
    r := m[entry + "/dims" := List(dims)];
    r := r[entry + "/data" := Array(w.wData)];
    if "data_units" in cfg {
      r := r[entry + "/data.units" := cfg["data_units"]];
    } else {
      r := r[entry + "/data.units" := Str(w.dataUnits)];
    }
  }

  /** The entry's metadata, when configured: a dict is copied item by item; anything else
      has no `.items()`. */
  method PutMetadata(m: map<string, Value>, entry: string, cfg: Config)
    returns (r: map<string, Value>, err: Option<Error>)
    ensures (r, err) == WithMetadata(m, entry, cfg)
  {
    r := m;
    if "metadata" !in cfg {
      return m, None;
    }
    var metadata := cfg["metadata"];
    if !metadata.Dict? {
      return m, Some(AttributeError);
    }
    var items := metadata.items;
    var writes := MetadataWrites(entry, items);
    var i := 0;
    while i < |items|
      invariant 0 <= i <= |items|
      invariant r == Apply(m, writes[..i])
    {
      assert writes[..i + 1] == writes[..i] + [writes[i]];
      ApplySnoc(m, writes[..i], writes[i]);
      r := r[entry + "/" + items[i].0 := items[i].1];
      i := i + 1;
    }
    assert writes[..i] == writes;
    return r, None;
  }

  /** The coordinates and units `process_ibw_files` gives dimension `d`: the header's ramp
      and dimension units. */
  method HeaderSource(w: Wave, d: nat) returns (source: (Value, Value))
    requires d < |w.nDim|
    ensures source == HeaderSources(w)[d]
  {
    var units := AxisUnitsFrom(w, d);
    source := (Coords(AxisFrom(w, d)), Str(units));
  }

  /** The dimension loop of `process_ibw_files`: every populated dimension's ramp and
      header units. */
  method PutHeaderAxes(m: map<string, Value>, entry: string, cfg: Config, w: Wave)
    returns (r: map<string, Value>, dims: seq<Value>)
    requires NamesDisplayable(cfg)
    ensures r == Apply(m, Axes(entry, cfg, w, HeaderSources(w), |w.nDim|))
    ensures dims == AxisNames(cfg, w, |w.nDim|)
  {
    r, dims := m, [];
    var d: nat := 0;
    while d < |w.nDim|
      invariant d <= |w.nDim|
      invariant r == Apply(m, Axes(entry, cfg, w, HeaderSources(w), d))
      invariant dims == AxisNames(cfg, w, d)
    {
      r, dims := PutHeaderAxis(m, r, dims, entry, cfg, w, d);
      d := d + 1;
    }
  }

  /** One round of the dimension loop of `process_ibw_files`, over a store holding the writes
      of the rounds before. */
  method PutHeaderAxis(ghost m: map<string, Value>, r: map<string, Value>, dims: seq<Value>,
                       entry: string, cfg: Config, w: Wave, d: nat)
    returns (r': map<string, Value>, dims': seq<Value>)
    requires d < |w.nDim| && NamesDisplayable(cfg)
    requires r == Apply(m, Axes(entry, cfg, w, HeaderSources(w), d)) && dims == AxisNames(cfg, w, d)
    ensures r' == Apply(m, Axes(entry, cfg, w, HeaderSources(w), d + 1))
    ensures dims' == AxisNames(cfg, w, d + 1)
  {
    AxesSnoc(entry, cfg, w, HeaderSources(w), d);
    AxisNamesSnoc(cfg, w, d);
    if w.nDim[d] <= 0 {
      return r, dims;
    }
    var source := HeaderSource(w, d);
    ApplyConcat(m, Axes(entry, cfg, w, HeaderSources(w), d), AxisWrites(entry, cfg, d, source));
    r' := PutAxis(r, entry, cfg, d, source);
    dims' := dims + [AxisNameOf(cfg, d)];
  }

  /** The entry search of `process_ibw_files`: the first configured entry whose `data` is
      the file's name, or else a new entry named after the file. */
  method SelectEntry(st: State, file: string) returns (c: Choice)
    requires EntriesValid(st.order, st.entries)
    ensures c == ChooseEntry(st, file)
  {
    var base := BaseName(file);
    var entry, cfg := "", map[];
    var i := 0;
    var found := false;
    while i < |st.order| && !found
      invariant 0 <= i <= |st.order|
      invariant !found ==> entry == "" && cfg == map[]
      invariant !found ==> forall j :: 0 <= j < i ==> !Matches(st.entries[st.order[j]], base)
      invariant found ==> 0 < i && FirstMatch(st.order, st.entries, base) == Some(i - 1)
      invariant found ==> entry == st.order[i - 1] && cfg == st.entries[entry]
    {
      var ed := st.entries[st.order[i]];
      if Matches(ed, base) {
        FirstMatchAt(st.order, st.entries, base, i);
        entry, cfg, found := st.order[i], ed, true;
      }
      i := i + 1;
    }
    if entry == "" {
      entry := Stem(base);
      c := Choice(entry, cfg, Register(st.order, entry), st.entries[entry := map[]]);
    } else {
      c := Choice(entry, cfg, st.order, st.entries);
    }
  }

  /** One file of `process_ibw_files`, statement by statement. */
  method IbwStep(st: State, file: string, w: Wave)
    returns (data: map<string, Value>, attrs: map<string, Value>, order: seq<string>,
             entries: map<string, Config>, err: Option<Error>)
    requires Consistent(st)
    ensures Outcome(State(data, attrs, order, entries), err) == IbwFile(st, file, w)
    ensures Consistent(State(data, attrs, order, entries))
  {
    var c := SelectEntry(st, file);
    ChooseEntryConsistent(st, file);
    var notes := PutNotes(st.attrs, c.entry, w.note);
    var axes, dims := PutHeaderAxes(st.data, c.entry, c.cfg, w);
    var out := PutPayload(axes, c.entry, c.cfg, w, dims);
    var meta;
    meta, err := PutMetadata(notes, c.entry, c.cfg);
    IbwFileStages(st, file, w, c, notes, axes, out, meta, err);
    data, attrs, order, entries := out, meta, c.order, c.entries;
  }

  /** Where `process_pxp_files` takes the coordinates and units of dimension `d` from. */
  method AxisSource(cfg: Config, tree: map<Key, Node>, file: string, w: Wave, d: nat)
    returns (r: Result<(Value, Value)>)
    requires d < |w.nDim|
    ensures r == PxpSource(cfg, tree, file, w, d)
  {
    if DimName(d) in cfg {
      var fetched := FetchWave(tree, cfg[DimName(d)], AxisLabel(d), file);
      if fetched.Failure? {
        return Failure(fetched.error);
      }
      r := Success((Array(fetched.value.wData), Str(fetched.value.dataUnits)));
    } else {
      var units := AxisUnitsFrom(w, d);
      r := Success((Coords(AxisFrom(w, d)), Str(units)));
    }
  }

  /** The dimension loop of `process_pxp_files`: a configured `axis<d>` wave supplies the
      coordinates and units of its dimension, the header supplies the others, and the first
      axis wave that cannot be fetched ends the loop. */
  method PutPxpAxes(m: map<string, Value>, entry: string, cfg: Config, tree: map<Key, Node>,
                    file: string, w: Wave)
    returns (r: map<string, Value>, dims: seq<Value>, err: Option<Error>)
    requires NamesDisplayable(cfg)
    ensures var p := PxpAxes(entry, cfg, tree, file, w, |w.nDim|);
      r == Apply(m, p.writes) && err == p.err
    ensures err.None? ==> dims == AxisNames(cfg, w, |w.nDim|)
  {
    r, dims, err := m, [], None;
    var d: nat := 0;
    while d < |w.nDim|
      invariant d <= |w.nDim|
      invariant PxpAxes(entry, cfg, tree, file, w, d).err.None?
      invariant r == Apply(m, PxpAxes(entry, cfg, tree, file, w, d).writes)
      invariant dims == AxisNames(cfg, w, d)
      invariant err == None
    {
      var r', dims', err' := PutPxpAxis(m, r, dims, entry, cfg, tree, file, w, d);
      if err'.Some? {
        return r, dims, err';
      }
      r, dims := r', dims';
      d := d + 1;
    }
  }

  /** One round of the dimension loop of `process_pxp_files`, over a store holding the writes
      of the rounds before. */
  method PutPxpAxis(ghost m: map<string, Value>, r: map<string, Value>, dims: seq<Value>,
                    entry: string, cfg: Config, tree: map<Key, Node>, file: string, w: Wave, d: nat)
    returns (r': map<string, Value>, dims': seq<Value>, err: Option<Error>)
    requires d < |w.nDim| && NamesDisplayable(cfg)
    requires PxpAxes(entry, cfg, tree, file, w, d).err.None?
    requires r == Apply(m, PxpAxes(entry, cfg, tree, file, w, d).writes) && dims == AxisNames(cfg, w, d)
    ensures err.Some? ==>
      PxpAxes(entry, cfg, tree, file, w, |w.nDim|) == Partial(PxpAxes(entry, cfg, tree, file, w, d).writes, err)
    ensures err.None? ==> var p := PxpAxes(entry, cfg, tree, file, w, d + 1);
      p.err.None? && r' == Apply(m, p.writes) && dims' == AxisNames(cfg, w, d + 1)
  {
    AxisNamesSnoc(cfg, w, d);
    if w.nDim[d] <= 0 {
      PxpAxesSkip(entry, cfg, tree, file, w, d);
      return r, dims, None;
    }
    var fetched := AxisSource(cfg, tree, file, w, d);
    PxpAxesStep(entry, cfg, tree, file, w, d, fetched);
    if fetched.Failure? {
      return r, dims, Some(fetched.error);
    }
    ApplyConcat(m, PxpAxes(entry, cfg, tree, file, w, d).writes, AxisWrites(entry, cfg, d, fetched.value));
    r' := PutAxis(r, entry, cfg, d, fetched.value);
    dims' := dims + [AxisNameOf(cfg, d)];
    err := None;
  }

  /** One configured entry of `process_pxp_files`, statement by statement. */
  method PxpStep(st: State, entry: string, cfg: Config, tree: map<Key, Node>, file: string)
    returns (data: map<string, Value>, attrs: map<string, Value>, err: Option<Error>)
    requires NamesDisplayable(cfg)
    ensures Outcome(State(data, attrs, st.order, st.entries), err) == PxpEntry(st, entry, cfg, tree, file)
  {
    if "data" !in cfg {
      return st.data, st.attrs, Some(ValueError(NoDataMessage(entry)));
    }
    var fetched := FetchWave(tree, cfg["data"], "'data'", file);
    if fetched.Failure? {
      return st.data, st.attrs, Some(fetched.error);
    }
    var w := fetched.value;
    attrs := PutNotes(st.attrs, entry, w.note);
    var dims;
    data, dims, err := PutPxpAxes(st.data, entry, cfg, tree, file, w);
    if err.Some? {
      return;
    }
    ghost var axes := PxpAxes(entry, cfg, tree, file, w, |w.nDim|).writes;
    ghost var extra: seq<Write> := [];
    if "data_errors" in cfg {
      var errors := FetchWave(tree, cfg["data_errors"], "'data_errors'", file);
      if errors.Failure? {
        return data, attrs, Some(errors.error);
      }
      extra := [(entry + "/data.errors", Array(errors.value.wData))];
      ApplyOne(data, extra[0]);
      data := data[entry + "/data.errors" := Array(errors.value.wData)];
    }
    assert ErrorsWrites(entry, cfg, tree, file) == Success(extra);
    ApplyConcat(st.data, axes, extra);
    data := PutPayload(data, entry, cfg, w, dims);
    ApplyConcat(st.data, axes + extra, PayloadWrites(entry, cfg, w));
    attrs, err := PutMetadata(attrs, entry, cfg);
  }

  /** `process_pxp_files`: every configured entry in order, until one raises. */
  method PxpAll(st: State, tree: map<Key, Node>, file: string)
    returns (data: map<string, Value>, attrs: map<string, Value>, err: Option<Error>)
    requires Consistent(st)
    ensures Outcome(State(data, attrs, st.order, st.entries), err) == PxpRun(st, tree, file, st.order)
  {
    data, attrs, err := st.data, st.attrs, None;
    var i := 0;
    while i < |st.order|
      invariant 0 <= i <= |st.order| && err == None
      invariant Outcome(State(data, attrs, st.order, st.entries), None) == PxpRun(st, tree, file, st.order[..i])
    {
      var name := st.order[i];
      data, attrs, err := PxpStep(State(data, attrs, st.order, st.entries), name, st.entries[name], tree, file);
      if err.Some? {
        PxpRunEndsAt(st, tree, file, st.order, i, Outcome(State(data, attrs, st.order, st.entries), err));
        return;
      }
      PxpRunSnoc(st, tree, file, st.order, i);
      i := i + 1;
    }
    PrefixWhole(st.order);
  }

  // ---- the reader object ------------------------------------------------------------------

  class IgorReader {
    var configFile: Option<string>
    var ibwFiles: seq<string>
    var pxpFiles: seq<string>
    var data: map<string, Value>
    var attrs: map<string, Value>
    /** The keys of `self.entries` in insertion order, which is the order Python iterates. */
    var entryOrder: seq<string>
    var entries: map<string, Config>

    /** The part of the reader that post-processing works on. */
    function Current(): State
      reads this
    {
      State(data, attrs, entryOrder, entries)
    }

    ghost predicate Valid()
      reads this
    {
      Consistent(Current())
    }

    constructor ()
      ensures Valid()
      ensures configFile == None && ibwFiles == [] && pxpFiles == []
      ensures data == map[] && attrs == map[] && entryOrder == [] && entries == map[]
    {
      configFile := None;
      ibwFiles := [];
      pxpFiles := [];
      data := map[];
      attrs := map[];
      entryOrder := [];
      entries := map[];
    }

    /** A later configuration file replaces an earlier one (the source only logs it). */
    method SetConfigFile(path: string)
      modifies this`configFile
      ensures configFile == Some(path)
    {
      configFile := Some(path);
    }

    method HandleIbwFile(path: string)
      modifies this`ibwFiles
      ensures ibwFiles == old(ibwFiles) + [path]
    {
      ibwFiles := ibwFiles + [path];
    }

    method HandlePxpFile(path: string)
      modifies this`pxpFiles
      ensures pxpFiles == old(pxpFiles) + [path]
    {
      pxpFiles := pxpFiles + [path];
    }

    /** `parse_entry_dict` on the items of a dict. */
    method ParseEntryDict(items: seq<(string, Value)>) returns (err: Option<Error>)
      requires Valid() && ItemsDisplayable(items)
      modifies this`entryOrder, this`entries
      ensures Valid()
      ensures Parsed(entryOrder, entries, err) == ParseEntries(old(entryOrder), old(entries), items)
    {
      var i := 0;
      while i < |items|
        invariant 0 <= i <= |items|
        invariant Valid()
        invariant Parsed(entryOrder, entries, None) == ParseEntries(old(entryOrder), old(entries), items[..i])
      {
        var (name, v) := items[i];
        assert items[..i + 1][..i] == items[..i];
        if !v.Dict? {
          ParseEntriesStops(old(entryOrder), old(entries), items, i + 1);
          return Some(ValueError(EntryTypeMessage(v, name)));
        }
        RegisterValid(entryOrder, entries, name, ToMap(v.items));
        entries := entries[name := ToMap(v.items)];
        entryOrder := Register(entryOrder, name);
        i := i + 1;
      }
      assert items[..i] == items;
      return None;
    }

    /** `handle_objects`: exactly one object, a dict of entry dicts. */
    method HandleObjects(objects: Value) returns (err: Option<Error>)
      requires Valid()
      requires objects.Tuple? && |objects.parts| == 1 && objects.parts[0].Dict? ==>
                 ItemsDisplayable(objects.parts[0].items)
      modifies this`entryOrder, this`entries
      ensures Valid()
      ensures !(objects.Tuple? && |objects.parts| == 1) ==>
                err == Some(ValueError("Expect tuple of length 1 as objects, got " + TypeName(objects)))
                && entryOrder == old(entryOrder) && entries == old(entries)
      ensures objects.Tuple? && |objects.parts| == 1 && !objects.parts[0].Dict? ==>
                err == Some(ValueError("Expected dict as first object, got " + TypeName(objects.parts[0]) + "!"))
                && entryOrder == old(entryOrder) && entries == old(entries)
      ensures objects.Tuple? && |objects.parts| == 1 && objects.parts[0].Dict? ==>
                Parsed(entryOrder, entries, err) == ParseEntries(old(entryOrder), old(entries), objects.parts[0].items)
    {
      if !(objects.Tuple? && |objects.parts| == 1) {
        return Some(ValueError("Expect tuple of length 1 as objects, got " + TypeName(objects)));
      }
      var first := objects.parts[0];
      if !first.Dict? {
        return Some(ValueError("Expected dict as first object, got " + TypeName(first) + "!"));
      }
      err := ParseEntryDict(first.items);
    }

    /** `get_data`: the value under `<entry>/<path>` for the entry being written out. */
    method GetData(entryName: string, path: string) returns (v: Option<Value>)
      ensures entryName + "/" + path in data ==> v == Some(data[entryName + "/" + path])
      ensures entryName + "/" + path !in data ==> v == None
    {
      var key := entryName + "/" + path;
      v := if key in data then Some(data[key]) else None;
    }

    /** `get_attr`: the attribute under `<entry>/<path>`. */
    method GetAttr(entryName: string, path: string) returns (v: Option<Value>)
      ensures entryName + "/" + path in attrs ==> v == Some(attrs[entryName + "/" + path])
      ensures entryName + "/" + path !in attrs ==> v == None
    {
      var key := entryName + "/" + path;
      v := if key in attrs then Some(attrs[key]) else None;
    }

    /** `get_data_dims`: the entry's `dims` list, whatever the path asked for. */
    method GetDataDims(entryName: string, path: string) returns (v: Option<Value>)
      ensures entryName + "/dims" in data ==> v == Some(data[entryName + "/dims"])
      ensures entryName + "/dims" !in data ==> v == None
    {
      var key := entryName + "/dims";
      v := if key in data then Some(data[key]) else None;
    }

    /** `get_entry_names`: the configured entries in order, or the single default `entry`. */
    method GetEntryNames() returns (names: seq<string>)
      requires Valid()
      ensures entries == map[] ==> names == ["entry"]
      ensures entries != map[] ==> names == entryOrder
      ensures forall n :: n in names <==> n in entries || (entries == map[] && n == "entry")
    {
      if |entryOrder| > 0 {
        assert entryOrder[0] in entries;
        names := entryOrder;
      } else {
        names := ["entry"];
        assert forall n :: n !in entries;
      }
    }

    // -- the two modes --

    /** Stores a finished step's stores and entry table in the reader. */
    method Commit(d: map<string, Value>, a: map<string, Value>, ord: seq<string>, ent: map<string, Config>)
      modifies this`data, this`attrs, this`entryOrder, this`entries
      ensures Current() == State(d, a, ord, ent)
    {
      data, attrs, entryOrder, entries := d, a, ord, ent;
    }

    /** `process_ibw_files` for one file, whose decoded wave is `w`. */
    method ProcessIbwFile(file: string, w: Wave) returns (err: Option<Error>)
      requires Valid()
      modifies this`data, this`attrs, this`entryOrder, this`entries
      ensures Valid()
      ensures Outcome(Current(), err) == IbwFile(old(Current()), file, w)
    {
      var d, a, ord, ent;
      d, a, ord, ent, err := IbwStep(Current(), file, w);
      Commit(d, a, ord, ent);
    }


    /** `process_pxp_files` on the file, whose decoded folder tree is `tree`. */
    method ProcessPxpFile(file: string, tree: map<Key, Node>) returns (err: Option<Error>)
      requires Valid()
      modifies this`data, this`attrs, this`entryOrder, this`entries
      ensures Valid()
      ensures Outcome(Current(), err) == PxpRun(old(Current()), tree, file, old(entryOrder))
    {
      var d, a;
      d, a, err := PxpAll(Current(), tree, file);
      Commit(d, a, entryOrder, entries);
    }

    /** The loop of `post_process` over the single-wave files, in order, stopping at the
        first exception. */
    method ProcessIbwFiles(load: string -> Wave) returns (err: Option<Error>)
      requires Valid()
      modifies this`data, this`attrs, this`entryOrder, this`entries
      ensures Valid()
      ensures Outcome(Current(), err) == IbwRun(old(Current()), ibwFiles, load)
    {
      ghost var st := Current();
      var i := 0;
      err := None;
      while i < |ibwFiles|
        invariant 0 <= i <= |ibwFiles|
        invariant Valid() && err == None
        invariant Outcome(Current(), None) == IbwRun(st, ibwFiles[..i], load)
      {
        err := ProcessIbwFile(ibwFiles[i], load(ibwFiles[i]));
        if err.Some? {
          IbwRunEndsAt(st, ibwFiles, load, i, Outcome(Current(), err));
          return;
        }
        IbwRunSnoc(st, ibwFiles, load, i);
        i := i + 1;
      }
      PrefixWhole(ibwFiles);
    }

    /** `post_process`: the mode check, then each single wave in turn or the one packed
        experiment. `loadIbw` and `loadPxp` stand for the decoder of each kind of file. */
    method PostProcess(loadIbw: string -> Wave, loadPxp: string -> map<Key, Node>) returns (err: Option<Error>)
      requires Valid()
      modifies this`data, this`attrs, this`entryOrder, this`entries
      ensures Valid()
      ensures Outcome(Current(), err) == PostProcessSpec(old(Current()), ibwFiles, pxpFiles, loadIbw, loadPxp)
    {
      if Conflict(|ibwFiles|, |pxpFiles|) {
        return Some(ValueError(ModeMessage(|ibwFiles|, |pxpFiles|)));
      }
      if |ibwFiles| > 0 {
        err := ProcessIbwFiles(loadIbw);
        return;
      }
      if |pxpFiles| > 0 {
        err := ProcessPxpFile(pxpFiles[0], loadPxp(pxpFiles[0]));
      } else {
        err := None;
      }
    }
  }
}

