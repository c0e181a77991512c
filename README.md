# Igor reader: entry normalization

This project models the reader of the Igor Pro plugin for the pynxtools converter. The
reader takes waves that have already been decoded and normalizes them into two flat,
path-keyed stores: `data` holds axes, payloads and units, and `attrs` holds note pairs and
metadata. A key is a composite path `"<entry>/<field>[.attribute]"`, and a later write to a
key silently replaces an earlier one. The configuration relies on that overwrite for its
precedence rules.

The model covers two readers.

The current reader (`src/pynxtools_igor/reader.py`) is modelled by these modules:
- `Notes`: the note parser. A note becomes a key/value map of its whitespace tokens that
  hold exactly one `=`. A later pair with the same key wins.
- `Axis`: the ramp `sfA[d] * i + sfB[d]` of a dimension, and the concatenation of its unit
  fragments.
- `Paths`: the path resolver `iterate_dictionary` over a packed experiment's folder tree.
  Each name is looked up as text, and then as its UTF-8 bytes.
- `Normalize`: what both modes share. This covers axis names (`axis<d>_name`, or else
  `axis<d>`), the writes one entry makes, which fields a populated dimension owns, and what
  the stores hold when an entry is done.
- `IbwMode`: single-wave mode (`process_ibw_files`). It picks the entry, writes note
  pairs, axes, payload and metadata.
- `PxpMode`: packed-experiment mode (`process_pxp_files`), for every configured entry. It
  handles the data, axis and error wave references, with the reader's own exceptions.
- `Reader`: the `IgorReader` object.
  - `parse_entry_dict` and `handle_objects`.
  - The getters.
  - The file queues.
  - `post_process` with its mode check. `post_process` is written as methods with loops,
    and each method is proved equal to the functional specification of the same step.

The older single-wave reader of the photoemission plugin (`pynxtools_mpes/igor.py`) is module
`MpesReader`. It writes un-prefixed `axis<d>`, `axis<d>/@units`, `data` and `data/@units`
for every file, and replaces `ibw_attrs` with the note of each file.

Supporting modules:
- `Text`: Python's `split`, `split()` and `str(int)`.
- `Values`: configuration literals and arrays.
- `Wave`: the decoded wave record.
- `Store`: write logs, where the later write wins.
- `FileNames`: `Path(file).name` and the stem before the first dot.

How the model represents the source:
- The decoders `binarywave.load` and `packed.load` are parameters (`load: string ->
  Wave`, `loadPxp`).
- A Python dict is a Dafny `map`. A dict whose iteration order matters keeps that order as
  a sequence: the entry table is `entryOrder` plus `entries`, and configuration dicts carry
  their items in order.
- Exceptions are `Error` values. `ValueError` carries the message the source formats.
  `AttributeError` and `TypeError` stand for what the Python runtime raises on a value of
  the wrong kind.
- A step that raises keeps every write made before it, as the Python object does.

The model follows the code where it departs from the behaviour one might expect from the reader's purpose:
- Every error is a plain `ValueError` with the source's message. There are no separate
  conflicting-mode, missing-reference or not-found kinds.
- The stores keep the writes made before an exception.
- A second configuration file replaces the first one instead of being refused.
- A file with no matching entry is put into an entry named by the part of its name before
  the first dot, not by its whole base name.
- An empty folder found at a reference counts as "not found", because Python's `not obj`
  test applies.
- A configured entry that is named `""` and whose `data` matches the file still has a
  new entry made for the file's stem. The matched configuration is the one that entry uses.
- A header with element counts `[3, 1]` could be expected to give `dims == ["axis0"]`,
  treating the count 1 as absent. The code gives `dims == ["axis0", "axis1"]`, because
  `1 > 0`. Dimension 0's coordinates for `sfA[0] = 1`, `sfB[0] = 0` are `[0, 1, 2]`, and
  dimension 1 has the single coordinate `sfB[1]` (IbwMode.TwoDimExample).

## Model

| member | source | states |
|---|---|---|
| Text.Pieces | src/pynxtools_igor/reader.py:48 | `s.split(c)` has one more piece than `s` has copies of `c`, and no piece holds `c` |
| Text.PiecesTwo | src/pynxtools_igor/reader.py:48-50 | a token splits on `=` into exactly two pieces iff it holds exactly one `=`, and then the pieces are the text before and after it |
| Text.Tokens | src/pynxtools_igor/reader.py:47 | `split()` yields non-empty tokens free of whitespace |
| Text.WordLength | src/pynxtools_igor/reader.py:47 | a token runs up to the first whitespace character |
| Text.ReplaceCR | src/pynxtools_igor/reader.py:45 | `replace("\r", "\n")` changes exactly the carriage returns, and keeps the length |
| Text.TokensReplaceCR | src/pynxtools_igor/reader.py:45-47 | turning carriage returns into line feeds never changes the whitespace tokens |
| Text.NatText | src/pynxtools_igor/reader.py:233 | `str(n)` is non-empty, and has a single digit exactly when `n < 10` |
| Text.NatTextInjective | src/pynxtools_igor/reader.py:233-236 | different dimensions print differently, so `axis{dim}` names are distinct |
| Text.NatTextDigits | src/pynxtools_igor/reader.py:233 | a printed dimension is made of decimal digits only |
| Values.Display | src/pynxtools_igor/reader.py:237 | interpolating a configured string name inserts it unchanged |
| Values.ToMap | src/pynxtools_igor/reader.py:167 | a dict's keys are exactly the names of its items |
| Store.LastWrite | src/pynxtools_igor/reader.py:237-252 | the last write to a key is found exactly when some write names the key, and no later write names it |
| Store.ApplyLastWrite | src/pynxtools_igor/reader.py:237-252 | after a sequence of writes a key holds its last write's value, and an unwritten key keeps its old value or stays absent |
| Store.ApplyKeys | src/pynxtools_igor/reader.py:237-252 | the store's keys afterwards are the old keys plus every key written |
| Store.ApplyUntouched | src/pynxtools_igor/reader.py:237-252 | writes to other keys leave a key as it was |
| Store.ApplyConcat | src/pynxtools_igor/reader.py:237-252 | two write logs in a row act as their concatenation |
| Store.KeysConcat | src/pynxtools_igor/reader.py:237-252 | the keys of concatenated logs are the union of their keys |
| Notes.NotesOfStep | src/pynxtools_igor/reader.py:47-51 | one more token stores its two pieces exactly when it holds a single `=` |
| Notes.NotesOfMeaning | src/pynxtools_igor/reader.py:47-51 | the parsed map holds a key iff some token is a single-`=` pair with that key; its value is that of the last such token |
| Notes.ParseNote | src/pynxtools_igor/reader.py:45-53 | `parse_note` produces the map of single-`=` tokens, with the last duplicate winning, and never fails on other tokens |
| Axis.AxisFromRamp | src/pynxtools_igor/reader.py:67-71 | the ramp has `nDim[d]` coordinates (none when `nDim[d] <= 0`), the `i`-th being `sfA[d] * i + sfB[d]` |
| Axis.AxisFromIsProgression | src/pynxtools_igor/reader.py:67-71 | the ramp starts at `sfB[d]`, is empty exactly when `nDim[d] <= 0`, and each step adds `sfA[d]` |
| Axis.AxisFromExample | src/pynxtools_igor/reader.py:67-71 | `sfA = 2`, `sfB = 1` and five elements give `[1, 3, 5, 7, 9]` |
| IbwMode.TwoDimExample | src/pynxtools_igor/reader.py:229-245 | element counts `[3, 1]` without configured names give `dims == ["axis0", "axis1"]`; with `sfA[0] = 1`, `sfB[0] = 0` dimension 0's coordinates are `[0, 1, 2]`, and dimension 1's are the single value `sfB[1]` |
| Axis.ConcatAppend | src/pynxtools_igor/reader.py:87-89 | joining unit fragments distributes over splitting the fragment list |
| Axis.AxisUnitsFrom | src/pynxtools_igor/reader.py:85-91 | the loop returns the in-order concatenation of the dimension's unit fragments |
| Paths.SplitOnce | src/pynxtools_igor/reader.py:96 | `split("/", 1)` gives the whole path when it has no `/`, else the text before the first `/` and the rest, which rejoin to the path |
| Paths.EncodeChar | src/pynxtools_igor/reader.py:97 | a character encodes to one to four UTF-8 bytes |
| Paths.ResolveIsWalk | src/pynxtools_igor/reader.py:94-105 | resolving a path visits the names of `path.split("/")` in order, from the top folder down, and nothing else |
| Paths.ResolveName | src/pynxtools_igor/reader.py:96-101 | a single name is looked up as text first, as UTF-8 bytes only when the text key is absent, and is `None` when found under neither |
| Paths.ResolveSegments | src/pynxtools_igor/reader.py:96-105 | a path of several segments descends into the folder its first segment names; it is `None` when that name is missing, and fails when the name is a wave |
| FileNames.Components | src/pynxtools_igor/reader.py:215 | `pathlib` keeps only non-empty components other than `.` |
| FileNames.BaseName | src/pynxtools_igor/reader.py:215 | `Path(file).name` holds no `/` |
| FileNames.BaseNameOfJoin | src/pynxtools_igor/reader.py:215 | the name of `dir/leaf` is `leaf` for a proper file name |
| FileNames.PiecesSnoc | src/pynxtools_igor/reader.py:221 | a final piece without the separator is split off unchanged |
| FileNames.StemIsPrefix | src/pynxtools_igor/reader.py:221 | `name.split(".")[0]` is the name up to its first dot, or the whole name when it has none |
| Normalize.Register | src/pynxtools_igor/reader.py:172 | `entries[name] = ...` puts the name into the iteration order |
| Normalize.RegisterValid | src/pynxtools_igor/reader.py:172 | registering an entry keeps the order in step with the entry table |
| Normalize.DimNameInjective | src/pynxtools_igor/reader.py:233-236 | different dimensions have different default names `axis<d>` |
| Normalize.AxesSnoc | src/pynxtools_igor/reader.py:230-245 | a populated dimension appends its axis writes to the loop, and an empty one appends nothing |
| Normalize.PositiveDims | src/pynxtools_igor/reader.py:230-231 | the populated dimensions, in increasing order |
| Normalize.AxisNamesSnoc | src/pynxtools_igor/reader.py:229-245 | a populated dimension appends its name to `dims`, and an empty one does not |
| Normalize.AxisNamesPositive | src/pynxtools_igor/reader.py:229-247 | `dims` names exactly the populated dimensions in increasing order, each under its configured or default name |
| Normalize.EntryWritesStages | src/pynxtools_igor/reader.py:229-252 | an entry's writes are its axes, then the error array, then `dims`, `data` and `data.units` |
| Normalize.NoteKeyInjective | src/pynxtools_igor/reader.py:227 | different note keys go to different attributes |
| Normalize.NoteAttrsAdd | src/pynxtools_igor/reader.py:226-227 | one more note pair adds one attribute |
| Normalize.NotePairStep | src/pynxtools_igor/reader.py:226-227 | writing one more note pair over earlier ones extends the note attributes by that pair |
| Normalize.PrefixApart | src/pynxtools_igor/reader.py:237-252 | different tails stay different behind a common entry prefix |
| Normalize.SuffixedInjective | src/pynxtools_igor/reader.py:237-244 | a name and a suffix among `.data`, `.units` and `.index` are read back from the key |
| Normalize.FieldInjective | src/pynxtools_igor/reader.py:237-244 | two axis fields of an entry are equal only when their names and suffixes are |
| Normalize.FieldNotOfOther | src/pynxtools_igor/reader.py:237-244 | two differently named axes share no field |
| Normalize.FieldNotPayload | src/pynxtools_igor/reader.py:237-252 | an axis field is never `dims`, `data` or `data.errors`, and is `data.units` only for an axis named `data` |
| Normalize.SuffixedNotPayload | src/pynxtools_igor/reader.py:237-252 | the tail of an axis field is none of the closing key names, except `data.units` for an axis named `data` |
| Normalize.PayloadKeysDistinct | src/pynxtools_igor/reader.py:247-252 | `dims`, `data`, `data.units` and `data.errors` are four different keys |
| Normalize.AxisWritesKeys | src/pynxtools_igor/reader.py:237-244 | a dimension writes its three axis fields and no other key |
| Normalize.AxisWritesValues | src/pynxtools_igor/reader.py:237-244 | a dimension leaves its source coordinates, the configured `axis<d>_units` (else the source units) and its index `d` |
| Normalize.AxesStepKeys | src/pynxtools_igor/reader.py:230-245 | one more dimension adds the fields of its axis when it is populated, and nothing otherwise |
| Normalize.AxesKeys | src/pynxtools_igor/reader.py:230-245 | the dimension loop writes exactly the fields of the populated dimensions; an empty dimension writes nothing |
| Normalize.FieldNotOfOthers | src/pynxtools_igor/reader.py:230-245 | a field of a populated dimension belongs to no later populated dimension |
| Normalize.FieldNotOfNext | src/pynxtools_igor/reader.py:230-245 | nor to the next dimension below it |
| Normalize.AxesValues | src/pynxtools_igor/reader.py:230-245 | after the loop each populated dimension holds its coordinates, its units (configured units first) and its index, when names are distinct |
| Normalize.AxisFieldSurvives | src/pynxtools_igor/reader.py:247-252 | the closing writes and the error array leave every axis field alone |
| Normalize.EntryAxisValues | src/pynxtools_igor/reader.py:229-252 | after the whole entry each populated dimension holds its coordinates, units and index under its configured or default name |
| Normalize.EntryPayloadValues | src/pynxtools_igor/reader.py:247-252 | after the whole entry `dims` lists the axis names, `data` is the payload, `data.units` is the configured `data_units` (else the wave's), and `data.errors` holds the error array when one was written |
| Normalize.DefaultNames | src/pynxtools_igor/reader.py:233-236 | without configured names the default names are printable, distinct and never `data` |
| Normalize.FirstMatch | src/pynxtools_igor/reader.py:214-218 | finds the first entry, in insertion order, whose `data` is the file's name, and `None` only when no entry has that name |
| Normalize.FirstMatchAt | src/pynxtools_igor/reader.py:214-218 | the first matching position is the one found |
| IbwMode.HeaderSources | src/pynxtools_igor/reader.py:237-238 | each dimension's coordinates and units come from the wave's own ramp and unit fragments |
| IbwMode.IbwFile | src/pynxtools_igor/reader.py:210-257 | one file keeps the state consistent, and the only exception it raises is `AttributeError` from non-dict metadata |
| IbwMode.ChooseEntryConsistent | src/pynxtools_igor/reader.py:212-222 | the chosen entry is registered in the entry table, and its configuration can be printed |
| IbwMode.IbwFileStages | src/pynxtools_igor/reader.py:210-257 | a file is the entry choice, then the note pairs, the axes, the closing writes and the metadata |
| IbwMode.ChooseEntryIsFirstMatch | src/pynxtools_igor/reader.py:212-218 | the first entry whose `data` is the file's base name is used, with its configuration and no new entry |
| IbwMode.ChooseEntryWithoutMatch | src/pynxtools_igor/reader.py:219-222 | with no match, the stem of the base name gets an empty configuration that replaces any entry of that name |
| IbwMode.IbwFileData | src/pynxtools_igor/reader.py:229-252 | a file leaves each populated dimension's ramp, units (configured first) and index under its name, then `dims`, the payload and its units (configured first) |
| IbwMode.IbwFileAttrs | src/pynxtools_igor/reader.py:226-227 | a file leaves every note pair under `<entry>/note/<key>`; metadata items then win over colliding keys; non-dict metadata raises `AttributeError` after the notes are written |
| IbwMode.IbwRun | src/pynxtools_igor/reader.py:202-203 | a run over files keeps the state consistent, and only `AttributeError` can end it |
| IbwMode.IbwRunEndsAt | src/pynxtools_igor/reader.py:202-203 | a file that raises ends the run with its outcome |
| IbwMode.IbwRunSnoc | src/pynxtools_igor/reader.py:202-203 | after the earlier files succeed, one more file is one more `process_ibw_files` |
| IbwMode.IbwRunUnfold | src/pynxtools_igor/reader.py:202-203 | the last file runs only when the earlier files raised nothing |
| IbwMode.IbwRunStops | src/pynxtools_igor/reader.py:202-203 | once a file has raised, the later files change nothing |
| PxpMode.FetchWave | src/pynxtools_igor/reader.py:265-269 | a reference yields a wave exactly when it is text that resolves to a wave record; it raises the not-found `ValueError` exactly when the path is missing or names an empty folder |
| PxpMode.PxpSources | src/pynxtools_igor/reader.py:284-304 | each dimension whose source can be fetched gets that source |
| PxpMode.ErrorsWrites | src/pynxtools_igor/reader.py:313-319 | the error wave writes at most `<entry>/data.errors`, and nothing when `data_errors` is not configured; it fails exactly when the configured reference cannot be fetched, with that fetch's error |
| PxpMode.PxpEntry | src/pynxtools_igor/reader.py:262-332 | an entry without `data` raises its message and writes nothing; an unresolved data wave raises before any write; every `ValueError` message starts with a quote |
| PxpMode.PxpRun | src/pynxtools_igor/reader.py:262-332 | a run never changes the entry table, and every `ValueError` it raises is quote-led |
| PxpMode.PxpRunUnfold | src/pynxtools_igor/reader.py:262 | the last entry runs only when the earlier entries raised nothing |
| PxpMode.PxpRunSnoc | src/pynxtools_igor/reader.py:262 | after the earlier entries succeed, one more entry is processed |
| PxpMode.PxpRunEndsAt | src/pynxtools_igor/reader.py:262-269 | an entry that raises ends the run with its outcome |
| PxpMode.PxpRunStops | src/pynxtools_igor/reader.py:262-269 | once an entry has raised, the later entries change nothing |
| PxpMode.FetchableSnoc | src/pynxtools_igor/reader.py:275-289 | at each dimension, every populated dimension so far can be fetched iff the previous ones can and this one can when populated |
| PxpMode.PxpAxesSuccess | src/pynxtools_igor/reader.py:275-311 | the axis loop succeeds exactly when every populated dimension's source can be fetched |
| PxpMode.PxpAxesWrites | src/pynxtools_igor/reader.py:275-311 | a successful axis loop makes exactly the axis writes of the sources |
| PxpMode.PxpAxesSnoc | src/pynxtools_igor/reader.py:275-311 | a dimension skips when empty, raises its source's error, or appends its writes |
| PxpMode.PxpAxesStep | src/pynxtools_igor/reader.py:284-311 | a populated dimension whose source fails ends the loop with that error; otherwise it adds its writes |
| PxpMode.PxpAxesSkip | src/pynxtools_igor/reader.py:277 | an empty dimension adds nothing |
| PxpMode.PxpAxesStops | src/pynxtools_igor/reader.py:285-289 | once the axis loop has raised, later dimensions change nothing |
| PxpMode.PxpAxesFailure | src/pynxtools_igor/reader.py:275-311 | a failed axis loop raises the error of a populated dimension that cannot be fetched, after the full writes of the dimensions before it |
| PxpMode.PxpEntryAxisFailure | src/pynxtools_igor/reader.py:284-289 | an entry whose configured `axis<d>` reference cannot be resolved raises that dimension's error (for a string reference, the `not found` message naming `axis<d>`, the reference and the file), keeps the axis writes of the dimensions before it and the notes, and writes no `dims`, `data` or (when no populated axis is named `data`) `data.units` |
| PxpMode.PxpEntryErrorsFailure | src/pynxtools_igor/reader.py:313-318 | an entry whose axes resolve but whose `data_errors` reference cannot be resolved raises the `not found` error naming `'data_errors'`, keeps every axis write and the notes, and writes no `dims`, `data` or (when no populated axis is named `data`) `data.units` |
| Normalize.AxesKeepPayload | src/pynxtools_igor/reader.py:229-245 | the dimension loop leaves `<entry>/dims`, `<entry>/data` and, when no populated axis is named `data`, `<entry>/data.units` exactly as they were |
| PxpMode.PxpSourceMessage | src/pynxtools_igor/reader.py:285-289 | an axis wave that is not found raises its message naming `'axis<d>'`, the path and the file |
| PxpMode.PxpAxesMessage | src/pynxtools_igor/reader.py:285-289 | the axis loop raises only quote-led not-found messages |
| PxpMode.PxpEntryData | src/pynxtools_igor/reader.py:274-327 | a fully fetched entry leaves, per populated dimension, the `axis<d>` wave's payload and units (else the data wave's ramp and units), with configured units first; then `dims`, the payload, its units and the error wave's payload |
| PxpMode.PxpEntryWrites | src/pynxtools_igor/reader.py:274-327 | a fully fetched entry makes the shared entry writes, with its fetched sources and the error wave |
| PxpMode.PxpEntryFetched | src/pynxtools_igor/reader.py:262-332 | a fully fetched entry makes every write, and only its metadata can raise |
| PxpMode.PxpEntryAttrs | src/pynxtools_igor/reader.py:271-272 | a fully fetched entry leaves its data wave's note pairs, then the metadata items over them; non-dict metadata raises `AttributeError` |
| Reader.ParseEntriesValid | src/pynxtools_igor/reader.py:166-172 | reading entries keeps the order in step with the entry table |
| Reader.ParseEntriesDisplayable | src/pynxtools_igor/reader.py:166-172 | reading keeps every configuration printable when the new ones are |
| Reader.ParseEntriesSucceeds | src/pynxtools_igor/reader.py:167-171 | reading succeeds exactly when every value is a dict |
| Reader.ParseEntriesKeys | src/pynxtools_igor/reader.py:166-172 | on success the entries are the old ones plus the item names; entries not named keep their configuration; new names follow old ones in order |
| Reader.ParseEntriesLastWins | src/pynxtools_igor/reader.py:172 | each name ends with the dict of its last item |
| Reader.ParseEntriesStops | src/pynxtools_igor/reader.py:168-171 | after an item raises, the items after it are not read |
| Reader.ParseEntriesError | src/pynxtools_igor/reader.py:168-171 | the first non-dict value raises with its type and key in the message, after the items before it were stored |
| Reader.PostProcessSpec | src/pynxtools_igor/reader.py:189-208 | `post_process` keeps the state consistent |
| Reader.ModeCheck | src/pynxtools_igor/reader.py:190-199 | the mode error is raised exactly when packed experiments sit beside single waves or there is more than one packed experiment; it changes nothing; no files means no change |
| Reader.PutNotes | src/pynxtools_igor/reader.py:226-227 | the attributes gain the parsed note pairs under `<entry>/note/<key>` |
| Reader.PutNotePairs | src/pynxtools_igor/reader.py:226-227 | the loop writes every note pair under its note key |
| Reader.PutAxis | src/pynxtools_igor/reader.py:237-244 | a populated dimension's statements make its axis writes |
| Reader.PutPayload | src/pynxtools_igor/reader.py:247-252 | the closing statements write `dims`, `data` and `data.units` |
| Reader.PutMetadata | src/pynxtools_igor/reader.py:254-257 | the metadata copy writes the dict's items in order, or raises `AttributeError` on a value with no `.items()` |
| Reader.HeaderSource | src/pynxtools_igor/reader.py:237-238 | a single wave's dimension takes its ramp and header units |
| Reader.PutHeaderAxes | src/pynxtools_igor/reader.py:229-245 | the dimension loop makes the axis writes of the header ramps and collects `dims` |
| Reader.PutHeaderAxis | src/pynxtools_igor/reader.py:231-245 | one round of the loop extends the writes and `dims` by one dimension |
| Reader.SelectEntry | src/pynxtools_igor/reader.py:212-222 | the entry search by loop is the entry choice |
| Reader.IbwStep | src/pynxtools_igor/reader.py:210-257 | the statements of `process_ibw_files` compute the outcome of one file and keep the state consistent |
| Reader.AxisSource | src/pynxtools_igor/reader.py:284-304 | a dimension's source is its `axis<d>` wave or the data wave's header |
| Reader.PutPxpAxes | src/pynxtools_igor/reader.py:274-311 | the pxp dimension loop makes the writes of the axis loop, raises its error, and collects `dims` |
| Reader.PutPxpAxis | src/pynxtools_igor/reader.py:275-311 | one round either raises, ending the loop, or extends the writes and `dims` |
| Reader.PxpStep | src/pynxtools_igor/reader.py:263-332 | the statements for one entry compute its outcome |
| Reader.PxpAll | src/pynxtools_igor/reader.py:259-332 | the entry loop is a run over every configured entry in order |
| Reader.IgorReader.constructor | src/pynxtools_igor/reader.py:114-121 | a new reader has no files, no entries and empty stores |
| Reader.IgorReader.SetConfigFile | src/pynxtools_igor/reader.py:143-147 | the new path is stored even when one was set before |
| Reader.IgorReader.HandleIbwFile | src/pynxtools_igor/reader.py:334-336 | the file is queued after the earlier ones |
| Reader.IgorReader.HandlePxpFile | src/pynxtools_igor/reader.py:338-340 | the file is queued after the earlier ones |
| Reader.IgorReader.ParseEntryDict | src/pynxtools_igor/reader.py:166-172 | the entry loop produces the table that reading the items gives, and the same exception |
| Reader.IgorReader.HandleObjects | src/pynxtools_igor/reader.py:149-158 | anything but a one-element tuple, or a first object that is not a dict, raises its message and changes nothing; otherwise the dict is parsed |
| Reader.IgorReader.GetData | src/pynxtools_igor/reader.py:174-175 | the value under `<entry>/<path>`, or `None` |
| Reader.IgorReader.GetAttr | src/pynxtools_igor/reader.py:177-178 | the attribute under `<entry>/<path>`, or `None` |
| Reader.IgorReader.GetDataDims | src/pynxtools_igor/reader.py:186-187 | the entry's `dims`, whatever the path asked for |
| Reader.IgorReader.GetEntryNames | src/pynxtools_igor/reader.py:180-184 | the configured entries in insertion order, or `["entry"]` when there are none |
| Reader.IgorReader.Commit | src/pynxtools_igor/reader.py:210-257 | the reader takes the new stores and entry table |
| Reader.IgorReader.ProcessIbwFile | src/pynxtools_igor/reader.py:210-257 | one file changes the reader as one `process_ibw_files` step |
| Reader.IgorReader.ProcessPxpFile | src/pynxtools_igor/reader.py:259-332 | the packed file runs every configured entry in order |
| Reader.IgorReader.ProcessIbwFiles | src/pynxtools_igor/reader.py:200-204 | the single waves run in order, stopping at the first exception |
| Reader.IgorReader.PostProcess | src/pynxtools_igor/reader.py:189-208 | `post_process` changes the reader as the mode check and then the single-wave run or the one packed file |
| MpesReader.DimNameShape | pynxtools_mpes/igor.py:126 | `axis<d>` holds no `/` and has `x` as its second letter |
| MpesReader.DimNotUnits | pynxtools_mpes/igor.py:126-127 | no axis key is a units key |
| MpesReader.DimKeysInjective | pynxtools_mpes/igor.py:126-127 | different dimensions write different keys |
| MpesReader.DimNotPayload | pynxtools_mpes/igor.py:126-129 | the dimension keys are never `data` or `data/@units` |
| MpesReader.DimKeysHasDim | pynxtools_mpes/igor.py:125-126 | `axis<d>` is written by the loop over `n` dimensions exactly when `d < n` |
| MpesReader.DimKeysHasUnits | pynxtools_mpes/igor.py:125-127 | `axis<d>/@units` is written by the loop over `n` dimensions exactly when `d < n` |
| MpesReader.WithDimsKeys | pynxtools_mpes/igor.py:125-127 | the dimension loop adds its keys to the old ones |
| MpesReader.WithDimsOther | pynxtools_mpes/igor.py:125-127 | a key the loop does not write keeps its value |
| MpesReader.WithDimsKeep | pynxtools_mpes/igor.py:125-127 | one more dimension leaves the keys it does not write |
| MpesReader.WithDimsKeepAxis | pynxtools_mpes/igor.py:125-127 | one more dimension leaves an earlier ramp alone |
| MpesReader.WithDimsKeepUnits | pynxtools_mpes/igor.py:125-127 | one more dimension leaves earlier units alone |
| MpesReader.WithDimsLast | pynxtools_mpes/igor.py:126-127 | the last dimension holds its ramp and units |
| MpesReader.WithDimsAxis | pynxtools_mpes/igor.py:125-126 | every dimension below the count holds its ramp, populated or not |
| MpesReader.WithDimsUnits | pynxtools_mpes/igor.py:125-127 | every dimension below the count holds its units, populated or not |
| MpesReader.WithWaveShape | pynxtools_mpes/igor.py:125-129 | a file writes after the dimension loop its payload, then the payload's units |
| MpesReader.WithWaveDim | pynxtools_mpes/igor.py:125-127 | after a file, each dimension below its count holds the file's ramp and units |
| MpesReader.WithWaveOther | pynxtools_mpes/igor.py:125-129 | after a file, a key it does not write keeps the earlier value |
| MpesReader.WithWaveValues | pynxtools_mpes/igor.py:125-129 | after a file the keys are the old ones plus its own; `data`, units and every dimension hold the file's values; other keys keep earlier values |
| MpesReader.LastFileWins | pynxtools_mpes/igor.py:122-129 | after several files `ibw_attrs` is the note of the last file alone, and the last file's values sit under its keys |
| MpesReader.HigherDimsPersist | pynxtools_mpes/igor.py:122-127 | `ibw_data` is never cleared: axes beyond the last file's dimension count keep the earlier file's values |
| MpesReader.PostProcessRunSnoc | pynxtools_mpes/igor.py:122 | one more file is one more loop round |
| MpesReader.NoFilesNoChange | pynxtools_mpes/igor.py:122 | without files nothing changes |
| MpesReader.PutWave | pynxtools_mpes/igor.py:125-129 | the loop over dimensions and the payload writes produce the stores of one file |
| MpesReader.ReadFile | pynxtools_mpes/igor.py:124-129 | one round replaces `ibw_attrs` by the parsed note and writes the file's data |
| MpesReader.IgorReader.constructor | pynxtools_mpes/igor.py:83-88 | a new reader has no files and empty stores |
| MpesReader.IgorReader.SetConfigFile | pynxtools_mpes/igor.py:109-113 | the new path is stored even when one was set, despite the "Skipping" log |
| MpesReader.IgorReader.CollectIbwFile | pynxtools_mpes/igor.py:131-133 | the file is queued after the earlier ones |
| MpesReader.IgorReader.GetData | pynxtools_mpes/igor.py:115-116 | the value under the path itself, with no entry prefix, or `None` |
| MpesReader.IgorReader.GetAttr | pynxtools_mpes/igor.py:118-119 | the note value under the path itself, or `None` |
| MpesReader.IgorReader.PostProcess | pynxtools_mpes/igor.py:121-129 | `post_process` changes the stores as the files read in order |
| Paths.Resolve | src/pynxtools_igor/reader.py:94-105 | `iterate_dictionary`; no contract of its own: its behaviour is stated by Paths.ResolveIsWalk, Paths.ResolveName and Paths.ResolveSegments |
| Axis.AxisFrom | src/pynxtools_igor/reader.py:56-71 | `axis_from` (the same code as pynxtools_mpes/igor.py:39-54); no contract of its own: Axis.AxisFromRamp, Axis.AxisFromIsProgression and Axis.AxisFromExample state its ramp |
| Notes.NotesOf | src/pynxtools_igor/reader.py:46-53 | the pair loop of `parse_note` as a fold; no contract of its own: Notes.NotesOfStep and Notes.NotesOfMeaning state it, and Notes.ParseNote is proved equal to it |
| IbwMode.ChooseEntry | src/pynxtools_igor/reader.py:211-222 | the entry choice of `process_ibw_files`; no contract of its own: IbwMode.ChooseEntryConsistent, IbwMode.ChooseEntryIsFirstMatch and IbwMode.ChooseEntryWithoutMatch state it |
| Reader.ParseStep | src/pynxtools_igor/reader.py:167-172 | one item of `parse_entry_dict`; no contract of its own: Reader.ParseEntriesLastWins, Reader.ParseEntriesStops and Reader.ParseEntriesError state its effect |
| Reader.ParseEntries | src/pynxtools_igor/reader.py:166-172 | `parse_entry_dict` over the items in order; no contract of its own: Reader.ParseEntriesValid, Reader.ParseEntriesSucceeds, Reader.ParseEntriesKeys, Reader.ParseEntriesLastWins, Reader.ParseEntriesStops and Reader.ParseEntriesError state it |
| Reader.Conflict | src/pynxtools_igor/reader.py:190-194 | the mode condition of `post_process`; no contract of its own: Reader.ModeCheck states that the mode error is raised exactly when it holds |
| Reader.ModeMessage | src/pynxtools_igor/reader.py:196-199 | the mode error's text, joined as in the source; no contract of its own: Reader.ModeCheck uses its first letter to separate it from the quote-led messages |
| Normalize.AxisWrites | src/pynxtools_igor/reader.py:237-244 | one populated dimension's writes; no contract of its own: Normalize.AxisWritesKeys and Normalize.AxisWritesValues state them |
| Normalize.Axes | src/pynxtools_igor/reader.py:230-245 | the dimension loop's writes; no contract of its own: Normalize.AxesSnoc, Normalize.AxesKeys, Normalize.AxesValues and Normalize.AxesKeepPayload state them |
| Normalize.AxisNames | src/pynxtools_igor/reader.py:229-245 | the `dims` list; no contract of its own: Normalize.AxisNamesSnoc and Normalize.AxisNamesPositive state it |
| Normalize.EntryWrites | src/pynxtools_igor/reader.py:229-252 | an entry's writes to `self.data`; no contract of its own: Normalize.EntryWritesStages, Normalize.EntryAxisValues and Normalize.EntryPayloadValues state them |
| Normalize.NoteAttrs | src/pynxtools_igor/reader.py:226-227 | the note attributes; no contract of its own: Normalize.NoteAttrsAdd and Normalize.NotePairStep state them, and Reader.PutNotes is proved equal to it |
| Normalize.WithMetadata | src/pynxtools_igor/reader.py:255-257 | the metadata copy; no contract of its own: IbwMode.IbwFileAttrs and PxpMode.PxpEntryAttrs state its items and its `AttributeError` |
| PxpMode.NotFound | src/pynxtools_igor/reader.py:286-289 | the not-found message text; no contract of its own: PxpMode.PxpSourceMessage and PxpMode.PxpAxesMessage state where it is raised |
| PxpMode.PxpSource | src/pynxtools_igor/reader.py:284-304 | one dimension's coordinates and units; no contract of its own: PxpMode.PxpSources and PxpMode.PxpSourceMessage state it |
| PxpMode.PxpAxes | src/pynxtools_igor/reader.py:275-311 | the axis loop of `process_pxp_files`; no contract of its own: PxpMode.PxpAxesSuccess, PxpMode.PxpAxesWrites, PxpMode.PxpAxesFailure, PxpMode.PxpAxesStep and PxpMode.PxpAxesStops state it |
| MpesReader.WithDims | pynxtools_mpes/igor.py:125-127 | the dimension loop of the mpes `post_process`; no contract of its own: MpesReader.WithDimsKeys, MpesReader.WithDimsAxis and MpesReader.WithDimsUnits state it |
| MpesReader.WithWave | pynxtools_mpes/igor.py:125-129 | `ibw_data` after one file; no contract of its own: MpesReader.WithWaveShape, MpesReader.WithWaveDim and MpesReader.WithWaveValues state it |
| MpesReader.PostProcessRun | pynxtools_mpes/igor.py:121-129 | the mpes `post_process` over the files; no contract of its own: MpesReader.LastFileWins, MpesReader.HigherDimsPersist and MpesReader.NoFilesNoChange state it |
| MpesReader.AfterFile | pynxtools_mpes/igor.py:123-129 | the stores after one file; no contract of its own: MpesReader.WithWaveValues and MpesReader.LastFileWins state them |

The older reader's `parse_note`, `axis_from` and `axis_units_from`
(`pynxtools_mpes/igor.py`, lines 28-36, 50-54 and 68-74) have the same text as the current
reader's. They are modelled by `Notes.ParseNote`, `Axis.AxisFrom` and `Axis.AxisUnitsFrom`.

## Left out

- The binary decoding (`binarywave.load`, `packed.load`) is a foreign library. Decoded waves
  and folder trees are abstract records, and the loaders are function parameters.
- File and YAML input are left out. This covers `handle_entry_files`, `handle_eln_file`,
  `get_eln_data` and `parse_yml`. Entry dictionaries arrive already parsed.
- The framework plumbing is left out: the converter base class, its callbacks, the
  `extensions` dispatch table and logging. The entry name a getter uses is a parameter.
- The older reader's `eln_data`, `handle_eln_file`, `get_eln_data` and the unused `scan_nos`
  are left out. They are YAML input, or state that is never read.
- Ramp coordinates are exact reals, not IEEE floating point. Payloads (`wData`) are opaque
  flattened element lists, and their shape is not modelled.
- UTF-8 decoding is left out. Notes and unit fragments arrive already decoded as text, and
  the byte form `bytes(name, "utf8")` of a folder key is computed character by character.
- Paths are POSIX paths only. Windows path rules for `Path(file).name` are not modelled.
- Configuration keys are text only (`Values.Dict` holds `(string, Value)` items). The source
  takes whatever keys YAML or `handle_objects` supply, stores them with
  `self.entries[name] = entry` (reader.py:172) and prints them with `str()`. That happens
  for entry names (reader.py:226ff) and for metadata keys (reader.py:256-257, 330-331).
  Entry names, entry-dict keys and metadata keys are all text here, so an integer, boolean
  or `None` key is outside the model.
- The folder tree of a packed experiment holds only folders and waves (`Paths.Node`).
  `packed.load` also puts variables (numbers, strings) into folders. A reference that
  reaches a variable is not modelled. In the source, a falsy variable fails `if not data_wave`
  and is reported as not found (reader.py:266), and any other variable raises
  `AttributeError` at `.wave` (reader.py:271).
- Folder tree keys are text or bytes only. Other key types that Python allows are not
  modelled.
- Notes.ParseNote takes the note as text. The byte decoding in `parse_note` is left out, and
  the note parser cannot raise `UnicodeDecodeError` here.
- Normalize.NoteAttrs writes the note pairs as one map union. The order of the Python loop
  does not matter for it, because dict keys are unique.
- Reader.IgorReader.ParseEntryDict needs an extra precondition: every configured
  `axis<d>_name` must be a string, an integer, a boolean or `None`, because only these have a
  `str()` in this model. A float, list or dict name is outside the model.
- Reader.IgorReader.HandleObjects carries the same precondition on axis names.
- Normalize.EntryAxisValues holds only when the populated dimensions have pairwise different
  names, none of them `data`. The same holds for IbwMode.IbwFileData and PxpMode.PxpEntryData.
  With colliding names the code overwrites one axis with another, and these lemmas say
  nothing about that case beyond what Store.ApplyLastWrite gives.
- Reader.IgorReader.SetConfigFile does not model the "already set" log message, only the
  assignment.
- MpesReader.IgorReader.SetConfigFile does not model the log message either.
- Reader.IgorReader.PostProcess writes the reader's fields once per finished step, through
  Commit. Each step is computed on values by a method with loops, so aliasing between the
  stores and the configuration dicts is not modelled.
- Reader.IgorReader.GetData, GetAttr and GetDataDims take the entry name as a parameter. In
  the source it is `self.callbacks.entry_name`.
