# csv_to_chirp in Dafny

A model of `csv_to_chirp.py`, the script that turns per-source channel lists
(CSV tables) into CHIRP import files. For every source the script:
- reads the table;
- numbers its rows in an `Index` column;
- labels every row with the source name in `Comment`;
- copies `Description` into `Name`;
- sets seventeen constant radio columns;
- applies the source's entry from `metadata.jsonc` (a `comment`, a `name_format`
  template and `radio_params`);
- writes the 20 CHIRP columns with a 1-based `Location`.

The kept frames are then concatenated, renumbered, and written once more as a
combined file.

Modules:
- `Values`: cells, JSON values and the Python exceptions the script can raise.
- `Comments`: `read_metadata_file`, which strips `//` line comments before
  `json.loads`.
- `Template`: the part of `str.format` that `name_format` uses.
- `Frames`: the DataFrame operations the script uses. `Table` is the value and
  `Frame` is the object the script's `df[...] = ...` statements update in place.
- `FileOrder`: `sorted()` of the directory listing.
- `Chirp`: the script itself. There is a specification function per step, and
  the methods run those steps on `Frame` objects, each proved against its
  function.
- `ChirpProperties`: what the script guarantees about each output row, each
  per-source file and the combined file.

The model keeps these behaviours of the script, which its names do not suggest:

- The combined file's `Location` runs 2..N+1, not 1..N. Line 115 adds 1 to
  the fresh 0..N-1 index of `pd.concat`, and `write_chirp_csv` adds 1 again
  at line 48 (`ChirpProperties.CombinedRows`). A per-source file has
  `Location` 1..n (`ChirpProperties.SourceFileRows`).
- `radio_params` is read at line 41 as `metadata[filename]["radio_params"]`.
  Here `metadata` is already the source's own record, so the parameters are
  found only under a nested key equal to the source name. A record that holds
  `radio_params` at its top level, with no such key, fails with
  `KeyError(source name)` unless its comment or name_format fails first
  (`ChirpProperties.RadioParamsKeyError`,
  `ChirpProperties.RadioParamsNeedNestedRecord`).
- `radio_params` keys are not checked against the 20 output columns. A key
  outside them adds a column that is never written.
- A source without data rows still has its `name_format` tried. The model
  follows pandas 2, whose `df.apply(..., axis=1)` on a zero-row frame calls
  the template once on a row of NaN under the frame's columns. When that
  call fails, it returns a copy of the frame, which `df["Name"] = ...`
  refuses with ValueError. A template that fails on that row (or is not a
  string) therefore stops the script (`ChirpProperties.EmptySourceName`).
  Older pandas releases call it on an empty, unlabelled row instead, so
  there any template with a field stops the script.

## Model

| member | source | states |
|---|---|---|
| Comments.SplitLines | csv_to_chirp.py:24 | `str.split("\n")` gives at least one piece, and no piece holds a newline |
| Comments.CutAtMarker | csv_to_chirp.py:25 | `line.split("//")[0]` is the prefix before the first `//`, or the whole line when there is none; the result holds no `//` and no new newline |
| Comments.StripComments | csv_to_chirp.py:23-25 | the stripped text holds no `//`; a text without `//` is returned unchanged |
| Comments.ReadMetadataFile | csv_to_chirp.py:21-26 | Ok exactly when `json.loads` accepts the stripped text, with what it returns; otherwise JSONDecodeError |
| Comments.JoinSplit | csv_to_chirp.py:24-25 | `"\n".join(s.split("\n")) == s` |
| Comments.SplitJoin | csv_to_chirp.py:24-25 | splitting undoes joining when no line holds a newline |
| Comments.StripIsLinewise | csv_to_chirp.py:23-25 | the `"//" in` guard is only a shortcut: the result always equals cutting every line |
| Comments.StripKeepsLines | csv_to_chirp.py:23-25 | stripping keeps the number of lines, and line k becomes line k cut at its first `//` |
| Comments.StripIdempotent | csv_to_chirp.py:23-25 | stripping twice is stripping once |
| Comments.CommentsIgnored | csv_to_chirp.py:21-26 | two documents that differ only after the `//` of their lines read to the same metadata or the same error |
| Template.ParseUnparse | csv_to_chirp.py:38 | a template written from literal characters (braces doubled) and plain fields parses back to the same pieces with no error |
| Template.ExpandOkIff | csv_to_chirp.py:38 | substituting the fields of a parsed template succeeds exactly when every field is a keyword naming a column of the row; otherwise it fails with IndexError (positional field) or KeyError |
| Template.FormatOkIff | csv_to_chirp.py:38 | `template.format(**row)` succeeds exactly when the template has no brace error and every field is a keyword naming a column of the row; a well-formed template otherwise fails with IndexError or KeyError, a malformed one with ValueError |
| Template.ExpandReadsOnlyFields | csv_to_chirp.py:38 | a name depends only on the columns the template names |
| Template.FormatLiteral | csv_to_chirp.py:38 | a template without braces formats to itself for every row |
| Template.FormatFieldThenText | csv_to_chirp.py:38 | `"{c}suffix"` formats to `str(row[c])` followed by the suffix |
| Frames.ReadCsv | csv_to_chirp.py:79 | `pd.read_csv` gives a table whose rows all have its columns, with one index label per row |
| Frames.Frame.SetColumn | csv_to_chirp.py:81 | `df[col] = v` sets col to v on every row, adding the column, and keeps the index |
| Frames.Frame.SetColumnValues | csv_to_chirp.py:83 | `df[col] = series` sets row i's col to the i-th value |
| Frames.Frame.ShiftIndex | csv_to_chirp.py:48 | `df.index = df.index + 1` adds one to every index label and changes nothing else |
| Frames.ConcatWellFormed | csv_to_chirp.py:111 | after `pd.concat` every row has exactly the union of the tables' columns |
| FileOrder.LessIrreflexive | csv_to_chirp.py:16 | Python's string `<` is irreflexive |
| FileOrder.LessTransitive | csv_to_chirp.py:16 | Python's string `<` is transitive |
| FileOrder.LessTotal | csv_to_chirp.py:16 | Python's string `<` orders any two different strings |
| FileOrder.SortByName | csv_to_chirp.py:16 | `sorted()` returns a permutation of the listing |
| FileOrder.SortByNameSorted | csv_to_chirp.py:16 | `sorted()` puts files with distinct names in strictly increasing name order, losing none |
| Chirp.FormatRows | csv_to_chirp.py:38 | formatting the rows one by one succeeds exactly when every row formats; name i is the text formatted from row i; a failure is the error of some row |
| Chirp.ApplyFormat | csv_to_chirp.py:38 | `df.apply(...)` on a frame with rows succeeds exactly when name_format is a string that formats every row, giving one name per row, and a non-string raises AttributeError; on a frame without rows it succeeds exactly when the string formats a NaN row under the frame's columns, and otherwise raises ValueError |
| Chirp.Missing | csv_to_chirp.py:50-73 | the set of missing Schema columns is empty exactly when the table has all 20 |
| Chirp.SourceOutcome | csv_to_chirp.py:77-106 | a source that is written keeps a well-formed frame that has all 20 Schema columns |
| Chirp.AssignParams | csv_to_chirp.py:42-43 | the `radio_params.items()` loop leaves every row holding every parameter's value; a compound value stops it with UnsupportedValue |
| Chirp.ApplyMetadata | csv_to_chirp.py:34-44 | apply_metadata on the frame in place yields what the comment, name_format and radio_params steps compute, or their first error |
| Chirp.Label | csv_to_chirp.py:80-83 | Index, Comment and (from Description) Name are set in place as the labelling step computes |
| Chirp.SetDefaults | csv_to_chirp.py:85-101 | the seventeen assignments leave the frame as assigning the Defaults pairs in order |
| Chirp.Normalize | csv_to_chirp.py:80-104 | one source's normalisation in place equals the normalisation specification, or stops with its error |
| Chirp.WriteChirpCsv | csv_to_chirp.py:47-73 | write_chirp_csv shifts the frame's index in place and writes the projection of the shifted frame |
| Chirp.FailureSticks | csv_to_chirp.py:76-108 | once a source fails, later sources change neither the files written nor the frames kept |
| Chirp.ProcessSource | csv_to_chirp.py:77-106 | one turn of the loop writes the source's file and returns its frame, index already shifted, exactly as the per-source specification says, or its error |
| Chirp.ProcessAll | csv_to_chirp.py:76-108 | the loop's written files, kept frames and stopping error are those of the loop specification |
| Chirp.WriteCombined | csv_to_chirp.py:111-118 | the combined file is the projection of the concatenation with its index shifted twice |
| Chirp.ConvertAll | csv_to_chirp.py:76-118 | the loop and the combined file together equal the run specification |
| Chirp.Convert | csv_to_chirp.py:15-118 | the whole script: an unreadable metadata file stops it before any file is written; otherwise it runs over the listing in sorted order |
| ChirpProperties.WithDefaultsRows | csv_to_chirp.py:85-101 | assigning constant columns one after another merges them into every row, later assignments winning |
| ChirpProperties.DefaultNamesDistinct | csv_to_chirp.py:85-101 | the seventeen constant column names are distinct, and none is Name, Comment, Index or Frequency |
| ChirpProperties.LabelledRows | csv_to_chirp.py:80-83 | after lines 80-83 row i is the input row with Index = i+1, Comment = source name and Name = Description when that column exists |
| ChirpProperties.PreparedRows | csv_to_chirp.py:80-101 | before the metadata, row i is the labelled row plus the seventeen constants |
| ChirpProperties.AfterComment | csv_to_chirp.py:35-36 | after the comment step row i is what name_format sees, with Comment from the record when given |
| ChirpProperties.AfterName | csv_to_chirp.py:37-38 | after the name_format step row i has Name formatted from that row |
| ChirpProperties.AfterParams | csv_to_chirp.py:40-43 | after radio_params row i holds every parameter, overriding earlier values |
| ChirpProperties.NormalizedRows | csv_to_chirp.py:80-104 | a normalised source keeps its row count and 0..n-1 index; its columns and each row are exactly what the steps assign, in order |
| ChirpProperties.DefaultsApplied | csv_to_chirp.py:85-101 | every row holds each constant unless radio_params overrides that column |
| ChirpProperties.IndexApplied | csv_to_chirp.py:80 | Index is the 1-based row number unless radio_params overrides it |
| ChirpProperties.CommentApplied | csv_to_chirp.py:35-36 | Comment is radio_params' Comment, else the record's comment, else the source name (line 81) |
| ChirpProperties.NameApplied | csv_to_chirp.py:37-38 | Name is the formatted template when there is one, else Description, else the input's Name |
| ChirpProperties.NameFormatted | csv_to_chirp.py:38 | a source whose record has name_format normalises only when that is a string that formats every row |
| ChirpProperties.EmptySourceName | csv_to_chirp.py:37-38 | a source without data rows fails with ValueError when its name_format is not a string or fails on a NaN row under the columns set so far, and it is normalised only when that row formats |
| ChirpProperties.CellsPassThrough | csv_to_chirp.py:79-104 | an input cell that no step assigns reaches the output unchanged |
| ChirpProperties.FrequencyKept | csv_to_chirp.py:79-104 | Frequency is never assigned by the script: the input's value is kept unless radio_params sets it |
| ChirpProperties.ParamsApplied | csv_to_chirp.py:42-43 | every radio_params entry lands on every row |
| ChirpProperties.RadioParamsNeedNestedRecord | csv_to_chirp.py:41 | radio_params takes effect only through `record[source name]["radio_params"]`, an object of scalars |
| ChirpProperties.RadioParamsKeyError | csv_to_chirp.py:34-41 | a record with radio_params at its top level and no key named after the source, whose comment is a scalar and whose name_format is absent or names every row, fails with KeyError(source name) |
| ChirpProperties.MissingExact | csv_to_chirp.py:50-73 | the reported missing columns are exactly the absent Schema columns |
| ChirpProperties.SchemaProvided | csv_to_chirp.py:52-71 | every Schema column other than Name, Frequency and Comment is one of the constant columns, in the same order |
| ChirpProperties.SchemaMissing | csv_to_chirp.py:50-73 | with Comment and the constants present, only Name and Frequency can be missing |
| ChirpProperties.WriteFailsIff | csv_to_chirp.py:50-73 | writing a normalised source fails exactly when it has no Name source (Name, Description, name_format, radio_params) or no Frequency, and names exactly those columns |
| ChirpProperties.SourceFileRows | csv_to_chirp.py:106 | a source's file has one line per input row, Location i+1 and the row's 20 Schema cells in order |
| ChirpProperties.ProjectRows | csv_to_chirp.py:48-73 | `df[Schema].to_csv` writes one line per row: its index label and its 20 Schema cells |
| ChirpProperties.CollectLengths | csv_to_chirp.py:76-108 | the loop keeps one frame per written file and at most one per source |
| ChirpProperties.CollectAt | csv_to_chirp.py:106-108 | the k-th file written and frame kept are the k-th source's |
| ChirpProperties.CollectStops | csv_to_chirp.py:76-108 | without a failure every source is written; otherwise the loop stops at the first source that fails, with its error |
| ChirpProperties.ProcessedShape | csv_to_chirp.py:76-108 | the k-th file is the k-th source's own output; every source is written unless one fails, and then the loop stops at the first failure |
| ChirpProperties.ProcessedTotal | csv_to_chirp.py:76-108 | with no failure, the written files hold one line per input row |
| ChirpProperties.ConcatLength | csv_to_chirp.py:111 | `pd.concat` has as many rows as the per-source files have lines |
| ChirpProperties.ConcatFieldsAt | csv_to_chirp.py:111 | row r of the concatenation holds the cells of line r of the per-source files |
| ChirpProperties.RunWritten | csv_to_chirp.py:106 | the per-source files are written in order, one for each source before the first failure |
| ChirpProperties.RunCombinedOk | csv_to_chirp.py:111-118 | the combined file is written exactly when there is a source and none fails, and then every source has its file |
| ChirpProperties.CombinedWritable | csv_to_chirp.py:111-118 | the concatenation keeps the first frame's columns, so it can be written when that frame could |
| ChirpProperties.RunFailure | csv_to_chirp.py:111 | a failed run reports the first failing source's error, or pd.concat's ValueError when there is no source |
| ChirpProperties.CombinedProjection | csv_to_chirp.py:111-118 | the combined file's line r has Location r+2 and the cells of the per-source line r |
| ChirpProperties.CombinedRows | csv_to_chirp.py:111-118 | the combined file has one line per input row across all sources, in order, with Location 2..N+1 and the per-source cells |
| ChirpProperties.WrittenInNameOrder | csv_to_chirp.py:16 | the per-source files are written in strictly increasing file-name order |
| ChirpProperties.RunStems | csv_to_chirp.py:76-118 | when the combined file is written, file k belongs to source k for every source |
| ChirpProperties.AllSourcesWritten | csv_to_chirp.py:15-118 | a run that writes the combined file has written a file for every source found |

## Left out

- An input file without a header line makes `read_csv` raise EmptyDataError. The model does not include that error: every source has at least one column (`Frames.ValidFile`).
- File-system I/O is not modelled: the directory listing, `read_text`, `read_csv`, `to_csv` and `mkdir`. A source is its stem plus the cells read from it, and a written file is a sequence of lines (Location and 20 cells); the CSV text encoding is not modelled.
- `json.loads` is a parameter of `ReadMetadataFile`. A document whose top level is not an object of objects counts as a parse failure.
- The `print` calls at lines 78 and 120 produce only console output.
- The commented-out sort at lines 113-114 is not code.
- Floats are kept as the literal Python prints for them. The script does no arithmetic on them.
- pandas dtypes and the NaN-to-empty rendering of `to_csv` are not modelled. A cell a frame lacks after `pd.concat` is `NaN`.
- A JSON list or object assigned as a column value (in `comment` or `radio_params`) stops the model with UnsupportedValue. pandas would broadcast or reject it.
- A `str.format` field with a conversion, format spec, attribute or index (`!`, `:`, `.`, `[`) stops the model with UnsupportedTemplate.
- When one statement could raise for two reasons, the model reports one of them. The Python exception text is not modelled.
- Duplicate column headers in an input file are not modelled: a source has a set of columns.
- `Chirp.Missing` returns the missing columns as a set. pandas lists them in Schema order in its message.
- `Chirp.SetDefaults` runs the seventeen assignments of lines 85-101 as a loop over the constant list `Defaults`, in the source's order.
- A file named exactly `.csv` is not modelled. Its `Path.stem` is `.csv` itself, while the model takes every file name to be its stem plus `.csv`, so such a file would sort and be named differently from the script, and it would share its stem with a `.csv.csv` file.
- `dataframes` is a dict keyed by source name. The model keeps a sequence in loop order. The two agree because the files of one directory have distinct names (`Chirp.Convert` requires distinct stems).
- Chirp.AssignParams: the contract does not state the frame after a compound value stops the loop, because the script aborts there.
- Chirp.ApplyMetadata: on an error the contract states only the error, not the partly updated frame, because the script aborts there.
- Chirp.Normalize: on an error the contract states only the error, not the partly updated frame, because the script aborts there.
