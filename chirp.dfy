/** csv_to_chirp.py: every source table is given the CHIRP columns, its
    metadata is applied, it is written with Location 1..n, and all of them
    are concatenated into one combined table. */
module Chirp {
  import opened Values
  import opened Comments
  import opened Template
  import opened Frames
  import opened FileOrder

  /** The columns write_chirp_csv writes after the Location index, in order. */
  const Schema: seq<string> := [
    "Name", "Frequency", "Duplex", "Offset", "Tone", "rToneFreq", "cToneFreq",
    "DtcsCode", "DtcsPolarity", "RxDtcsCode", "CrossMode", "Mode", "TStep",
    "Skip", "Power", "Comment", "URCALL", "RPT1CALL", "RPT2CALL", "DVCODE"]

  /** The constants every source gets, in the order they are assigned. */
  const Defaults: seq<(string, Value)> := [
    ("Duplex", Str("")), ("Offset", Num("0.0")), ("Tone", Str("")),
    ("rToneFreq", Num("88.5")), ("cToneFreq", Num("88.5")), ("DtcsCode", Str("023")),
    ("DtcsPolarity", Str("NN")), ("RxDtcsCode", Str("023")), ("CrossMode", Str("Tone->Tone")),
    ("Mode", Str("NFM")), ("TStep", Num("12.5")), ("Skip", Str("")), ("Power", Str("4.0W")),
    ("URCALL", Str("")), ("RPT1CALL", Str("")), ("RPT2CALL", Str("")), ("DVCODE", Str(""))]

  /** One written CSV line: the Location index and the 20 Schema cells. */
  datatype CsvRow = CsvRow(location: int, fields: seq<Value>)

  /** The files written by a run: one per source, in processing order, and
      the combined table (or the error that aborted the run). */
  datatype Run = Run(written: seq<(string, seq<CsvRow>)>, combined: Result<seq<CsvRow>>)

  // ---------------------------------------------------------------------
  // Column assignments of the per-source loop
  // ---------------------------------------------------------------------

  /** Assigning the pairs of ds one after the other. */
  function WithDefaults(t: Table, ds: seq<(string, Value)>): (r: Table)
    ensures WellFormed(t) ==> WellFormed(r)
  {
    if ds == [] then t
    else
      var last := ds[|ds| - 1];
      WithColumn(WithDefaults(t, ds[..|ds| - 1]), last.0, last.1)
  }

  /** The pairs of ds as a map; a later pair wins. */
  function AsMap(ds: seq<(string, Value)>): map<string, Value>
  {
    if ds == [] then map[] else AsMap(ds[..|ds| - 1])[ds[|ds| - 1].0 := ds[|ds| - 1].1]
  }

  /** The Index column: the 1-based row position. */
  function IndexColumn(t: Table): seq<Value>
  {
    seq(|t.index|, i requires 0 <= i < |t.index| => Int(t.index[i] + 1))
  }

  /** Lines 80-83: Index, Comment, and Name from Description when there is one. */
  function Labelled(t: Table, stem: string): (r: Table)
    requires WellFormed(t)
    ensures WellFormed(r)
  {
    var withIndex := WithColumnValues(t, "Index", IndexColumn(t));
    var withComment := WithColumn(withIndex, "Comment", Str(stem));
    if "Description" in withComment.columns
    then WithColumnValues(withComment, "Name", ColumnValues(withComment, "Description"))
    else withComment
  }

  /** The columns the loop sets before any metadata: the labels, then the
      constants. */
  function Prepared(t: Table, stem: string): (r: Table)
    requires WellFormed(t)
    ensures WellFormed(r)
  {
    WithDefaults(Labelled(t, stem), Defaults)
  }

  // ---------------------------------------------------------------------
  // apply_metadata
  // ---------------------------------------------------------------------

  /** df.apply(lambda row: template.format(**row), axis=1): the first row
      whose formatting fails aborts it. */
  function FormatRows(template: string, rows: seq<Row>): (r: Result<seq<Value>>)
    ensures r.Ok? <==> forall i :: 0 <= i < |rows| ==> Format(template, rows[i]).Ok?
    ensures r.Ok? ==> |r.value| == |rows|
    ensures r.Ok? ==> forall i :: 0 <= i < |rows| ==> r.value[i] == Str(Format(template, rows[i]).value)
    ensures r.Err? ==> exists i :: 0 <= i < |rows| && Format(template, rows[i]) == Err(r.error)
  {
    if rows == [] then Ok([])
    else
      match FormatRows(template, rows[..|rows| - 1])
      case Err(e) => Err(e)
      case Ok(names) =>
        match Format(template, rows[|rows| - 1])
        case Err(e) => Err(e)
        case Ok(name) => Ok(names + [Str(name)])
  }

  /** df.apply(lambda row: name_format.format(**row), axis=1) at line 38.
      With rows, each row is formatted and the first failure propagates; a
      name_format that is not a string has no .format (AttributeError).
      Without rows, pandas calls the function once on a row of NaN under the
      frame's columns and swallows what it raises: when that call succeeds
      the result is an empty column; when it fails, apply returns a copy of
      the frame, and assigning a frame of several columns to df["Name"]
      raises ValueError. */
  function ApplyFormat(template: Json, t: Table): (r: Result<seq<Value>>)
    ensures r.Ok? ==>
              && template.Scalar? && template.v.Str? && |r.value| == |t.rows|
              && forall i :: 0 <= i < |t.rows| ==>
                   Format(template.v.s, t.rows[i]).Ok? && r.value[i] == Str(Format(template.v.s, t.rows[i]).value)
    ensures |t.rows| > 0 ==>
              (r.Ok? <==> template.Scalar? && template.v.Str? &&
                          forall i :: 0 <= i < |t.rows| ==> Format(template.v.s, t.rows[i]).Ok?)
    ensures |t.rows| > 0 && !(template.Scalar? && template.v.Str?) ==> r == Err(AttributeError)
    ensures |t.rows| == 0 ==>
              (r.Ok? <==> template.Scalar? && template.v.Str? && Format(template.v.s, NaNRow(t.columns)).Ok?)
    ensures |t.rows| == 0 && r.Err? ==> r.error == ValueError || r.error == UnsupportedTemplate
  {
    if |t.rows| == 0 then
      if template.Scalar? && template.v.Str? then
        match Format(template.v.s, NaNRow(t.columns))
        case Ok(_) => Ok([])
        case Err(e) => if e == UnsupportedTemplate then Err(UnsupportedTemplate) else Err(ValueError)
      else Err(ValueError)
    else if template.Scalar? && template.v.Str? then FormatRows(template.v.s, t.rows)
    else Err(AttributeError)
  }

  /** The comment step (lines 35-36). */
  function CommentStep(t: Table, rec: Record): (r: Result<Table>)
    ensures WellFormed(t) && r.Ok? ==> WellFormed(r.value)
  {
    if "comment" !in rec then Ok(t)
    else
      match AsCell(rec["comment"])
      case Some(v) => Ok(WithColumn(t, "Comment", v))
      case None => Err(UnsupportedValue)
  }

  /** The name_format step (lines 37-38). */
  function NameStep(t: Table, rec: Record): (r: Result<Table>)
    ensures WellFormed(t) && r.Ok? ==> WellFormed(r.value)
  {
    if "name_format" !in rec then Ok(t)
    else
      match ApplyFormat(rec["name_format"], t)
      case Ok(names) => Ok(WithColumnValues(t, "Name", names))
      case Err(e) => Err(e)
  }

  /** metadata[filename]["radio_params"] at line 41, with `metadata` the
      source's own record and `filename` the source name: the record must
      hold a key equal to the source name whose value holds "radio_params". */
  function RadioParamsLookup(rec: Record, stem: string): Result<Json>
  {
    if stem !in rec then Err(KeyError(stem))
    else
      match rec[stem]
      case Object(fields) =>
        if "radio_params" in fields then Ok(fields["radio_params"]) else Err(KeyError("radio_params"))
      case _ => Err(TypeError)
  }

  /** radio_params.items(): only a JSON object has items, and each value is
      assigned as a constant column. */
  function RadioParams(rec: Record, stem: string): Result<map<string, Value>>
  {
    match RadioParamsLookup(rec, stem)
    case Err(e) => Err(e)
    case Ok(Object(params)) =>
      if forall key | key in params :: params[key].Scalar?
      then Ok(map key | key in params :: params[key].v)
      else Err(UnsupportedValue)
    case Ok(_) => Err(AttributeError)
  }

  /** Every listed column set to its constant on every row. */
  function WithParams(t: Table, params: map<string, Value>): (r: Table)
    ensures WellFormed(t) ==> WellFormed(r)
  {
    Table(t.columns + params.Keys, seq(|t.rows|, i requires 0 <= i < |t.rows| => t.rows[i] + params), t.index)
  }

  /** The radio_params step (lines 40-43). */
  function ParamsStep(t: Table, rec: Record, stem: string): (r: Result<Table>)
    ensures WellFormed(t) && r.Ok? ==> WellFormed(r.value)
  {
    if "radio_params" !in rec then Ok(t)
    else
      match RadioParams(rec, stem)
      case Ok(params) => Ok(WithParams(t, params))
      case Err(e) => Err(e)
  }

  /** apply_metadata: comment, then name_format, then radio_params. */
  function ApplyMetadataSpec(t: Table, rec: Record, stem: string): (r: Result<Table>)
    ensures WellFormed(t) && r.Ok? ==> WellFormed(r.value)
  {
    match CommentStep(t, rec)
    case Err(e) => Err(e)
    case Ok(t1) =>
      match NameStep(t1, rec)
      case Err(e) => Err(e)
      case Ok(t2) => ParamsStep(t2, rec, stem)
  }

  /** Lines 80-104 for one source, on the table read_csv gave. */
  function NormalizeSpec(t: Table, stem: string, meta: Metadata): (r: Result<Table>)
    requires WellFormed(t)
    ensures r.Ok? ==> WellFormed(r.value)
  {
    var prepared := Prepared(t, stem);
    if stem in meta then ApplyMetadataSpec(prepared, meta[stem], stem) else Ok(prepared)
  }

  // ---------------------------------------------------------------------
  // write_chirp_csv
  // ---------------------------------------------------------------------

  /** The Schema columns the table lacks. */
  function Missing(columns: set<string>): (missing: set<string>)
    ensures missing == {} <==> forall j :: 0 <= j < |Schema| ==> Schema[j] in columns
  {
    var missing := set j | 0 <= j < |Schema| && Schema[j] !in columns :: Schema[j];
    assert forall j :: 0 <= j < |Schema| && Schema[j] !in columns ==> Schema[j] in missing;
    missing
  }

  /** df[Schema].to_csv(...): KeyError when a Schema column is missing;
      otherwise one line per row, the index as Location. */
  function Project(t: Table): Result<seq<CsvRow>>
    requires WellFormed(t)
  {
    var missing := Missing(t.columns);
    if missing != {} then Err(ColumnsNotInIndex(missing))
    else
      Ok(seq(|t.rows|, i requires 0 <= i < |t.rows| =>
        CsvRow(t.index[i], seq(|Schema|, j requires 0 <= j < |Schema| => t.rows[i][Schema[j]]))))
  }

  /** write_chirp_csv: the index is shifted in place, then projected. */
  function WriteSpec(t: Table): Result<seq<CsvRow>>
    requires WellFormed(t)
  {
    Project(ShiftedIndex(t))
  }

  // ---------------------------------------------------------------------
  // The loop over the sources and the concatenation
  // ---------------------------------------------------------------------

  /** One source: its normalised frame after write_chirp_csv shifted its
      index, and the file written for it. */
  function SourceOutcome(f: CsvFile, meta: Metadata): (r: Result<(Table, seq<CsvRow>)>)
    requires ValidFile(f)
    ensures r.Ok? ==> WellFormed(r.value.0) && Missing(r.value.0.columns) == {}
  {
    var read := ReadCsv(f.columns, f.rows);
    match NormalizeSpec(read, f.stem, meta)
    case Err(e) => Err(e)
    case Ok(t) =>
      match WriteSpec(t)
      case Err(e) => Err(e)
      case Ok(csv) => Ok((ShiftedIndex(t), csv))
  }

  /** What the loop meets for each source, in order: its stem and what
      reading, normalising and writing it gives. */
  type Step = (string, Result<(Table, seq<CsvRow>)>)

  function Outcomes(files: seq<CsvFile>, meta: Metadata): (outs: seq<Step>)
    requires forall f | f in files :: ValidFile(f)
    ensures |outs| == |files|
    ensures forall k :: 0 <= k < |outs| && outs[k].1.Ok? ==> WellFormed(outs[k].1.value.0)
  {
    seq(|files|, k requires 0 <= k < |files| => (files[k].stem, SourceOutcome(files[k], meta)))
  }

  /** After some sources: the files written, the frames kept in
      `dataframes`, and the error that stopped the loop if any. */
  datatype Progress = Progress(written: seq<(string, seq<CsvRow>)>, frames: seq<Table>, failure: Option<Error>)

  /** The loop over the steps: each success appends a file and a frame,
      and the first error stops it. */
  function Collect(outs: seq<Step>): (p: Progress)
    ensures (forall k :: 0 <= k < |outs| && outs[k].1.Ok? ==> WellFormed(outs[k].1.value.0)) ==>
              forall k :: 0 <= k < |p.frames| ==> WellFormed(p.frames[k])
  {
    if outs == [] then Progress([], [], None)
    else
      var p := Collect(outs[..|outs| - 1]);
      var step := outs[|outs| - 1];
      if p.failure.Some? then p
      else
        match step.1
        case Err(e) => Progress(p.written, p.frames, Some(e))
        case Ok(out) => Progress(p.written + [(step.0, out.1)], p.frames + [out.0], None)
  }

  function Processed(files: seq<CsvFile>, meta: Metadata): (p: Progress)
    requires forall f | f in files :: ValidFile(f)
    ensures forall k :: 0 <= k < |p.frames| ==> WellFormed(p.frames[k])
  {
    Collect(Outcomes(files, meta))
  }

  /** The whole script after the metadata is read: the per-source loop,
      pd.concat (which refuses an empty list), the renumbering at line 115
      and write_chirp_csv. */
  function RunSpec(files: seq<CsvFile>, meta: Metadata): Run
    requires forall f | f in files :: ValidFile(f)
  {
    var p := Processed(files, meta);
    if p.failure.Some? then Run(p.written, Err(p.failure.value))
    else if p.frames == [] then Run([], Err(ValueError))
    else
      var result := ShiftedIndex(Concat(p.frames));
      ConcatWellFormed(p.frames);
      Run(p.written, WriteSpec(result))
  }

  // ---------------------------------------------------------------------
  // The script, step by step on Frame objects
  // ---------------------------------------------------------------------

  /** The outcome of a step that changes a frame in place: no error and
      the frame holds what the specification computes, or that error. */
  predicate Outcome(err: Option<Error>, t: Table, spec: Result<Table>)
  {
    match spec
    case Ok(s) => err == None && t == s
    case Err(e) => err == Some(e)
  }

  lemma ParamsAddOne(t: Table, done: map<string, Value>, key: string, v: Value)
    ensures WithColumn(WithParams(t, done), key, v) == WithParams(t, done[key := v])
  {
    var lhs, rhs := WithColumn(WithParams(t, done), key, v), WithParams(t, done[key := v]);
    assert lhs.columns == rhs.columns;
    assert forall i :: 0 <= i < |t.rows| ==> lhs.rows[i] == rhs.rows[i];
  }

  /** The loop over radio_params.items() (lines 42-43): each value becomes a
      constant column; a compound value stops it. */
  method AssignParams(df: Frame, params: map<string, Json>) returns (err: Option<Error>)
    modifies df
    ensures (forall key | key in params :: params[key].Scalar?) ==>
              err == None && df.Data() == WithParams(old(df.Data()), map key | key in params :: params[key].v)
    ensures !(forall key | key in params :: params[key].Scalar?) ==> err == Some(UnsupportedValue)
  {
    ghost var start := df.Data();
    ghost var done: map<string, Value> := map[];
    assert forall i :: 0 <= i < |start.rows| ==> start.rows[i] + done == start.rows[i];
    assert WithParams(start, done).rows == start.rows;
    var todo := params.Keys;
    while todo != {}
      invariant todo <= params.Keys
      invariant done.Keys == params.Keys - todo
      invariant forall key | key in done :: params[key] == Scalar(done[key])
      invariant df.Data() == WithParams(start, done)
      decreases todo
    {
      var key :| key in todo;
      match AsCell(params[key])
      case None =>
        return Some(UnsupportedValue);
      case Some(v) =>
        ParamsAddOne(start, done, key, v);
        df.SetColumn(key, v);
        done := done[key := v];
      todo := todo - {key};
    }
    assert done == map key | key in params :: params[key].v;
    err := None;
  }

  /** apply_metadata (lines 34-44), changing df in place. */
  method ApplyMetadata(df: Frame, rec: Record, stem: string) returns (err: Option<Error>)
    modifies df
    ensures Outcome(err, df.Data(), ApplyMetadataSpec(old(df.Data()), rec, stem))
  {
    if "comment" in rec {
      match AsCell(rec["comment"])
      case None =>
        return Some(UnsupportedValue);
      case Some(v) =>
        df.SetColumn("Comment", v);
    }
    ghost var afterComment := df.Data();
    if "name_format" in rec {
      var names := ApplyFormat(rec["name_format"], df.Data());
      if names.Err? {
        return Some(names.error);
      }
      df.SetColumnValues("Name", names.value);
    }
    assert NameStep(afterComment, rec) == Ok(df.Data());
    if "radio_params" in rec {
      var lookup := RadioParamsLookup(rec, stem);
      if lookup.Err? {
        return Some(lookup.error);
      }
      if !lookup.value.Object? {
        return Some(AttributeError);
      }
      err := AssignParams(df, lookup.value.fields);
      return;
    }
    err := None;
  }

  /** Lines 80-83: Index, Comment, and Name from Description. */
  method Label(df: Frame, stem: string)
    requires WellFormed(df.Data())
    modifies df
    ensures df.Data() == Labelled(old(df.Data()), stem)
  {
    df.SetColumnValues("Index", IndexColumn(df.Data()));
    df.SetColumn("Comment", Str(stem));
    if "Description" in df.columns {
      df.SetColumnValues("Name", ColumnValues(df.Data(), "Description"));
    }
  }

  /** Lines 85-101: the 17 constants, one assignment each, in order. */
  method SetDefaults(df: Frame)
    modifies df
    ensures df.Data() == WithDefaults(old(df.Data()), Defaults)
  {
    ghost var start := df.Data();
    var k := 0;
    while k < |Defaults|
      invariant 0 <= k <= |Defaults|
      invariant df.Data() == WithDefaults(start, Defaults[..k])
    {
      assert Defaults[..k + 1][..k] == Defaults[..k];
      df.SetColumn(Defaults[k].0, Defaults[k].1);
      k := k + 1;
    }
    assert Defaults[..k] == Defaults;
  }

  /** Lines 80-104 for one source: the labels, the constants, then the
      source's metadata record if there is one. */
  method Normalize(df: Frame, stem: string, meta: Metadata) returns (err: Option<Error>)
    requires WellFormed(df.Data())
    modifies df
    ensures Outcome(err, df.Data(), NormalizeSpec(old(df.Data()), stem, meta))
  {
    Label(df, stem);
    SetDefaults(df);
    if stem in meta {
      err := ApplyMetadata(df, meta[stem], stem);
    } else {
      err := None;
    }
  }

  /** write_chirp_csv (lines 47-73): shifts df's index in place, then
      projects the Schema columns. */
  method WriteChirpCsv(df: Frame) returns (file: Result<seq<CsvRow>>)
    requires WellFormed(df.Data())
    modifies df
    ensures df.Data() == ShiftedIndex(old(df.Data()))
    ensures file == WriteSpec(old(df.Data())) && file == Project(df.Data())
  {
    df.ShiftIndex();
    file := Project(df.Data());
  }

  /** The tables held by the frames. */
  function Tables(frames: seq<Frame>): (ts: seq<Table>)
    reads set k | 0 <= k < |frames| :: frames[k]
    ensures |ts| == |frames|
  {
    seq(|frames|, k requires 0 <= k < |frames| reads set k | 0 <= k < |frames| :: frames[k] => frames[k].Data())
  }

  /** Once a source has failed, the later ones change nothing. */
  lemma {:induction false} FailureSticks(outs: seq<Step>, n: nat)
    requires n <= |outs|
    requires Collect(outs[..n]).failure.Some?
    ensures Collect(outs) == Collect(outs[..n])
  {
    if n < |outs| {
      var init := outs[..|outs| - 1];
      assert init[..n] == outs[..n];
      FailureSticks(init, n);
    } else {
      assert outs[..n] == outs;
    }
  }

  /** One more source: the loop continues from where the earlier ones left it. */
  lemma CollectNext(outs: seq<Step>, i: nat)
    requires i < |outs| && Collect(outs[..i]).failure.None?
    ensures var p := Collect(outs[..i]);
            Collect(outs[..i + 1]) ==
              match outs[i].1
              case Err(e) => Progress(p.written, p.frames, Some(e))
              case Ok(out) => Progress(p.written + [(outs[i].0, out.1)], p.frames + [out.0], None)
  {
    assert outs[..i + 1][..i] == outs[..i];
  }

  /** One turn of the loop (lines 77-106): read, normalise, write. The
      frame is returned for `dataframes`, its index already shifted. */
  method ProcessSource(f: CsvFile, meta: Metadata) returns (df: Frame, file: Result<seq<CsvRow>>)
    requires ValidFile(f)
    ensures fresh(df)
    ensures match SourceOutcome(f, meta)
            case Ok(out) => file == Ok(out.1) && df.Data() == out.0
            case Err(e) => file == Err(e)
  {
    df := new Frame(ReadCsv(f.columns, f.rows));
    var err := Normalize(df, f.stem, meta);
    if err.Some? {
      file := Err(err.value);
      return;
    }
    file := WriteChirpCsv(df);
  }

  /** The per-source loop (lines 76-108): each source is read, normalised
      and written, and its frame kept in `dataframes`; the first error
      stops the script. */
  method ProcessAll(files: seq<CsvFile>, meta: Metadata)
    returns (written: seq<(string, seq<CsvRow>)>, dataframes: seq<Frame>, failure: Option<Error>)
    requires forall f | f in files :: ValidFile(f)
    ensures Processed(files, meta) == Progress(written, Tables(dataframes), failure)
  {
    ghost var outs := Outcomes(files, meta);
    dataframes := [];
    written := [];
    var i := 0;
    while i < |files|
      invariant 0 <= i <= |files|
      invariant Collect(outs[..i]) == Progress(written, Tables(dataframes), None)
    {
      CollectNext(outs, i);
      ghost var before := Tables(dataframes);
      var df, file := ProcessSource(files[i], meta);
      if file.Err? {
        failure := Some(file.error);
        FailureSticks(outs, i + 1);
        return;
      }
      written := written + [(files[i].stem, file.value)];
      dataframes := dataframes + [df];
      assert Tables(dataframes) == before + [df.Data()];
      i := i + 1;
    }
    assert outs[..i] == outs;
    failure := None;
  }

  /** The per-source loop and the concatenation (lines 76-118), on files
      already in sorted order. */
  method ConvertAll(files: seq<CsvFile>, meta: Metadata) returns (written: seq<(string, seq<CsvRow>)>, combined: Result<seq<CsvRow>>)
    requires forall f | f in files :: ValidFile(f)
    ensures Run(written, combined) == RunSpec(files, meta)
  {
    var dataframes, failure;
    written, dataframes, failure := ProcessAll(files, meta);
    if failure.Some? {
      combined := Err(failure.value);
    } else if dataframes == [] {
      combined := Err(ValueError);
    } else {
      combined := WriteCombined(dataframes);
    }
  }

  /** Lines 111-118: pd.concat of the kept frames, the index renumbered
      from 1, and write_chirp_csv, which shifts it once more. */
  method WriteCombined(dataframes: seq<Frame>) returns (combined: Result<seq<CsvRow>>)
    requires forall k :: 0 <= k < |Tables(dataframes)| ==> WellFormed(Tables(dataframes)[k])
    ensures WellFormed(Concat(Tables(dataframes)))
    ensures combined == WriteSpec(ShiftedIndex(Concat(Tables(dataframes))))
  {
    ConcatWellFormed(Tables(dataframes));
    var result := new Frame(Concat(Tables(dataframes)));
    result.ShiftIndex();
    combined := WriteChirpCsv(result);
  }

  /** The whole script: the listing is sorted (line 16), the metadata read
      (line 29), and every source converted. */
  method Convert(found: seq<CsvFile>, metadataText: string, parse: string -> Option<Metadata>)
    returns (written: seq<(string, seq<CsvRow>)>, combined: Result<seq<CsvRow>>)
    requires forall f | f in found :: ValidFile(f)
    requires DistinctStems(found)
    ensures match ReadMetadataFile(metadataText, parse)
            case Err(e) => written == [] && combined == Err(e)
            case Ok(meta) => Run(written, combined) == RunSpec(SortByName(found), meta)
  {
    var files := SortByName(found);
    var metadata := ReadMetadataFile(metadataText, parse);
    if metadata.Err? {
      written, combined := [], Err(metadata.error);
      return;
    }
    written, combined := ConvertAll(files, metadata.value);
  }
}
