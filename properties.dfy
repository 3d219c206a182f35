/** What csv_to_chirp.py promises about each source's rows, the file written
    for it and the combined file, stated over the specification in Chirp. */
module ChirpProperties {
  import opened Values
  import opened Comments
  import opened Template
  import opened Frames
  import opened FileOrder
  import opened Chirp

  // ---------------------------------------------------------------------
  // The row each source ends up with
  // ---------------------------------------------------------------------

  /** The source's metadata record; a source without one behaves as if its
      record were empty. */
  function RecordOf(meta: Metadata, stem: string): Record
  {
    if stem in meta then meta[stem] else map[]
  }

  /** The radio_params constants that reach the rows (none when the record
      has no radio_params or the lookup fails). */
  function AppliedParams(rec: Record, stem: string): map<string, Value>
  {
    if "radio_params" in rec && RadioParams(rec, stem).Ok? then RadioParams(rec, stem).value else map[]
  }

  /** Comment before radio_params: the record's comment, else the stem. */
  function CommentValue(rec: Record, stem: string): Value
  {
    if "comment" in rec && AsCell(rec["comment"]).Some? then AsCell(rec["comment"]).value else Str(stem)
  }

  /** The columns after lines 80-101: the input's, Index, Comment, Name
      when Description exists, and the constants. */
  function PreparedColumns(f: CsvFile): set<string>
  {
    f.columns + {"Index", "Comment"} + (if "Description" in f.columns then {"Name"} else {}) + AsMap(Defaults).Keys
  }

  /** Row i after lines 80-83: the input cells, Index = i + 1, Comment =
      the source name, Name from Description. */
  function LabelledRow(f: CsvFile, i: nat): Row
    requires i < |f.rows|
  {
    var base := f.rows[i]["Index" := Int(i + 1)]["Comment" := Str(f.stem)];
    if "Description" in f.rows[i] then base["Name" := f.rows[i]["Description"]] else base
  }

  /** Row i as name_format sees it: the labelled row, the 17 constants and
      the Comment. */
  function RowBeforeName(f: CsvFile, i: nat, rec: Record): Row
    requires i < |f.rows|
  {
    (LabelledRow(f, i) + AsMap(Defaults))["Comment" := CommentValue(rec, f.stem)]
  }

  /** The template, when the record has a string name_format. */
  predicate HasTemplate(rec: Record)
  {
    "name_format" in rec && rec["name_format"].Scalar? && rec["name_format"].v.Str?
  }

  /** Row i after the name_format step. */
  function NamedRow(f: CsvFile, i: nat, rec: Record): Row
    requires i < |f.rows|
  {
    var before := RowBeforeName(f, i, rec);
    if HasTemplate(rec) && Format(rec["name_format"].v.s, before).Ok?
    then before["Name" := Str(Format(rec["name_format"].v.s, before).value)]
    else before
  }

  /** Row i after normalisation. */
  function FinalRow(f: CsvFile, i: nat, rec: Record): Row
    requires i < |f.rows|
  {
    NamedRow(f, i, rec) + AppliedParams(rec, f.stem)
  }

  /** The columns after normalisation. */
  function FinalColumns(f: CsvFile, rec: Record): set<string>
  {
    f.columns + {"Index", "Comment"} + AsMap(Defaults).Keys
      + (if "Description" in f.columns || "name_format" in rec then {"Name"} else {})
      + AppliedParams(rec, f.stem).Keys
  }

  /** The normalised table read from f, if normalisation succeeds. */
  function Normalized(f: CsvFile, meta: Metadata): Result<Table>
    requires ValidFile(f)
  {
    NormalizeSpec(ReadCsv(f.columns, f.rows), f.stem, meta)
  }

  // ---------------------------------------------------------------------
  // Helper facts about the column assignments
  // ---------------------------------------------------------------------

  lemma {:induction false} WithDefaultsRows(t: Table, ds: seq<(string, Value)>)
    ensures WithDefaults(t, ds).columns == t.columns + AsMap(ds).Keys
    ensures WithDefaults(t, ds).index == t.index
    ensures |WithDefaults(t, ds).rows| == |t.rows|
    ensures forall i :: 0 <= i < |t.rows| ==> WithDefaults(t, ds).rows[i] == t.rows[i] + AsMap(ds)
  {
    if ds != [] {
      var init := ds[..|ds| - 1];
      WithDefaultsRows(t, init);
      var last := ds[|ds| - 1];
      forall i | 0 <= i < |t.rows|
        ensures WithDefaults(t, ds).rows[i] == t.rows[i] + AsMap(ds)
      {
        assert (t.rows[i] + AsMap(init))[last.0 := last.1] == t.rows[i] + AsMap(init)[last.0 := last.1];
      }
    }
  }

  /** A pair that no later pair overrides keeps its value in AsMap. */
  lemma {:induction false} AsMapLookup(ds: seq<(string, Value)>, k: nat)
    requires k < |ds|
    requires forall j :: k < j < |ds| ==> ds[j].0 != ds[k].0
    ensures ds[k].0 in AsMap(ds) && AsMap(ds)[ds[k].0] == ds[k].1
  {
    if k < |ds| - 1 {
      AsMapLookup(ds[..|ds| - 1], k);
    }
  }

  /** A key is in AsMap exactly when some pair names it. */
  lemma {:induction false} AsMapKeys(ds: seq<(string, Value)>, key: string)
    ensures key in AsMap(ds) <==> exists k :: 0 <= k < |ds| && ds[k].0 == key
  {
    if ds != [] {
      var init := ds[..|ds| - 1];
      AsMapKeys(init, key);
      if key in AsMap(init) {
        var k :| 0 <= k < |init| && init[k].0 == key;
        assert ds[k].0 == key;
      }
    }
  }

  /** The 17 column names of Defaults are distinct, and none of them is
      Name, Comment, Index or Frequency. */
  lemma DefaultNamesDistinct()
    ensures forall i, j :: 0 <= i < j < |Defaults| ==> Defaults[i].0 != Defaults[j].0
    ensures forall k :: 0 <= k < |Defaults| ==>
              Defaults[k].0 != "Name" && Defaults[k].0 != "Comment" && Defaults[k].0 != "Index" && Defaults[k].0 != "Frequency"
  {
  }

  /** Each constant keeps its own value in AsMap(Defaults), which holds no
      Name, Comment, Index or Frequency. */
  lemma DefaultsLookup()
    ensures "Name" !in AsMap(Defaults) && "Comment" !in AsMap(Defaults) && "Index" !in AsMap(Defaults)
    ensures "Frequency" !in AsMap(Defaults)
    ensures forall k :: 0 <= k < |Defaults| ==> Defaults[k].0 in AsMap(Defaults) && AsMap(Defaults)[Defaults[k].0] == Defaults[k].1
  {
    DefaultNamesDistinct();
    forall k | 0 <= k < |Defaults|
      ensures Defaults[k].0 in AsMap(Defaults) && AsMap(Defaults)[Defaults[k].0] == Defaults[k].1
    {
      AsMapLookup(Defaults, k);
    }
    AsMapKeys(Defaults, "Name");
    AsMapKeys(Defaults, "Comment");
    AsMapKeys(Defaults, "Index");
    AsMapKeys(Defaults, "Frequency");
  }

  // ---------------------------------------------------------------------
  // Normalisation, row by row
  // ---------------------------------------------------------------------

  /** Lines 80-83, row by row. */
  lemma LabelledRows(f: CsvFile)
    requires ValidFile(f)
    ensures var l := Labelled(ReadCsv(f.columns, f.rows), f.stem);
      && l.columns == f.columns + {"Index", "Comment"} + (if "Description" in f.columns then {"Name"} else {})
      && l.index == Range(0, |f.rows|) && |l.rows| == |f.rows|
      && forall i :: 0 <= i < |f.rows| ==> l.rows[i] == LabelledRow(f, i)
  {
    var t := ReadCsv(f.columns, f.rows);
    var withIndex := WithColumnValues(t, "Index", IndexColumn(t));
    var withComment := WithColumn(withIndex, "Comment", Str(f.stem));
    forall i | 0 <= i < |f.rows|
      ensures withComment.rows[i] == f.rows[i]["Index" := Int(i + 1)]["Comment" := Str(f.stem)]
    {
    }
  }

  /** The columns the loop sets before the metadata, row by row. */
  lemma PreparedRows(f: CsvFile)
    requires ValidFile(f)
    ensures var p := Prepared(ReadCsv(f.columns, f.rows), f.stem);
      && p.columns == PreparedColumns(f)
      && p.index == Range(0, |f.rows|) && |p.rows| == |f.rows|
      && forall i :: 0 <= i < |f.rows| ==> p.rows[i] == RowBeforeName(f, i, map[])
  {
    var l := Labelled(ReadCsv(f.columns, f.rows), f.stem);
    LabelledRows(f);
    WithDefaultsRows(l, Defaults);
    DefaultsLookup();
    forall i | 0 <= i < |f.rows|
      ensures (LabelledRow(f, i) + AsMap(Defaults))["Comment" := Str(f.stem)] == LabelledRow(f, i) + AsMap(Defaults)
    {
      assert (LabelledRow(f, i) + AsMap(Defaults))["Comment"] == Str(f.stem);
    }
  }

  /** After the comment step each row is what name_format sees. */
  lemma AfterComment(f: CsvFile, rec: Record, t1: Table)
    requires ValidFile(f)
    requires CommentStep(Prepared(ReadCsv(f.columns, f.rows), f.stem), rec) == Ok(t1)
    ensures t1.columns == PreparedColumns(f)
    ensures t1.index == Range(0, |f.rows|) && |t1.rows| == |f.rows|
    ensures forall i :: 0 <= i < |f.rows| ==> t1.rows[i] == RowBeforeName(f, i, rec)
  {
    PreparedRows(f);
    var p := Prepared(ReadCsv(f.columns, f.rows), f.stem);
    forall i | 0 <= i < |f.rows|
      ensures t1.rows[i] == RowBeforeName(f, i, rec)
    {
      var before := RowBeforeName(f, i, map[]);
      assert before == p.rows[i];
      if "comment" in rec {
        assert t1.rows[i] == before["Comment" := CommentValue(rec, f.stem)];
      } else {
        assert before["Comment" := Str(f.stem)] == before;
      }
    }
  }

  /** Normalisation of one source, row by row: each row is its input cells
      with Index = i + 1, Comment, Name, the 17 constants and radio_params
      assigned as the script assigns them, and the index stays 0..n-1. */
  lemma NormalizedRows(f: CsvFile, meta: Metadata, t: Table)
    requires ValidFile(f)
    requires Normalized(f, meta) == Ok(t)
    ensures t.columns == FinalColumns(f, RecordOf(meta, f.stem))
    ensures t.index == Range(0, |f.rows|) && |t.rows| == |f.rows|
    ensures forall i :: 0 <= i < |f.rows| ==> t.rows[i] == FinalRow(f, i, RecordOf(meta, f.stem))
  {
    var rec := RecordOf(meta, f.stem);
    var p := Prepared(ReadCsv(f.columns, f.rows), f.stem);
    assert CommentStep(p, rec).Ok? by {
      if f.stem !in meta {
        assert CommentStep(p, rec) == Ok(p);
      }
    }
    var t1 := CommentStep(p, rec).value;
    AfterComment(f, rec, t1);
    assert NameStep(t1, rec).Ok? by {
      if f.stem !in meta {
        assert NameStep(t1, rec) == Ok(t1);
      }
    }
    var t2 := NameStep(t1, rec).value;
    AfterName(f, rec, t1, t2);
    if f.stem in meta {
      assert ParamsStep(t2, rec, f.stem) == Ok(t);
    } else {
      assert t2 == t1 == p == t;
    }
    AfterParams(f, rec, t2, t);
  }

  lemma AfterName(f: CsvFile, rec: Record, t1: Table, t2: Table)
    requires forall i :: 0 <= i < |f.rows| ==> i < |t1.rows| && t1.rows[i] == RowBeforeName(f, i, rec)
    requires |t1.rows| == |f.rows|
    requires NameStep(t1, rec) == Ok(t2)
    ensures t2.columns == t1.columns + (if "name_format" in rec then {"Name"} else {})
    ensures t2.index == t1.index && |t2.rows| == |f.rows|
    ensures forall i :: 0 <= i < |f.rows| ==> t2.rows[i] == NamedRow(f, i, rec)
  {
    if "name_format" in rec {
      assert HasTemplate(rec);
    }
  }

  lemma AfterParams(f: CsvFile, rec: Record, t2: Table, t: Table)
    requires forall i :: 0 <= i < |f.rows| ==> i < |t2.rows| && t2.rows[i] == NamedRow(f, i, rec)
    requires |t2.rows| == |f.rows|
    requires ParamsStep(t2, rec, f.stem) == Ok(t)
    ensures t.columns == t2.columns + AppliedParams(rec, f.stem).Keys
    ensures t.index == t2.index && |t.rows| == |f.rows|
    ensures forall i :: 0 <= i < |f.rows| ==> t.rows[i] == FinalRow(f, i, rec)
  {
    if "radio_params" !in rec {
      assert forall i :: 0 <= i < |f.rows| ==> t2.rows[i] + map[] == t2.rows[i];
    }
  }

  // ---------------------------------------------------------------------
  // What each column of a normalised row holds
  // ---------------------------------------------------------------------

  /** Every row gets the 17 constants, unless radio_params overrides one. */
  lemma DefaultsApplied(f: CsvFile, meta: Metadata, t: Table)
    requires ValidFile(f) && Normalized(f, meta) == Ok(t)
    ensures forall i, k :: 0 <= i < |t.rows| && 0 <= k < |Defaults| ==>
              var params := AppliedParams(RecordOf(meta, f.stem), f.stem);
              Defaults[k].0 in t.rows[i] &&
              t.rows[i][Defaults[k].0] == if Defaults[k].0 in params then params[Defaults[k].0] else Defaults[k].1
  {
    NormalizedRows(f, meta, t);
    forall i, k | 0 <= i < |t.rows| && 0 <= k < |Defaults|
      ensures var params := AppliedParams(RecordOf(meta, f.stem), f.stem);
              Defaults[k].0 in t.rows[i] &&
              t.rows[i][Defaults[k].0] == if Defaults[k].0 in params then params[Defaults[k].0] else Defaults[k].1
    {
      RowDefault(f, i, RecordOf(meta, f.stem), k);
    }
  }

  lemma RowDefault(f: CsvFile, i: nat, rec: Record, k: nat)
    requires i < |f.rows| && k < |Defaults|
    ensures var key, params := Defaults[k].0, AppliedParams(rec, f.stem);
            key in FinalRow(f, i, rec) &&
            FinalRow(f, i, rec)[key] == if key in params then params[key] else Defaults[k].1
  {
    DefaultsLookup();
    var key := Defaults[k].0;
    assert key in AsMap(Defaults) && key != "Comment" && key != "Name";
    var before := RowBeforeName(f, i, rec);
    assert key in before && before[key] == Defaults[k].1;
    assert NamedRow(f, i, rec)[key] == before[key];
  }

  /** Index is the 1-based row number, unless radio_params overrides it. */
  lemma IndexApplied(f: CsvFile, meta: Metadata, t: Table)
    requires ValidFile(f) && Normalized(f, meta) == Ok(t)
    requires "Index" !in AppliedParams(RecordOf(meta, f.stem), f.stem)
    ensures forall i :: 0 <= i < |t.rows| ==> "Index" in t.rows[i] && t.rows[i]["Index"] == Int(i + 1)
  {
    NormalizedRows(f, meta, t);
    forall i | 0 <= i < |t.rows|
      ensures "Index" in t.rows[i] && t.rows[i]["Index"] == Int(i + 1)
    {
      RowIndex(f, i, RecordOf(meta, f.stem));
    }
  }

  lemma RowIndex(f: CsvFile, i: nat, rec: Record)
    requires i < |f.rows| && "Index" !in AppliedParams(rec, f.stem)
    ensures "Index" in FinalRow(f, i, rec) && FinalRow(f, i, rec)["Index"] == Int(i + 1)
  {
    DefaultsLookup();
    var before := RowBeforeName(f, i, rec);
    assert before["Index"] == LabelledRow(f, i)["Index"] == Int(i + 1);
    assert NamedRow(f, i, rec)["Index"] == before["Index"];
  }

  /** Comment is radio_params' Comment, else the record's comment, else the
      source name. */
  lemma CommentApplied(f: CsvFile, meta: Metadata, t: Table)
    requires ValidFile(f) && Normalized(f, meta) == Ok(t)
    ensures forall i :: 0 <= i < |t.rows| ==>
              var rec := RecordOf(meta, f.stem);
              var params := AppliedParams(rec, f.stem);
              "Comment" in t.rows[i] &&
              t.rows[i]["Comment"] == if "Comment" in params then params["Comment"] else CommentValue(rec, f.stem)
  {
    NormalizedRows(f, meta, t);
  }

  /** Name is name_format formatted over the row as it stands before that
      step, else the Description cell, else the input's own Name; a
      radio_params Name overrides all of them. */
  lemma NameApplied(f: CsvFile, meta: Metadata, t: Table)
    requires ValidFile(f) && Normalized(f, meta) == Ok(t)
    requires "Name" !in AppliedParams(RecordOf(meta, f.stem), f.stem)
    ensures var rec := RecordOf(meta, f.stem);
            "name_format" in rec ==> HasTemplate(rec)
    ensures |t.rows| == |f.rows|
    ensures forall i :: 0 <= i < |f.rows| ==>
              var rec := RecordOf(meta, f.stem);
              && (HasTemplate(rec) ==>
                    var name := Format(rec["name_format"].v.s, RowBeforeName(f, i, rec));
                    name.Ok? && "Name" in t.rows[i] && t.rows[i]["Name"] == Str(name.value))
              && ("name_format" !in rec && "Description" in f.columns ==>
                    "Name" in t.rows[i] && t.rows[i]["Name"] == f.rows[i]["Description"])
              && ("name_format" !in rec && "Description" !in f.columns && "Name" in f.columns ==>
                    "Name" in t.rows[i] && t.rows[i]["Name"] == f.rows[i]["Name"])
  {
    NormalizedRows(f, meta, t);
    var rec := RecordOf(meta, f.stem);
    if "name_format" in rec {
      NameFormatted(f, meta);
    }
    forall i | 0 <= i < |f.rows|
      ensures && (HasTemplate(rec) && Format(rec["name_format"].v.s, RowBeforeName(f, i, rec)).Ok? ==>
                    "Name" in t.rows[i] && t.rows[i]["Name"] == Str(Format(rec["name_format"].v.s, RowBeforeName(f, i, rec)).value))
              && ("name_format" !in rec && "Description" in f.columns ==>
                    "Name" in t.rows[i] && t.rows[i]["Name"] == f.rows[i]["Description"])
              && ("name_format" !in rec && "Description" !in f.columns && "Name" in f.columns ==>
                    "Name" in t.rows[i] && t.rows[i]["Name"] == f.rows[i]["Name"])
    {
      RowName(f, i, rec);
    }
  }

  /** A normalisation that succeeds with a name_format in the record had a
      string template that formats every row. */
  lemma NameFormatted(f: CsvFile, meta: Metadata)
    requires ValidFile(f) && Normalized(f, meta).Ok?
    requires "name_format" in RecordOf(meta, f.stem)
    ensures var rec := RecordOf(meta, f.stem);
            HasTemplate(rec) && forall i :: 0 <= i < |f.rows| ==> Format(rec["name_format"].v.s, RowBeforeName(f, i, rec)).Ok?
  {
    var rec := RecordOf(meta, f.stem);
    var p := Prepared(ReadCsv(f.columns, f.rows), f.stem);
    assert f.stem in meta;
    var t1 := CommentStep(p, rec).value;
    AfterComment(f, rec, t1);
    assert NameStep(t1, rec).Ok?;
    assert HasTemplate(rec);
    var template := rec["name_format"].v.s;
    assert FormatRows(template, t1.rows).Ok?;
    forall i | 0 <= i < |f.rows|
      ensures Format(template, RowBeforeName(f, i, rec)).Ok?
    {
      assert t1.rows[i] == RowBeforeName(f, i, rec);
    }
  }

  /** A source without data rows still has its template tried: df.apply
      formats it once over a NaN row under the columns set so far, and a
      failure there (an unknown or positional field, a brace error, a
      name_format that is not a string) stops the source with ValueError,
      although there is no row to name. */
  lemma EmptySourceName(f: CsvFile, meta: Metadata)
    requires ValidFile(f) && f.rows == []
    requires f.stem in meta && "name_format" in meta[f.stem]
    requires "comment" in meta[f.stem] ==> meta[f.stem]["comment"].Scalar?
    ensures var rec := meta[f.stem];
            && (!HasTemplate(rec) ==> Normalized(f, meta) == Err(ValueError))
            && (HasTemplate(rec) ==>
                  var probe := Format(rec["name_format"].v.s, NaNRow(PreparedColumns(f)));
                  && (probe.Err? && probe.error != UnsupportedTemplate ==> Normalized(f, meta) == Err(ValueError))
                  && (Normalized(f, meta).Ok? ==> probe.Ok?))
  {
    var rec := meta[f.stem];
    var p := Prepared(ReadCsv(f.columns, f.rows), f.stem);
    assert CommentStep(p, rec).Ok?;
    var t1 := CommentStep(p, rec).value;
    AfterComment(f, rec, t1);
    assert |t1.rows| == 0;
    if !HasTemplate(rec) {
      assert ApplyFormat(rec["name_format"], t1) == Err(ValueError);
    }
  }

  lemma RowName(f: CsvFile, i: nat, rec: Record)
    requires ValidFile(f) && i < |f.rows| && "Name" !in AppliedParams(rec, f.stem)
    ensures && (HasTemplate(rec) && Format(rec["name_format"].v.s, RowBeforeName(f, i, rec)).Ok? ==>
                  "Name" in FinalRow(f, i, rec) &&
                  FinalRow(f, i, rec)["Name"] == Str(Format(rec["name_format"].v.s, RowBeforeName(f, i, rec)).value))
            && ("name_format" !in rec && "Description" in f.columns ==>
                  "Name" in FinalRow(f, i, rec) && FinalRow(f, i, rec)["Name"] == f.rows[i]["Description"])
            && ("name_format" !in rec && "Description" !in f.columns && "Name" in f.columns ==>
                  "Name" in FinalRow(f, i, rec) && FinalRow(f, i, rec)["Name"] == f.rows[i]["Name"])
  {
    DefaultsLookup();
    var labelled := LabelledRow(f, i);
    var before := RowBeforeName(f, i, rec);
    if "Name" in labelled {
      assert "Name" in before && before["Name"] == labelled["Name"];
    }
  }

  /** A cell of the input that no step assigns reaches the output unchanged. */
  lemma CellsPassThrough(f: CsvFile, meta: Metadata, t: Table, c: string)
    requires ValidFile(f) && Normalized(f, meta) == Ok(t)
    requires c in f.columns && c != "Index" && c != "Comment" && c !in AsMap(Defaults)
    requires c == "Name" ==> "Description" !in f.columns && "name_format" !in RecordOf(meta, f.stem)
    requires c !in AppliedParams(RecordOf(meta, f.stem), f.stem)
    ensures |t.rows| == |f.rows|
    ensures forall i :: 0 <= i < |f.rows| ==> c in t.rows[i] && t.rows[i][c] == f.rows[i][c]
  {
    NormalizedRows(f, meta, t);
    forall i | 0 <= i < |f.rows|
      ensures c in t.rows[i] && t.rows[i][c] == f.rows[i][c]
    {
      RowPassThrough(f, i, RecordOf(meta, f.stem), c);
    }
  }

  lemma RowPassThrough(f: CsvFile, i: nat, rec: Record, c: string)
    requires ValidFile(f) && i < |f.rows|
    requires c in f.columns && c != "Index" && c != "Comment" && c !in AsMap(Defaults)
    requires c == "Name" ==> "Description" !in f.columns && "name_format" !in rec
    requires c !in AppliedParams(rec, f.stem)
    ensures c in FinalRow(f, i, rec) && FinalRow(f, i, rec)[c] == f.rows[i][c]
  {
    var labelled := LabelledRow(f, i);
    assert c in labelled && labelled[c] == f.rows[i][c];
    var before := RowBeforeName(f, i, rec);
    assert before[c] == labelled[c];
    var named := NamedRow(f, i, rec);
    assert c in named && named[c] == before[c];
  }

  /** Frequency is never assigned by the script: it comes from the input
      (or from radio_params). */
  lemma FrequencyKept(f: CsvFile, meta: Metadata, t: Table)
    requires ValidFile(f) && Normalized(f, meta) == Ok(t)
    requires "Frequency" in f.columns && "Frequency" !in AppliedParams(RecordOf(meta, f.stem), f.stem)
    ensures |t.rows| == |f.rows|
    ensures forall i :: 0 <= i < |f.rows| ==> "Frequency" in t.rows[i] && t.rows[i]["Frequency"] == f.rows[i]["Frequency"]
  {
    AsMapKeys(Defaults, "Frequency");
    CellsPassThrough(f, meta, t, "Frequency");
  }

  /** Every radio_params entry lands on every row. */
  lemma ParamsApplied(f: CsvFile, meta: Metadata, t: Table)
    requires ValidFile(f) && Normalized(f, meta) == Ok(t)
    ensures forall i, c :: 0 <= i < |t.rows| && c in AppliedParams(RecordOf(meta, f.stem), f.stem) ==>
              c in t.rows[i] && t.rows[i][c] == AppliedParams(RecordOf(meta, f.stem), f.stem)[c]
  {
    NormalizedRows(f, meta, t);
  }

  // ---------------------------------------------------------------------
  // The radio_params lookup of line 41
  // ---------------------------------------------------------------------

  /** radio_params takes effect only through metadata[stem][stem]: a
      normalisation that succeeds with radio_params in the record found a
      nested object under the source name holding radio_params, whose
      values are all scalars. */
  lemma RadioParamsNeedNestedRecord(f: CsvFile, meta: Metadata, t: Table)
    requires ValidFile(f) && Normalized(f, meta) == Ok(t)
    requires f.stem in meta && "radio_params" in meta[f.stem]
    ensures var rec := meta[f.stem];
            && f.stem in rec && rec[f.stem].Object? && "radio_params" in rec[f.stem].fields
            && rec[f.stem].fields["radio_params"].Object?
            && AppliedParams(rec, f.stem) == map c | c in rec[f.stem].fields["radio_params"].fields :: rec[f.stem].fields["radio_params"].fields[c].v
  {
    var rec := meta[f.stem];
    var p := Prepared(ReadCsv(f.columns, f.rows), f.stem);
    var t1 := CommentStep(p, rec).value;
    var t2 := NameStep(t1, rec).value;
    assert ParamsStep(t2, rec, f.stem).Ok?;
    assert RadioParams(rec, f.stem).Ok?;
  }

  /** The record's name_format, if any, names the source without error: a
      string that formats every row, or, for a source without rows, the
      NaN row df.apply tries. */
  predicate NameFormatFits(f: CsvFile, rec: Record)
  {
    "name_format" !in rec ||
    (HasTemplate(rec) &&
     if |f.rows| == 0 then Format(rec["name_format"].v.s, NaNRow(PreparedColumns(f))).Ok?
     else forall i :: 0 <= i < |f.rows| ==> Format(rec["name_format"].v.s, RowBeforeName(f, i, rec)).Ok?)
  }

  /** A record that holds radio_params at its top level, but no entry
      named after the source, fails with KeyError(source name) once its
      comment and name_format are fine: the usual record of comment,
      name_format and radio_params cannot take effect. */
  lemma RadioParamsKeyError(f: CsvFile, meta: Metadata)
    requires ValidFile(f)
    requires f.stem in meta && "radio_params" in meta[f.stem] && f.stem !in meta[f.stem]
    requires "comment" in meta[f.stem] ==> meta[f.stem]["comment"].Scalar?
    requires NameFormatFits(f, meta[f.stem])
    ensures Normalized(f, meta) == Err(KeyError(f.stem))
  {
    var rec := meta[f.stem];
    var p := Prepared(ReadCsv(f.columns, f.rows), f.stem);
    assert CommentStep(p, rec).Ok?;
    var t1 := CommentStep(p, rec).value;
    AfterComment(f, rec, t1);
    if "name_format" in rec {
      if |f.rows| > 0 {
        assert FormatRows(rec["name_format"].v.s, t1.rows).Ok?;
      }
      assert NameStep(t1, rec).Ok?;
    } else {
      assert NameStep(t1, rec) == Ok(t1);
    }
    assert RadioParams(rec, f.stem) == Err(KeyError(f.stem));
  }

  // ---------------------------------------------------------------------
  // The file written for each source
  // ---------------------------------------------------------------------

  /** The columns Missing reports are exactly the absent Schema columns. */
  lemma MissingExact(columns: set<string>)
    ensures forall x :: x in Missing(columns) <==> x in Schema && x !in columns
  {
    forall x | x in Schema && x !in columns
      ensures x in Missing(columns)
    {
      var j :| 0 <= j < |Schema| && Schema[j] == x;
    }
  }

  /** Every Schema column other than Name, Frequency and Comment is the
      name of one of the constants. */
  lemma SchemaProvided()
    ensures forall j :: 0 <= j < |Schema| && j != 0 && j != 1 && j != 15 ==>
              var k := if j < 15 then j - 2 else j - 3;
              0 <= k < |Defaults| && Schema[j] == Defaults[k].0
    ensures Schema[0] == "Name" && Schema[1] == "Frequency" && Schema[15] == "Comment"
  {
  }

  /** With Comment and the constants present, only Name and Frequency can
      be missing from the Schema columns. */
  lemma SchemaMissing(cols: set<string>)
    requires "Comment" in cols
    requires forall k :: 0 <= k < |Defaults| ==> Defaults[k].0 in cols
    ensures forall x :: x in Missing(cols) <==> (x == "Name" && "Name" !in cols) || (x == "Frequency" && "Frequency" !in cols)
    ensures Missing(cols) == {} <==> "Name" in cols && "Frequency" in cols
  {
    SchemaProvided();
    MissingExact(cols);
    forall x | x in Missing(cols)
      ensures (x == "Name" && "Name" !in cols) || (x == "Frequency" && "Frequency" !in cols)
    {
      var j :| 0 <= j < |Schema| && Schema[j] == x;
    }
    if "Name" !in cols {
      assert "Name" in Missing(cols);
    } else if "Frequency" !in cols {
      assert "Frequency" in Missing(cols);
    }
  }

  /** Writing a normalised source fails exactly when it has no Name column
      (no Name, no Description, no name_format, no radio_params Name) or
      no Frequency column; the error lists those columns. */
  lemma WriteFailsIff(f: CsvFile, meta: Metadata, t: Table)
    requires ValidFile(f) && Normalized(f, meta) == Ok(t)
    ensures var rec := RecordOf(meta, f.stem);
            var params := AppliedParams(rec, f.stem);
            var noName := "Name" !in f.columns && "Description" !in f.columns && "name_format" !in rec && "Name" !in params;
            var noFrequency := "Frequency" !in f.columns && "Frequency" !in params;
            && (WriteSpec(t).Err? <==> noName || noFrequency)
            && (WriteSpec(t).Err? ==>
                  WriteSpec(t).error.ColumnsNotInIndex? &&
                  forall x :: x in WriteSpec(t).error.missing <==> (x == "Name" && noName) || (x == "Frequency" && noFrequency))
  {
    NormalizedRows(f, meta, t);
    DefaultsLookup();
    var rec := RecordOf(meta, f.stem);
    var params := AppliedParams(rec, f.stem);
    assert "Name" !in t.columns <==> "Name" !in f.columns && "Description" !in f.columns && "name_format" !in rec && "Name" !in params;
    assert "Frequency" !in t.columns <==> "Frequency" !in f.columns && "Frequency" !in params by {
      AsMapKeys(Defaults, "Frequency");
    }
    SchemaMissing(t.columns);
  }

  /** What a source contributes: its normalised frame with the index
      shifted to 1..n, and a file with one line per row of that frame, its
      Location i + 1 and the frame's 20 Schema cells. NormalizedRows says
      what each of those rows holds. */
  lemma SourceFileRows(f: CsvFile, meta: Metadata)
    requires ValidFile(f) && SourceOutcome(f, meta).Ok?
    ensures Normalized(f, meta).Ok?
    ensures var t := Normalized(f, meta).value;
            var out := SourceOutcome(f, meta).value;
            && out.0 == ShiftedIndex(t) && WellFormed(out.0) && Project(out.0) == Ok(out.1)
            && out.0.index == Range(1, |f.rows|)
            && |out.1| == |t.rows| == |f.rows|
            && forall i :: 0 <= i < |f.rows| ==>
                 && out.1[i].location == i + 1
                 && |out.1[i].fields| == |Schema|
                 && forall j :: 0 <= j < |Schema| ==> Schema[j] in t.rows[i] && out.1[i].fields[j] == t.rows[i][Schema[j]]
  {
    var t := Normalized(f, meta).value;
    var out := SourceOutcome(f, meta).value;
    var shifted := ShiftedIndex(t);
    assert out.0 == shifted && Project(shifted) == Ok(out.1);
    assert |t.rows| == |f.rows| && t.index == Range(0, |f.rows|) by {
      NormalizedRows(f, meta, t);
    }
    ProjectRows(shifted, out.1);
  }

  /** df[Schema].to_csv(...) writes one line per row: the row's index label
      as Location and its 20 Schema cells in order. */
  lemma ProjectRows(t: Table, lines: seq<CsvRow>)
    requires WellFormed(t) && Project(t) == Ok(lines)
    ensures |lines| == |t.rows|
    ensures forall i :: 0 <= i < |t.rows| ==>
              && lines[i].location == t.index[i]
              && |lines[i].fields| == |Schema|
              && forall j :: 0 <= j < |Schema| ==> Schema[j] in t.rows[i] && lines[i].fields[j] == t.rows[i][Schema[j]]
  {
    assert Missing(t.columns) == {};
  }

  // ---------------------------------------------------------------------
  // The loop over the sources
  // ---------------------------------------------------------------------

  /** The loop keeps one frame per file written, at most one per source. */
  lemma {:induction false} CollectLengths(outs: seq<Step>)
    ensures var p := Collect(outs);
            |p.written| == |p.frames| <= |outs|
  {
    if outs != [] {
      CollectLengths(outs[..|outs| - 1]);
    }
  }

  /** The k-th file written and the k-th frame kept are the k-th step's. */
  lemma {:induction false} CollectAt(outs: seq<Step>, k: nat)
    requires k < |Collect(outs).written| && k < |Collect(outs).frames|
    ensures var p := Collect(outs);
            k < |outs| && p.written[k].0 == outs[k].0 && outs[k].1 == Ok((p.frames[k], p.written[k].1))
  {
    var n := |outs| - 1;
    var init := outs[..n];
    var p := Collect(init);
    CollectLengths(init);
    if k < |p.written| {
      CollectAt(init, k);
      assert init[k] == outs[k];
    } else {
      CollectStops(init);
      assert k == n;
    }
  }

  /** The loop runs through every step unless one fails, and then it stops
      at the first that fails. */
  lemma {:induction false} CollectStops(outs: seq<Step>)
    ensures var p := Collect(outs);
            && (p.failure.None? ==> |p.written| == |outs|)
            && (p.failure.Some? ==> |p.written| < |outs| && outs[|p.written|].1 == Err(p.failure.value))
  {
    if outs != [] {
      var n := |outs| - 1;
      var init := outs[..n];
      CollectStops(init);
      var p := Collect(init);
      if p.failure.Some? {
        assert outs[|p.written|] == init[|p.written|];
      }
    }
  }

  /** What the loop does with the sources: the k-th file written is the
      k-th source's, with that source's frame kept beside it; when no
      source fails every source is written, and otherwise the loop stops
      at the first that fails. */
  lemma ProcessedShape(files: seq<CsvFile>, meta: Metadata)
    requires forall f | f in files :: ValidFile(f)
    ensures var p := Processed(files, meta);
            && |p.written| == |p.frames| <= |files|
            && (forall k :: 0 <= k < |p.written| ==>
                  p.written[k].0 == files[k].stem && SourceOutcome(files[k], meta) == Ok((p.frames[k], p.written[k].1)))
            && (p.failure.None? ==> |p.written| == |files|)
            && (p.failure.Some? ==> |p.written| < |files| && SourceOutcome(files[|p.written|], meta) == Err(p.failure.value))
  {
    var outs := Outcomes(files, meta);
    var p := Collect(outs);
    CollectLengths(outs);
    CollectStops(outs);
    forall k | 0 <= k < |p.written|
      ensures p.written[k].0 == files[k].stem && SourceOutcome(files[k], meta) == Ok((p.frames[k], p.written[k].1))
    {
      CollectAt(outs, k);
    }
  }

  /** Rows of every source, added up. */
  function TotalRows(files: seq<CsvFile>): nat
  {
    if files == [] then 0 else TotalRows(files[..|files| - 1]) + |files[|files| - 1].rows|
  }

  /** The lines of the written files, one after the other, as their cells. */
  function Flat(written: seq<(string, seq<CsvRow>)>): seq<seq<Value>>
  {
    if written == [] then []
    else
      var last := written[|written| - 1].1;
      Flat(written[..|written| - 1]) + seq(|last|, i requires 0 <= i < |last| => last[i].fields)
  }

  lemma {:induction false} FlatLength(written: seq<(string, seq<CsvRow>)>, files: seq<CsvFile>)
    requires |written| == |files|
    requires forall k :: 0 <= k < |files| ==> |written[k].1| == |files[k].rows|
    ensures |Flat(written)| == TotalRows(files)
  {
    if files != [] {
      FlatLength(written[..|files| - 1], files[..|files| - 1]);
    }
  }

  /** When no source fails, the written files hold one line per input row. */
  lemma ProcessedTotal(files: seq<CsvFile>, meta: Metadata)
    requires forall f | f in files :: ValidFile(f)
    requires Processed(files, meta).failure.None?
    ensures |Flat(Processed(files, meta).written)| == TotalRows(files)
  {
    ProcessedShape(files, meta);
    var p := Processed(files, meta);
    forall k | 0 <= k < |files|
      ensures |p.written[k].1| == |files[k].rows|
    {
      SourceFileRows(files[k], meta);
    }
    FlatLength(p.written, files);
  }

  /** pd.concat of the frames has as many rows as the files have lines. */
  lemma {:induction false} ConcatLength(ts: seq<Table>, written: seq<(string, seq<CsvRow>)>, cols: set<string>)
    requires |ts| == |written|
    requires forall k :: 0 <= k < |ts| ==> WellFormed(ts[k]) && Project(ts[k]) == Ok(written[k].1)
    ensures |ConcatRows(ts, cols)| == |Flat(written)|
  {
    if ts != [] {
      ConcatLength(ts[..|ts| - 1], written[..|ts| - 1], cols);
    }
  }

  /** Row r of pd.concat of the frames carries exactly the cells of line r
      of the per-source files. */
  lemma {:induction false} ConcatFieldsAt(ts: seq<Table>, written: seq<(string, seq<CsvRow>)>, cols: set<string>, r: nat)
    requires |ts| == |written|
    requires forall k :: 0 <= k < |ts| ==> WellFormed(ts[k]) && Project(ts[k]) == Ok(written[k].1)
    requires r < |Flat(written)|
    ensures r < |ConcatRows(ts, cols)| && |Flat(written)[r]| == |Schema|
    ensures forall j :: 0 <= j < |Schema| ==>
              Schema[j] in ConcatRows(ts, cols)[r] && ConcatRows(ts, cols)[r][Schema[j]] == Flat(written)[r][j]
  {
    var n := |ts| - 1;
    ConcatLength(ts, written, cols);
    ConcatLength(ts[..n], written[..n], cols);
    var front := ConcatRows(ts[..n], cols);
    if r < |front| {
      ConcatFieldsAt(ts[..n], written[..n], cols, r);
      assert ConcatRows(ts, cols)[r] == front[r];
      assert Flat(written)[r] == Flat(written[..n])[r];
    } else {
      var i := r - |front|;
      var last := ts[n];
      assert Missing(last.columns) == {};
      assert ConcatRows(ts, cols)[r] == Fill(last.rows[i], cols);
      assert Flat(written)[r] == written[n].1[i].fields;
    }
  }


  // ---------------------------------------------------------------------
  // The run: per-source files and the combined file
  // ---------------------------------------------------------------------

  /** The per-source files are written in order, one for each source
      before the first failure. */
  lemma RunWritten(files: seq<CsvFile>, meta: Metadata)
    requires forall f | f in files :: ValidFile(f)
    ensures var run := RunSpec(files, meta);
            && |run.written| <= |files|
            && forall k :: 0 <= k < |run.written| ==>
                 SourceOutcome(files[k], meta).Ok? && run.written[k] == (files[k].stem, SourceOutcome(files[k], meta).value.1)
  {
    ProcessedShape(files, meta);
    assert RunSpec(files, meta).written == Processed(files, meta).written;
  }

  /** The combined file is written exactly when there is a source and none
      of them fails, and then every source has its own file. */
  lemma RunCombinedOk(files: seq<CsvFile>, meta: Metadata)
    requires forall f | f in files :: ValidFile(f)
    ensures var run := RunSpec(files, meta);
            && (run.combined.Ok? <==> files != [] && forall k :: 0 <= k < |files| ==> SourceOutcome(files[k], meta).Ok?)
            && (run.combined.Ok? ==> |run.written| == |files|)
  {
    ProcessedShape(files, meta);
    var p := Processed(files, meta);
    if p.failure.None? && p.frames != [] {
      CombinedWritable(p.frames);
    }
  }

  /** pd.concat keeps every column of its first table, so the combined
      frame can be written when the first one could. */
  lemma CombinedWritable(ts: seq<Table>)
    requires ts != [] && Missing(ts[0].columns) == {}
    requires forall k :: 0 <= k < |ts| ==> WellFormed(ts[k])
    ensures WellFormed(Concat(ts))
    ensures WriteSpec(ShiftedIndex(Concat(ts))).Ok?
  {
    ConcatWellFormed(ts);
    assert ts[0].columns <= Concat(ts).columns;
  }

  /** A run that writes no combined file reports the first source's
      failure, or pd.concat's ValueError when there is no source at all. */
  lemma RunFailure(files: seq<CsvFile>, meta: Metadata)
    requires forall f | f in files :: ValidFile(f)
    ensures var run := RunSpec(files, meta);
            && (run.combined.Err? && files != [] ==>
                  |run.written| < |files| && SourceOutcome(files[|run.written|], meta) == Err(run.combined.error))
            && (files == [] ==> run == Run([], Err(ValueError)))
  {
    ProcessedShape(files, meta);
  }

  /** Writing pd.concat of the frames, with its index shifted twice. */
  lemma {:induction false} CombinedProjection(ts: seq<Table>, written: seq<(string, seq<CsvRow>)>)
    requires |ts| == |written|
    requires forall k :: 0 <= k < |ts| ==> WellFormed(ts[k]) && Project(ts[k]) == Ok(written[k].1)
    ensures WellFormed(Concat(ts))
    ensures var combined := Project(ShiftedIndex(ShiftedIndex(Concat(ts))));
            combined.Ok? ==>
              && |combined.value| == |Flat(written)|
              && forall r :: 0 <= r < |combined.value| ==>
                   combined.value[r].location == r + 2 && combined.value[r].fields == Flat(written)[r]
  {
    ConcatWellFormed(ts);
    var cols := AllColumns(ts);
    ConcatLength(ts, written, cols);
    var shifted := ShiftedIndex(ShiftedIndex(Concat(ts)));
    var combined := Project(shifted);
    if combined.Ok? {
      var c := combined.value;
      forall r | 0 <= r < |c|
        ensures c[r].location == r + 2 && c[r].fields == Flat(written)[r]
      {
        ConcatFieldsAt(ts, written, cols, r);
        assert c[r] == CsvRow(shifted.index[r], seq(|Schema|, j requires 0 <= j < |Schema| => shifted.rows[r][Schema[j]]));
      }
    }
  }

  /** The combined file: one line per line of the per-source files, in
      the same order and with the same cells, its Location running 2..N+1
      because the index is shifted at line 115 and again in
      write_chirp_csv. */
  lemma CombinedRows(files: seq<CsvFile>, meta: Metadata)
    requires forall f | f in files :: ValidFile(f)
    requires RunSpec(files, meta).combined.Ok?
    ensures var run := RunSpec(files, meta);
            var c := run.combined.value;
            && |c| == |Flat(run.written)| == TotalRows(files)
            && forall r :: 0 <= r < |c| ==> c[r].location == r + 2 && c[r].fields == Flat(run.written)[r]
  {
    ProcessedShape(files, meta);
    ProcessedTotal(files, meta);
    var p := Processed(files, meta);
    forall k | 0 <= k < |p.frames|
      ensures WellFormed(p.frames[k]) && Project(p.frames[k]) == Ok(p.written[k].1)
    {
      SourceFileRows(files[k], meta);
    }
    CombinedProjection(p.frames, p.written);
  }

  /** After sorted(), the per-source files are written in strictly
      increasing file-name order. */
  lemma WrittenInNameOrder(found: seq<CsvFile>, meta: Metadata)
    requires forall f | f in found :: ValidFile(f)
    requires DistinctStems(found)
    ensures var run := RunSpec(SortByName(found), meta);
            forall k, l :: 0 <= k < l < |run.written| ==> Less(run.written[k].0 + ".csv", run.written[l].0 + ".csv")
  {
    var files := SortByName(found);
    SortByNameSorted(found);
    RunWritten(files, meta);
  }

  /** When the combined file is written, the k-th file written is the
      k-th source's, for every source. */
  lemma RunStems(files: seq<CsvFile>, meta: Metadata)
    requires forall f | f in files :: ValidFile(f)
    ensures var run := RunSpec(files, meta);
            run.combined.Ok? ==> |run.written| == |files| && forall k :: 0 <= k < |files| ==> run.written[k].0 == files[k].stem
  {
    ProcessedShape(files, meta);
  }

  /** A run that writes the combined file has written one file for every
      source found. */
  lemma AllSourcesWritten(found: seq<CsvFile>, meta: Metadata)
    requires forall f | f in found :: ValidFile(f)
    ensures var run := RunSpec(SortByName(found), meta);
            run.combined.Ok? ==> forall f | f in found :: exists k :: 0 <= k < |run.written| && run.written[k].0 == f.stem
  {
    var files := SortByName(found);
    RunStems(files, meta);
    var run := RunSpec(files, meta);
    if run.combined.Ok? {
      forall f | f in found
        ensures exists k :: 0 <= k < |run.written| && run.written[k].0 == f.stem
      {
        assert f in multiset(files);
        var k :| 0 <= k < |files| && files[k] == f;
        assert run.written[k].0 == f.stem;
      }
    }
  }

}
