/** The part of Python's str.format that `name_format` uses: literal text,
    "{{" and "}}" escapes, and "{field}" replaced by str() of the row's
    value under that column name. */
module Template {
  import opened Values

  /** One piece of a parsed template: a literal character or a field. */
  datatype Piece = Lit(c: char) | Field(name: string)

  /** The pieces read before the first syntax error, and that error if any.
      str.format reports errors left to right, so an unknown field before a
      syntax error wins over it. */
  datatype Parsed = Parsed(pieces: seq<Piece>, stop: Option<Error>)

  /** Characters that start a conversion, format spec, attribute or index
      inside a field; the model does not expand those. */
  predicate SpecChar(c: char)
  {
    c == ':' || c == '!' || c == '.' || c == '['
  }

  /** A field name the model substitutes: no braces, no spec characters. */
  predicate PlainName(name: string)
  {
    forall k :: 0 <= k < |name| ==> name[k] != '{' && name[k] != '}' && !SpecChar(name[k])
  }

  /** An empty or all-digit field refers to a positional argument, and
      name_format is called with keyword arguments only. */
  predicate Positional(name: string)
  {
    forall k :: 0 <= k < |name| ==> '0' <= name[k] <= '9'
  }

  /** Position of the first '}' in t, or |t| when there is none. */
  function FindClose(t: string): (k: nat)
    ensures k <= |t|
    ensures forall j :: 0 <= j < k ==> t[j] != '}'
    ensures k < |t| ==> t[k] == '}'
  {
    if t == [] || t[0] == '}' then 0 else 1 + FindClose(t[1..])
  }

  function Prepend(p: Piece, rest: Parsed): Parsed
  {
    Parsed([p] + rest.pieces, rest.stop)
  }

  /** Reads a template left to right, as str.format does. */
  function Parse(t: string): (p: Parsed)
    ensures p.stop.Some? ==> p.stop.value == ValueError || p.stop.value == UnsupportedTemplate
    decreases |t|
  {
    if t == [] then Parsed([], None)
    else if t[0] == '{' then
      if |t| > 1 && t[1] == '{' then Prepend(Lit('{'), Parse(t[2..]))
      else
        var k := FindClose(t[1..]);
        if k == |t| - 1 then Parsed([], Some(ValueError))
        else
          var name := t[1..k + 1];
          if exists j | 0 <= j < |name| :: SpecChar(name[j]) then Parsed([], Some(UnsupportedTemplate))
          else if '{' in name then Parsed([], Some(ValueError))
          else Prepend(Field(name), Parse(t[k + 2..]))
    else if t[0] == '}' then
      if |t| > 1 && t[1] == '}' then Prepend(Lit('}'), Parse(t[2..]))
      else Parsed([], Some(ValueError))
    else Prepend(Lit(t[0]), Parse(t[1..]))
  }

  /** Substitutes the row into the pieces; the first field that fails stops it. */
  function Expand(pieces: seq<Piece>, row: map<string, Value>): Result<string>
  {
    if pieces == [] then Ok("")
    else
      var head: Result<string> :=
        match pieces[0]
        case Lit(c) => Ok([c])
        case Field(name) =>
          if Positional(name) then Err(IndexError)
          else if name !in row then Err(KeyError(name))
          else Ok(Text(row[name]));
      match head
      case Err(e) => Err(e)
      case Ok(s) =>
        match Expand(pieces[1..], row)
        case Err(e) => Err(e)
        case Ok(rest) => Ok(s + rest)
  }

  /** template.format(**row). */
  function Format(template: string, row: map<string, Value>): Result<string>
  {
    var p := Parse(template);
    match Expand(p.pieces, row)
    case Err(e) => Err(e)
    case Ok(s) => if p.stop.Some? then Err(p.stop.value) else Ok(s)
  }

  /** The template text that parses to the given pieces. */
  function Unparse(pieces: seq<Piece>): string
  {
    if pieces == [] then ""
    else
      var head :=
        match pieces[0]
        case Lit(c) => if c == '{' then "{{" else if c == '}' then "}}" else [c]
        case Field(name) => "{" + name + "}";
      head + Unparse(pieces[1..])
  }

  predicate PlainPieces(pieces: seq<Piece>)
  {
    forall k :: 0 <= k < |pieces| && pieces[k].Field? ==> PlainName(pieces[k].name)
  }

  /** Reading a template back: parsing what Unparse writes gives the same
      pieces and no error. */
  lemma {:induction false} ParseUnparse(pieces: seq<Piece>)
    requires PlainPieces(pieces)
    ensures Parse(Unparse(pieces)) == Parsed(pieces, None)
  {
    if pieces != [] {
      assert PlainPieces(pieces[1..]) by {
        assert forall k :: 0 <= k < |pieces| - 1 ==> pieces[1..][k] == pieces[k + 1];
      }
      ParseUnparse(pieces[1..]);
      var rest := Unparse(pieces[1..]);
      UnparseCons(pieces);
      match pieces[0]
      case Lit(c) => ParseLit(c, rest);
      case Field(name) =>
        assert PlainName(name) by {
          assert pieces[0].Field?;
        }
        ParseField(name, rest);
      assert [pieces[0]] + pieces[1..] == pieces;
    }
  }

  lemma UnparseCons(pieces: seq<Piece>)
    requires pieces != []
    ensures Unparse(pieces) == Unparse([pieces[0]]) + Unparse(pieces[1..])
  {
    assert [pieces[0]][1..] == [];
  }

  lemma ParseLit(c: char, rest: string)
    ensures Parse(Unparse([Lit(c)]) + rest) == Prepend(Lit(c), Parse(rest))
  {
    assert [Lit(c)][1..] == [];
    var t := Unparse([Lit(c)]) + rest;
    assert Unparse([]) == "";
    if c == '{' {
      assert Unparse([Lit(c)]) == "{{" + Unparse([]);
      assert t == ['{', '{'] + rest;
      assert t[2..] == rest;
    } else if c == '}' {
      assert Unparse([Lit(c)]) == "}}" + Unparse([]);
      assert t == ['}', '}'] + rest;
      assert t[2..] == rest;
    } else {
      assert t == [c] + rest;
      assert t[1..] == rest;
    }
  }

  /** A plain field followed by more text parses to that field first. */
  lemma ParseField(name: string, rest: string)
    requires PlainName(name)
    ensures Unparse([Field(name)]) + rest == "{" + name + "}" + rest
    ensures Parse("{" + name + "}" + rest) == Prepend(Field(name), Parse(rest))
  {
    var t := "{" + name + "}" + rest;
    FieldSlices(name, rest);
    FindCloseAfterPlain(name, rest);
    ParseFieldAt(t, |name|);
  }

  lemma FieldSlices(name: string, rest: string)
    requires PlainName(name)
    ensures var t := "{" + name + "}" + rest;
            && |t| > |name| + 1 && t[0] == '{' && t[1] != '{'
            && t[1..] == name + "}" + rest && t[1..|name| + 1] == name && t[|name| + 2..] == rest
  {
    var t := "{" + name + "}" + rest;
    assert t[1..] == name + "}" + rest;
    assert t[1..|name| + 1] == name;
    assert t[|name| + 2..] == rest;
    if |name| > 0 {
      assert t[1] == name[0];
    } else {
      assert t[1] == '}';
    }
  }

  /** Parse at a '{' that opens a plain field closed at position k + 1. */
  lemma ParseFieldAt(t: string, k: nat)
    requires |t| > k + 1 && t[0] == '{' && t[1] != '{'
    requires FindClose(t[1..]) == k && PlainName(t[1..k + 1])
    ensures Parse(t) == Prepend(Field(t[1..k + 1]), Parse(t[k + 2..]))
  {
    var name := t[1..k + 1];
    assert !exists j | 0 <= j < |name| :: SpecChar(name[j]);
    assert '{' !in name;
  }

  lemma FindCloseAfterPlain(name: string, rest: string)
    requires PlainName(name)
    ensures FindClose(name + "}" + rest) == |name|
  {
    var t := name + "}" + rest;
    assert t[|name|] == '}';
  }

  /** Expansion succeeds exactly when every field is a keyword naming a
      column of the row; otherwise it fails with IndexError or KeyError. */
  lemma {:induction false} ExpandOkIff(pieces: seq<Piece>, row: map<string, Value>)
    ensures Expand(pieces, row).Ok? <==>
              forall k :: 0 <= k < |pieces| && pieces[k].Field? ==>
                !Positional(pieces[k].name) && pieces[k].name in row
    ensures Expand(pieces, row).Err? ==>
              Expand(pieces, row).error == IndexError || Expand(pieces, row).error.KeyError?
  {
    if pieces != [] {
      ExpandOkIff(pieces[1..], row);
      assert forall k :: 1 <= k < |pieces| ==> pieces[k] == pieces[1..][k - 1];
    }
  }

  /** template.format(**row) succeeds exactly when the template parses
      without a brace error and every field is a keyword naming a column of
      the row. A well-formed template fails with IndexError or KeyError; a
      malformed one with ValueError (or with UnsupportedTemplate when it
      uses a field syntax outside the model). */
  lemma FormatOkIff(template: string, row: map<string, Value>)
    ensures var p := Parse(template);
            Format(template, row).Ok? <==>
              && p.stop == None
              && forall k :: 0 <= k < |p.pieces| && p.pieces[k].Field? ==>
                   !Positional(p.pieces[k].name) && p.pieces[k].name in row
    ensures var r := Format(template, row);
            r.Err? ==> r.error == IndexError || r.error.KeyError? || r.error == ValueError || r.error == UnsupportedTemplate
    ensures var r := Format(template, row);
            Parse(template).stop == None && r.Err? ==> r.error == IndexError || r.error.KeyError?
  {
    ExpandOkIff(Parse(template).pieces, row);
  }

  /** A name depends only on the columns its template names: two rows that
      agree on those columns expand to the same result. */
  lemma {:induction false} ExpandReadsOnlyFields(pieces: seq<Piece>, row: map<string, Value>, row': map<string, Value>)
    requires forall k :: 0 <= k < |pieces| && pieces[k].Field? ==>
               (pieces[k].name in row <==> pieces[k].name in row') &&
               (pieces[k].name in row ==> row[pieces[k].name] == row'[pieces[k].name])
    ensures Expand(pieces, row) == Expand(pieces, row')
  {
    if pieces != [] {
      assert forall k :: 1 <= k < |pieces| ==> pieces[k] == pieces[1..][k - 1];
      ExpandReadsOnlyFields(pieces[1..], row, row');
    }
  }

  /** A template without braces formats to itself, whatever the row. */
  lemma {:induction false} FormatLiteral(template: string, row: map<string, Value>)
    requires '{' !in template && '}' !in template
    ensures Format(template, row) == Ok(template)
  {
    LiteralPieces(template, row);
  }

  lemma {:induction false} LiteralPieces(template: string, row: map<string, Value>)
    requires '{' !in template && '}' !in template
    ensures Parse(template).stop == None
    ensures Expand(Parse(template).pieces, row) == Ok(template)
  {
    if template != [] {
      LiteralPieces(template[1..], row);
      assert Parse(template).pieces == [Lit(template[0])] + Parse(template[1..]).pieces;
      assert [template[0]] + template[1..] == template;
    }
  }

  /** Each "{name}" is replaced by str() of the row's value: a template made
      of a field and a literal suffix formats to that value's text followed
      by the suffix. */
  lemma FormatFieldThenText(name: string, suffix: string, row: map<string, Value>)
    requires PlainName(name) && !Positional(name) && name in row
    requires '{' !in suffix && '}' !in suffix
    ensures Format("{" + name + "}" + suffix, row) == Ok(Text(row[name]) + suffix)
  {
    var t := "{" + name + "}" + suffix;
    ParseField(name, suffix);
    LiteralPieces(suffix, row);
    assert Parse(t) == Prepend(Field(name), Parse(suffix));
    var ps := Parse(t).pieces;
    assert ps[1..] == Parse(suffix).pieces;
  }

}
