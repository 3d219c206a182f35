/** read_metadata_file: "//" line comments are cut off before the text is
    handed to the JSON parser. */
module Comments {
  import opened Values

  /** The shape json.loads must produce for the script: source name to record. */
  type Record = map<string, Json>
  type Metadata = map<string, Record>

  /** Python's str.split("\n"): never empty; "" gives [""]. */
  function SplitLines(s: string): (lines: seq<string>)
    ensures |lines| >= 1
    ensures forall k :: 0 <= k < |lines| ==> '\n' !in lines[k]
  {
    if s == [] then [""]
    else
      var rest := SplitLines(s[1..]);
      if s[0] == '\n' then [""] + rest else [[s[0]] + rest[0]] + rest[1..]
  }

  /** Python's "\n".join(lines). */
  function JoinLines(lines: seq<string>): string
    requires |lines| >= 1
  {
    if |lines| == 1 then lines[0] else lines[0] + "\n" + JoinLines(lines[1..])
  }

  /** A comment marker "//" starts at position i of s. */
  predicate MarkerAt(s: string, i: int)
  {
    0 <= i && i + 1 < |s| && s[i] == '/' && s[i + 1] == '/'
  }

  /** Python's `"//" in s`. */
  predicate HasMarker(s: string)
  {
    exists i | 0 <= i < |s| :: MarkerAt(s, i)
  }

  /** Python's line.split("//")[0]: the part of the line before its first "//". */
  function CutAtMarker(line: string): (r: string)
    ensures |r| <= |line| && r == line[..|r|]
    ensures forall j :: 0 <= j < |r| ==> !MarkerAt(line, j)
    ensures HasMarker(line) ==> MarkerAt(line, |r|)
    ensures !HasMarker(line) ==> r == line
    ensures !HasMarker(r)
    ensures '\n' !in line ==> '\n' !in r
  {
    if |line| < 2 then line
    else if line[0] == '/' && line[1] == '/' then
      assert MarkerAt(line, 0);
      ""
    else
      var rest := CutAtMarker(line[1..]);
      var r := [line[0]] + rest;
      assert r == line[..|r|];
      assert forall j :: 0 <= j < |r| ==> !MarkerAt(line, j) by {
        forall j | 0 < j < |r| ensures !MarkerAt(line, j) {
          assert !MarkerAt(line[1..], j - 1);
        }
      }
      assert HasMarker(line) ==> HasMarker(line[1..]) by {
        if HasMarker(line) {
          var i :| 0 <= i < |line| && MarkerAt(line, i);
          assert MarkerAt(line[1..], i - 1);
        }
      }
      assert HasMarker(line) ==> MarkerAt(line, |r|) by {
        if HasMarker(line) {
          assert MarkerAt(line[1..], |rest|);
        }
      }
      assert !HasMarker(line) ==> !HasMarker(line[1..]) by {
        if HasMarker(line[1..]) {
          var i :| 0 <= i < |line| - 1 && MarkerAt(line[1..], i);
          assert MarkerAt(line, i + 1);
        }
      }
      assert !HasMarker(r) by {
        if HasMarker(r) {
          var i :| 0 <= i < |r| && MarkerAt(r, i);
          assert MarkerAt(line, i);
        }
      }
      r
  }

  function CutLines(lines: seq<string>): (cut: seq<string>)
  {
    seq(|lines|, k requires 0 <= k < |lines| => CutAtMarker(lines[k]))
  }

  /** The stripping at lines 23-25: only when the text holds a "//" is it split
      into lines, each cut before its first "//", and joined again. */
  function StripComments(text: string): (r: string)
    ensures !HasMarker(r)
    ensures !HasMarker(text) ==> r == text
  {
    if HasMarker(text) then
      var lines := CutLines(SplitLines(text));
      JoinNoMarker(lines);
      JoinLines(lines)
    else text
  }

  /** read_metadata_file: the parser (json.loads) is a parameter; a document
      it refuses is a JSONDecodeError. */
  function ReadMetadataFile(text: string, parse: string -> Option<Metadata>): (r: Result<Metadata>)
    ensures r.Ok? ==> parse(StripComments(text)) == Some(r.value)
    ensures r.Err? ==> r.error == JSONDecodeError && parse(StripComments(text)).None?
  {
    match parse(StripComments(text))
    case Some(m) => Ok(m)
    case None => Err(JSONDecodeError)
  }

  /** Joining lines that hold neither "//" nor a newline gives a text with no "//". */
  lemma {:induction false} JoinNoMarker(lines: seq<string>)
    requires |lines| >= 1
    requires forall k :: 0 <= k < |lines| ==> !HasMarker(lines[k]) && '\n' !in lines[k]
    ensures !HasMarker(JoinLines(lines))
  {
    if |lines| > 1 {
      JoinNoMarker(lines[1..]);
      var head, tail := lines[0] + "\n", JoinLines(lines[1..]);
      var s := head + tail;
      forall i | 0 <= i < |s| ensures !MarkerAt(s, i) {
        if i + 1 < |lines[0]| {
          assert !MarkerAt(lines[0], i);
        } else if i + 1 == |lines[0]| || i == |lines[0]| {
          assert s[|lines[0]|] == '\n';
        } else {
          assert !MarkerAt(tail, i - |head|);
        }
      }
    }
  }

  /** "\n".join(s.split("\n")) == s. */
  lemma {:induction false} JoinSplit(s: string)
    ensures JoinLines(SplitLines(s)) == s
  {
    if s != [] {
      JoinSplit(s[1..]);
      var rest := SplitLines(s[1..]);
      if s[0] != '\n' && |rest| > 1 {
        assert JoinLines(rest) == rest[0] + "\n" + JoinLines(rest[1..]);
        assert JoinLines(SplitLines(s)) == [s[0]] + rest[0] + "\n" + JoinLines(rest[1..]);
      }
    }
  }

  /** Splitting a newline-free prefix followed by more text. */
  lemma {:induction false} SplitPrefix(a: string, t: string)
    requires '\n' !in a
    ensures SplitLines(a + t) == [a + SplitLines(t)[0]] + SplitLines(t)[1..]
  {
    if a != [] {
      SplitPrefix(a[1..], t);
      assert (a + t)[1..] == a[1..] + t;
      assert [a[0]] + (a[1..] + SplitLines(t)[0]) == a + SplitLines(t)[0];
    } else {
      assert a + t == t;
      assert a + SplitLines(t)[0] == SplitLines(t)[0];
      assert SplitLines(t) == [SplitLines(t)[0]] + SplitLines(t)[1..];
    }
  }

  /** s.split("\n") undoes "\n".join(lines) when no line holds a newline. */
  lemma {:induction false} SplitJoin(lines: seq<string>)
    requires |lines| >= 1
    requires forall k :: 0 <= k < |lines| ==> '\n' !in lines[k]
    ensures SplitLines(JoinLines(lines)) == lines
  {
    if |lines| == 1 {
      SplitPrefix(lines[0], "");
      assert lines[0] + "" == lines[0];
    } else {
      SplitJoin(lines[1..]);
      var tail := JoinLines(lines[1..]);
      assert lines[0] + "\n" + tail == lines[0] + ("\n" + tail);
      SplitPrefix(lines[0], "\n" + tail);
      assert ("\n" + tail)[1..] == tail;
      assert SplitLines("\n" + tail) == [""] + lines[1..];
      assert lines[0] + "" == lines[0];
    }
  }

  /** The guard at line 23 is only a shortcut: stripping is always the
      line-by-line cut. */
  lemma StripIsLinewise(text: string)
    ensures StripComments(text) == JoinLines(CutLines(SplitLines(text)))
  {
    if !HasMarker(text) {
      var lines := SplitLines(text);
      JoinSplit(text);
      forall k | 0 <= k < |lines| ensures !HasMarker(lines[k]) {
        NoMarkerInLine(text, k);
      }
      assert CutLines(lines) == lines;
    }
  }

  /** A line of a marker-free text holds no marker. */
  lemma NoMarkerInLine(text: string, k: nat)
    requires k < |SplitLines(text)|
    requires !HasMarker(text)
    ensures !HasMarker(SplitLines(text)[k])
  {
    var lines := SplitLines(text);
    JoinSplit(text);
    if HasMarker(lines[k]) {
      var i :| 0 <= i < |lines[k]| && MarkerAt(lines[k], i);
      var before := JoinPrefix(lines, k);
      assert MarkerAt(text, before + i);
    }
  }

  /** Line k of a joined text starts at offset p. */
  lemma {:induction false} JoinPrefix(lines: seq<string>, k: nat) returns (p: nat)
    requires k < |lines|
    ensures p + |lines[k]| <= |JoinLines(lines)|
    ensures JoinLines(lines)[p..p + |lines[k]|] == lines[k]
  {
    if k == 0 {
      p := 0;
      if |lines| > 1 {
        assert JoinLines(lines)[..|lines[0]|] == lines[0];
      }
    } else {
      var q := JoinPrefix(lines[1..], k - 1);
      p := |lines[0]| + 1 + q;
      var tail := JoinLines(lines[1..]);
      assert JoinLines(lines) == (lines[0] + "\n") + tail;
      assert JoinLines(lines)[p..p + |lines[k]|] == tail[q..q + |lines[k]|];
    }
  }

  /** Stripping keeps the number of lines, and each line of the result is the
      matching input line cut before its first "//". */
  lemma StripKeepsLines(text: string)
    ensures |SplitLines(StripComments(text))| == |SplitLines(text)|
    ensures forall k :: 0 <= k < |SplitLines(text)| ==>
              SplitLines(StripComments(text))[k] == CutAtMarker(SplitLines(text)[k])
  {
    StripIsLinewise(text);
    var cut := CutLines(SplitLines(text));
    SplitJoin(cut);
  }

  /** Stripping twice is stripping once. */
  lemma StripIdempotent(text: string)
    ensures StripComments(StripComments(text)) == StripComments(text)
  {
  }

  /** The text of a comment never reaches the parser: two documents whose
      lines agree up to their first "//" strip to the same text, and so
      read to the same metadata. */
  lemma CommentsIgnored(lines: seq<string>, lines': seq<string>, parse: string -> Option<Metadata>)
    requires |lines| >= 1 && |lines| == |lines'|
    requires forall k :: 0 <= k < |lines| ==> '\n' !in lines[k] && '\n' !in lines'[k]
    requires forall k :: 0 <= k < |lines| ==> CutAtMarker(lines[k]) == CutAtMarker(lines'[k])
    ensures StripComments(JoinLines(lines)) == StripComments(JoinLines(lines'))
    ensures ReadMetadataFile(JoinLines(lines), parse) == ReadMetadataFile(JoinLines(lines'), parse)
  {
    StripIsLinewise(JoinLines(lines));
    StripIsLinewise(JoinLines(lines'));
    SplitJoin(lines);
    SplitJoin(lines');
    assert CutLines(lines) == CutLines(lines');
  }
}
