/** sorted(raw_data_dir.glob("*.csv")): the input files in the order of
    their names, compared as Python compares strings (by code point). */
module FileOrder {
  import opened Frames

  /** The file's name within the input directory. */
  function FileName(f: CsvFile): string
  {
    f.stem + ".csv"
  }

  /** Python's a < b on str: lexicographic by code point, a proper prefix first. */
  predicate Less(a: string, b: string)
    decreases |a|
  {
    if a == [] then b != []
    else b != [] && (a[0] < b[0] || (a[0] == b[0] && Less(a[1..], b[1..])))
  }

  lemma {:induction false} LessIrreflexive(a: string)
    ensures !Less(a, a)
  {
    if a != [] {
      LessIrreflexive(a[1..]);
    }
  }

  lemma {:induction false} LessTransitive(a: string, b: string, c: string)
    requires Less(a, b) && Less(b, c)
    ensures Less(a, c)
  {
    if a != [] && a[0] == b[0] && b[0] == c[0] {
      LessTransitive(a[1..], b[1..], c[1..]);
    }
  }

  lemma {:induction false} LessTotal(a: string, b: string)
    requires a != b
    ensures Less(a, b) || Less(b, a)
  {
    if a != [] && b != [] && a[0] == b[0] {
      assert a == [a[0]] + a[1..] && b == [b[0]] + b[1..];
      LessTotal(a[1..], b[1..]);
    }
  }

  predicate SortedByName(s: seq<CsvFile>)
  {
    forall i, j :: 0 <= i < j < |s| ==> Less(FileName(s[i]), FileName(s[j]))
  }

  /** No two files of a directory listing share a stem. */
  predicate DistinctStems(s: seq<CsvFile>)
  {
    forall i, j :: 0 <= i < j < |s| ==> s[i].stem != s[j].stem
  }

  /** Inserts f before the first file whose name is greater. */
  function Insert(f: CsvFile, s: seq<CsvFile>): (r: seq<CsvFile>)
    ensures multiset(r) == multiset(s) + multiset{f}
  {
    if s == [] then [f]
    else if Less(FileName(f), FileName(s[0])) then [f] + s
    else
      assert s == [s[0]] + s[1..];
      [s[0]] + Insert(f, s[1..])
  }

  /** sorted() of the listing, as an insertion sort. */
  function SortByName(fs: seq<CsvFile>): (r: seq<CsvFile>)
    ensures multiset(r) == multiset(fs)
    ensures forall f | f in r :: f in fs
  {
    if fs == [] then []
    else
      assert fs == [fs[0]] + fs[1..];
      var r := Insert(fs[0], SortByName(fs[1..]));
      assert forall f | f in r :: f in multiset(r);
      r
  }

  lemma FileNameInjective(f: CsvFile, g: CsvFile)
    requires f.stem != g.stem
    ensures FileName(f) != FileName(g)
  {
    if |f.stem| == |g.stem| {
      var k :| 0 <= k < |f.stem| && f.stem[k] != g.stem[k];
      assert FileName(f)[k] != FileName(g)[k];
    } else {
      assert |FileName(f)| != |FileName(g)|;
    }
  }

  /** A name below every name of s and below f's stays below every name
      after the insertion. */
  lemma {:induction false} InsertBelow(x: string, f: CsvFile, s: seq<CsvFile>)
    requires Less(x, FileName(f))
    requires forall j :: 0 <= j < |s| ==> Less(x, FileName(s[j]))
    ensures forall j :: 0 <= j < |Insert(f, s)| ==> Less(x, FileName(Insert(f, s)[j]))
  {
    if s != [] && !Less(FileName(f), FileName(s[0])) {
      InsertBelow(x, f, s[1..]);
    }
  }

  /** A name below a sorted list's names extends it to a sorted list. */
  lemma ConsSorted(f: CsvFile, s: seq<CsvFile>)
    requires SortedByName(s)
    requires forall j :: 0 <= j < |s| ==> Less(FileName(f), FileName(s[j]))
    ensures SortedByName([f] + s)
  {
    var r := [f] + s;
    forall i, j | 0 <= i < j < |r|
      ensures Less(FileName(r[i]), FileName(r[j]))
    {
      if i > 0 {
        assert r[i] == s[i - 1] && r[j] == s[j - 1];
      }
    }
  }

  lemma {:induction false} InsertSorted(f: CsvFile, s: seq<CsvFile>)
    requires SortedByName(s)
    requires forall k :: 0 <= k < |s| ==> FileName(s[k]) != FileName(f)
    ensures SortedByName(Insert(f, s))
  {
    if s != [] {
      if Less(FileName(f), FileName(s[0])) {
        forall j | 0 <= j < |s| ensures Less(FileName(f), FileName(s[j])) {
          if j > 0 {
            LessTransitive(FileName(f), FileName(s[0]), FileName(s[j]));
          }
        }
        ConsSorted(f, s);
      } else {
        LessTotal(FileName(f), FileName(s[0]));
        var tail := s[1..];
        assert SortedByName(tail) by {
          forall i, j | 0 <= i < j < |tail| ensures Less(FileName(tail[i]), FileName(tail[j])) {
            assert tail[i] == s[i + 1] && tail[j] == s[j + 1];
          }
        }
        InsertSorted(f, tail);
        assert forall j :: 0 <= j < |tail| ==> Less(FileName(s[0]), FileName(tail[j])) by {
          forall j | 0 <= j < |tail| ensures Less(FileName(s[0]), FileName(tail[j])) {
            assert tail[j] == s[j + 1];
          }
        }
        InsertBelow(FileName(s[0]), f, tail);
        ConsSorted(s[0], Insert(f, tail));
      }
    }
  }

  /** sorted() puts the listing in strictly increasing name order and loses
      no file. */
  lemma {:induction false} SortByNameSorted(fs: seq<CsvFile>)
    requires DistinctStems(fs)
    ensures SortedByName(SortByName(fs))
    ensures multiset(SortByName(fs)) == multiset(fs) && |SortByName(fs)| == |fs|
  {
    if fs != [] {
      var rest := SortByName(fs[1..]);
      SortByNameSorted(fs[1..]);
      forall k | 0 <= k < |rest| ensures FileName(rest[k]) != FileName(fs[0]) {
        assert rest[k] in multiset(fs[1..]);
        var m :| 0 <= m < |fs[1..]| && fs[1..][m] == rest[k];
        FileNameInjective(rest[k], fs[0]);
      }
      InsertSorted(fs[0], rest);
    }
    assert |multiset(SortByName(fs))| == |multiset(fs)|;
  }
}
