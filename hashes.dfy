/** The parsing half of `get_hashes`: the cracked-hashes output file is read
    line by line, each line loses its trailing CR/LF and is split on the
    separator, and every record becomes a dict from field names to values. */
module Hashes {
  import opened Common
  import opened PyValues

  /** Python's `"".join(parts)`. */
  function Concat(parts: seq<string>): string
  {
    if |parts| == 0 then "" else parts[0] + Concat(parts[1..])
  }

  /** Where the first line of `c` ends: just after its first '\n', or at the
      end of `c`. */
  function LineEnd(c: string): (n: nat)
    ensures n <= |c|
    ensures |c| > 0 ==> n > 0
    ensures forall j :: 0 <= j < n - 1 ==> c[j] != '\n'
    ensures n < |c| ==> c[n - 1] == '\n'
  {
    if |c| == 0 then 0
    else if c[0] == '\n' then 1
    else 1 + LineEnd(c[1..])
  }

  /** `file.readlines()` on a file opened in binary mode: the pieces after
      each '\n', the last one only when non-empty. */
  function ReadLines(c: string): seq<string>
    decreases |c|
  {
    if |c| == 0 then [] else [c[..LineEnd(c)]] + ReadLines(c[LineEnd(c)..])
  }

  /** The lines put back together give the file. */
  lemma {:induction false} ReadLinesConcat(c: string)
    ensures Concat(ReadLines(c)) == c
    decreases |c|
  {
    if |c| > 0 {
      var n := LineEnd(c);
      ReadLinesConcat(c[n..]);
      assert ReadLines(c) == [c[..n]] + ReadLines(c[n..]);
      assert c[..n] + c[n..] == c;
    }
  }

  /** A line as `readlines` returns it: not empty, no '\n' before its last
      character, and ending in '\n' unless it is the file's last line. */
  ghost predicate LineShaped(line: string, last: bool)
  {
    |line| > 0
    && (!last ==> line[|line| - 1] == '\n')
    && forall j :: 0 <= j < |line| - 1 ==> line[j] != '\n'
  }

  /** Every line is shaped as a line of the file. */
  lemma {:induction false} ReadLinesShape(c: string)
    ensures forall i :: 0 <= i < |ReadLines(c)| ==> LineShaped(ReadLines(c)[i], i == |ReadLines(c)| - 1)
    decreases |c|
  {
    if |c| > 0 {
      var n := LineEnd(c);
      var rest := ReadLines(c[n..]);
      ReadLinesShape(c[n..]);
      var lines := ReadLines(c);
      assert lines == [c[..n]] + rest;
      assert LineShaped(lines[0], 0 == |lines| - 1);
      forall i | 1 <= i < |lines|
        ensures LineShaped(lines[i], i == |lines| - 1)
      {
        assert lines[i] == rest[i - 1];
      }
    }
  }

  predicate IsLineBreak(ch: char)
  {
    ch == '\n' || ch == '\r'
  }

  /** `s.rstrip('\n\r')`. */
  function RStripLineBreaks(s: string): (r: string)
    ensures |r| <= |s| && r == s[..|r|]
    ensures |r| > 0 ==> !IsLineBreak(r[|r| - 1])
    ensures forall j :: |r| <= j < |s| ==> IsLineBreak(s[j])
  {
    if |s| > 0 && IsLineBreak(s[|s| - 1]) then RStripLineBreaks(s[..|s| - 1]) else s
  }

  /** `sep` occurs in `s` at position `p`. */
  predicate OccursAt(s: string, sep: string, p: int)
  {
    0 <= p && p + |sep| <= |s| && s[p..p + |sep|] == sep
  }

  /** The last position at or before `k` where `sep` occurs in `s`, if any. */
  function LastAtOrBefore(s: string, sep: string, k: int): (r: Option<nat>)
    ensures r.Some? ==> r.value <= k && OccursAt(s, sep, r.value)
    ensures r.Some? ==> forall p :: r.value < p <= k ==> !OccursAt(s, sep, p)
    ensures r.None? ==> forall p :: p <= k ==> !OccursAt(s, sep, p)
    decreases k + 1
  {
    if k < 0 then None
    else if OccursAt(s, sep, k) then Some(k)
    else LastAtOrBefore(s, sep, k - 1)
  }

  /** The last position where `sep` occurs in `s`, if any. */
  function LastIndex(s: string, sep: string): (r: Option<nat>)
    requires |sep| > 0
    ensures r.Some? ==> OccursAt(s, sep, r.value)
    ensures r.Some? ==> forall p :: r.value < p ==> !OccursAt(s, sep, p)
    ensures r.None? ==> forall p :: !OccursAt(s, sep, p)
  {
    LastAtOrBefore(s, sep, |s| - |sep|)
  }

  /** `s.rsplit(sep)` with no limit: cut at the last occurrence, then split
      what lies before it. */
  function RSplit(s: string, sep: string): (r: seq<string>)
    requires |sep| > 0
    ensures |r| >= 1
    decreases |s|
  {
    match LastIndex(s, sep)
    case None => [s]
    case Some(p) => RSplit(s[..p], sep) + [s[p + |sep|..]]
  }

  /** Joining the pieces with the separator gives the line back. */
  lemma {:induction false} RSplitJoin(s: string, sep: string)
    requires |sep| > 0
    ensures JoinWith(sep, RSplit(s, sep)) == s
    decreases |s|
  {
    match LastIndex(s, sep)
    case None =>
    case Some(p) =>
      RSplitJoin(s[..p], sep);
      var front := RSplit(s[..p], sep);
      var r := front + [s[p + |sep|..]];
      assert r[..|r| - 1] == front;
      assert s[..p] + sep + s[p + |sep|..] == s;
  }

  /** `sep` does not occur in `piece`. */
  ghost predicate FreeOf(piece: string, sep: string)
  {
    forall q :: !OccursAt(piece, sep, q)
  }

  /** What follows the last occurrence holds no further occurrence. */
  lemma TailAfterLastIsFree(s: string, sep: string, p: nat)
    requires |sep| > 0 && LastIndex(s, sep) == Some(p)
    ensures FreeOf(s[p + |sep|..], sep)
  {
    var last := s[p + |sep|..];
    forall q
      ensures OccursAt(last, sep, q) ==> OccursAt(s, sep, p + |sep| + q)
    {
      if OccursAt(last, sep, q) {
        assert s[p + |sep| + q..p + |sep| + q + |sep|] == last[q..q + |sep|];
      }
    }
  }

  /** No piece contains the separator. */
  lemma {:induction false} RSplitPiecesFree(s: string, sep: string)
    requires |sep| > 0
    ensures forall k :: 0 <= k < |RSplit(s, sep)| ==> FreeOf(RSplit(s, sep)[k], sep)
    decreases |s|
  {
    var last := LastIndex(s, sep);
    if last.Some? {
      var p := last.value;
      RSplitPiecesFree(s[..p], sep);
      TailAfterLastIsFree(s, sep, p);
      var front := RSplit(s[..p], sep);
      var r := front + [s[p + |sep|..]];
      assert r == RSplit(s, sep);
      forall k | 0 <= k < |r|
        ensures FreeOf(r[k], sep)
      {
        if k < |r| - 1 {
          assert r[k] == front[k];
        }
      }
    }
  }

  /** The whitespace of Python 2's `str.split()`. */
  predicate IsSpace(ch: char)
  {
    ch == ' ' || ch == '\t' || ch == '\n' || ch == '\r' || ch as int == 11 || ch as int == 12
  }

  /** The run of non-blank characters at the front of `s`. */
  function Word(s: string): (w: string)
    ensures |w| <= |s| && w == s[..|w|]
    ensures forall j :: 0 <= j < |w| ==> !IsSpace(w[j])
    ensures |w| < |s| ==> IsSpace(s[|w|])
  {
    if |s| == 0 || IsSpace(s[0]) then "" else [s[0]] + Word(s[1..])
  }

  /** `s.split()` with no separator, used by `rsplit(None)`: the maximal
      runs of non-blank characters. */
  function SplitWhitespace(s: string): seq<string>
    decreases |s|
  {
    if |s| == 0 then []
    else if IsSpace(s[0]) then SplitWhitespace(s[1..])
    else [Word(s)] + SplitWhitespace(s[|Word(s)|..])
  }

  /** `s` with its blanks removed. */
  function NonBlank(s: string): string
  {
    if |s| == 0 then "" else (if IsSpace(s[0]) then "" else [s[0]]) + NonBlank(s[1..])
  }

  lemma {:induction false} NonBlankAppend(a: string, b: string)
    ensures NonBlank(a + b) == NonBlank(a) + NonBlank(b)
    decreases |a|
  {
    if |a| > 0 {
      assert (a + b)[1..] == a[1..] + b;
      NonBlankAppend(a[1..], b);
    } else {
      assert a + b == b;
    }
  }

  /** The words are non-empty, hold no blank, and together are exactly the
      non-blank characters of the line. */
  lemma {:induction false} SplitWhitespaceSpec(s: string)
    ensures var r := SplitWhitespace(s);
      Concat(r) == NonBlank(s)
      && forall k :: 0 <= k < |r| ==> |r[k]| > 0 && forall j :: 0 <= j < |r[k]| ==> !IsSpace(r[k][j])
    decreases |s|
  {
    if |s| > 0 && IsSpace(s[0]) {
      SplitWhitespaceSpec(s[1..]);
    } else if |s| > 0 {
      var w := Word(s);
      SplitWhitespaceSpec(s[|w|..]);
      var r := SplitWhitespace(s);
      assert r[1..] == SplitWhitespace(s[|w|..]);
      assert s == w + s[|w|..];
      NonBlankAppend(w, s[|w|..]);
      assert NonBlank(w) == w by { NonBlankOfWord(w); }
      forall k | 0 <= k < |r|
        ensures |r[k]| > 0 && forall j :: 0 <= j < |r[k]| ==> !IsSpace(r[k][j])
      {
        if k > 0 {
          assert r[k] == r[1..][k - 1];
        }
      }
    }
  }

  lemma {:induction false} NonBlankOfWord(w: string)
    requires forall j :: 0 <= j < |w| ==> !IsSpace(w[j])
    ensures NonBlank(w) == w
    decreases |w|
  {
    if |w| > 0 {
      NonBlankOfWord(w[1..]);
    }
  }

  /** The field names `get_hashes` makes up: "f0", "f1", ... */
  function DefaultFields(n: nat): (fs: seq<string>)
    ensures |fs| == n
    ensures forall i :: 0 <= i < n ==> fs[i] == "f" + NatToString(i)
  {
    seq(n, i requires 0 <= i < n => "f" + NatToString(i))
  }

  /** The made-up names never collide. */
  lemma DefaultFieldsDistinct(n: nat)
    ensures forall i, j :: 0 <= i < j < n ==> DefaultFields(n)[i] != DefaultFields(n)[j]
  {
    forall i, j | 0 <= i < j < n
      ensures DefaultFields(n)[i] != DefaultFields(n)[j]
    {
      if DefaultFields(n)[i] == DefaultFields(n)[j] {
        assert NatToString(i) == DefaultFields(n)[i][1..] == DefaultFields(n)[j][1..] == NatToString(j);
        NatToStringInjective(i, j);
      }
    }
  }

  /** `dict(zip(fields, record))`: pairs up to the shorter of the two, a
      later pair overriding an earlier one with the same name. */
  function ZipDict(fields: seq<string>, record: seq<string>): map<string, string>
    decreases |fields|
  {
    var n := if |fields| < |record| then |fields| else |record|;
    if n == 0 then map[]
    else ZipDict(fields[..n - 1], record[..n - 1])[fields[n - 1] := record[n - 1]]
  }

  /** A name is in the dict iff it is among the paired names, and it maps
      to the value paired with its last occurrence. */
  lemma {:induction false} ZipDictLookup(fields: seq<string>, record: seq<string>, i: nat)
    requires i < |fields| && i < |record|
    requires forall j :: i < j < |fields| && j < |record| ==> fields[j] != fields[i]
    ensures fields[i] in ZipDict(fields, record)
    ensures ZipDict(fields, record)[fields[i]] == record[i]
    decreases |fields|
  {
    var n := if |fields| < |record| then |fields| else |record|;
    if i < n - 1 {
      ZipDictLookup(fields[..n - 1], record[..n - 1], i);
    }
  }

  lemma {:induction false} ZipDictKeys(fields: seq<string>, record: seq<string>)
    ensures forall k :: k in ZipDict(fields, record) <==>
      exists i :: 0 <= i < |fields| && i < |record| && fields[i] == k
    decreases |fields|
  {
    var n := if |fields| < |record| then |fields| else |record|;
    if n > 0 {
      var prefix := fields[..n - 1];
      ZipDictKeys(prefix, record[..n - 1]);
      forall k | k in ZipDict(fields, record)
        ensures exists i :: 0 <= i < |fields| && i < |record| && fields[i] == k
      {
        if k != fields[n - 1] {
          assert ZipDict(fields, record) == ZipDict(prefix, record[..n - 1])[fields[n - 1] := record[n - 1]];
          assert k in ZipDict(prefix, record[..n - 1]);
          var i :| 0 <= i < n - 1 && prefix[i] == k;
          assert fields[i] == k;
        }
      }
      forall k | exists i :: 0 <= i < |fields| && i < |record| && fields[i] == k
        ensures k in ZipDict(fields, record)
      {
        var i :| 0 <= i < |fields| && i < |record| && fields[i] == k;
        if i < n - 1 {
          assert fields[..n - 1][i] == k;
        }
      }
    }
  }

  /** With distinct names the dict has one entry per paired field. */
  lemma ZipDictDistinct(fields: seq<string>, record: seq<string>)
    requires forall i, j :: 0 <= i < j < |fields| ==> fields[i] != fields[j]
    ensures forall i :: 0 <= i < |fields| && i < |record| ==>
      fields[i] in ZipDict(fields, record) && ZipDict(fields, record)[fields[i]] == record[i]
  {
    forall i | 0 <= i < |fields| && i < |record|
      ensures fields[i] in ZipDict(fields, record) && ZipDict(fields, record)[fields[i]] == record[i]
    {
      ZipDictLookup(fields, record, i);
    }
  }

  /** What `get_hashes` gives back. */
  datatype HashesOutcome =
    | NoneReturned
    | Records(rows: seq<map<string, string>>)
    | RaisedValueError                     // `rsplit` with an empty separator
    | RaisedTypeError                      // `open` refusing the path, or `rsplit` a separator that is not a string

  /** How one line is cut, for a separator that is a non-empty string or None. */
  function SplitRecord(line: string, sep: PyValue): seq<string>
    requires sep.VNone? || (sep.VStr? && |sep.s| > 0)
  {
    if sep.VNone? then SplitWhitespace(RStripLineBreaks(line)) else RSplit(RStripLineBreaks(line), sep.s)
  }

  /** The names the dicts use: `fields` when it has one name per piece of
      the first record, the made-up ones otherwise. */
  function FieldsFor(fields: seq<string>, first: seq<string>): (fs: seq<string>)
    ensures |fs| == |first|
    ensures fs == fields || fs == DefaultFields(|first|)
  {
    if |fields| == 0 || |fields| != |first| then DefaultFields(|first|) else fields
  }

  /** A path `open` takes: a string without NUL. Anything else raises
      TypeError, which the `except IOError` does not catch. */
  predicate Openable(file: PyValue)
  {
    file.VStr? && '\0' !in file.s
  }

  /** `get_hashes(output_file_path, fields, sep)`. `outfile` and `separator`
      are the wrapper's attributes; `read` is the file system, None where
      opening or reading a path raises IOError. */
  function GetHashes(path: PyValue, outfile: PyValue, fields: seq<string>, sep: PyValue,
                     separator: PyValue, read: string -> Option<string>): HashesOutcome
  {
    if path.VNone? && outfile.VNone? then NoneReturned
    else
      var file := if path.VNone? then outfile else path;
      var s := if sep.VNone? then separator else sep;
      if !Openable(file) then RaisedTypeError
      else
        match read(file.s)
        case None => Records([map[]])
        case Some(content) =>
          var lines := ReadLines(content);
          if |lines| == 0 then Records([map[]])
          else if s.VStr? && |s.s| == 0 then RaisedValueError
          else if !s.VStr? && !s.VNone? then RaisedTypeError
          else
            var results := seq(|lines|, i requires 0 <= i < |lines| => SplitRecord(lines[i], s));
            var names := FieldsFor(fields, results[0]);
            Records(seq(|results|, i requires 0 <= i < |results| => ZipDict(names, results[i])))
  }

  /** With a non-empty string separator, each line of a readable, non-empty
      file gives one dict. When the caller's field names do not fit the
      first record, that record maps "f0", "f1", ... to its pieces in order,
      and those pieces joined with the separator give the line without its
      CR/LF. */
  lemma GetHashesDefaultNames(path: PyValue, outfile: PyValue, fields: seq<string>, sep: string,
                              read: string -> Option<string>)
    requires Openable(path) && |sep| > 0
    requires read(path.s).Some? && |ReadLines(read(path.s).value)| > 0
    ensures var line := ReadLines(read(path.s).value)[0];
      var pieces := RSplit(RStripLineBreaks(line), sep);
      var out := GetHashes(path, outfile, fields, VStr(sep), VNone, read);
      out.Records? && |out.rows| == |ReadLines(read(path.s).value)|
      && JoinWith(sep, pieces) == RStripLineBreaks(line)
      && (|fields| != |pieces| ==>
            forall i :: 0 <= i < |pieces| ==>
              "f" + NatToString(i) in out.rows[0] && out.rows[0]["f" + NatToString(i)] == pieces[i])
  {
    var line := ReadLines(read(path.s).value)[0];
    var pieces := RSplit(RStripLineBreaks(line), sep);
    RSplitJoin(RStripLineBreaks(line), sep);
    assert SplitRecord(line, VStr(sep)) == pieces;
    DefaultFieldsDistinct(|pieces|);
    ZipDictDistinct(DefaultFields(|pieces|), pieces);
  }

  /** Field names that fit the first record are used as given: distinct
      names map to that record's pieces in order. */
  lemma GetHashesGivenNames(path: PyValue, outfile: PyValue, fields: seq<string>, sep: string,
                            read: string -> Option<string>)
    requires Openable(path) && |sep| > 0
    requires read(path.s).Some? && |ReadLines(read(path.s).value)| > 0
    requires |fields| == |RSplit(RStripLineBreaks(ReadLines(read(path.s).value)[0]), sep)| > 0
    requires forall i, j :: 0 <= i < j < |fields| ==> fields[i] != fields[j]
    ensures var pieces := RSplit(RStripLineBreaks(ReadLines(read(path.s).value)[0]), sep);
      var out := GetHashes(path, outfile, fields, VStr(sep), VNone, read);
      out.Records? && forall i :: 0 <= i < |fields| ==> fields[i] in out.rows[0] && out.rows[0][fields[i]] == pieces[i]
  {
    var line := ReadLines(read(path.s).value)[0];
    var pieces := RSplit(RStripLineBreaks(line), sep);
    assert SplitRecord(line, VStr(sep)) == pieces;
    ZipDictDistinct(fields, pieces);
  }

  /** No path and no `outfile`: None. A path `open` refuses: TypeError. An
      unreadable or empty file: `[{}]`, whatever the separator. */
  lemma GetHashesEdgeCases(path: PyValue, outfile: PyValue, fields: seq<string>, sep: PyValue,
                           separator: PyValue, read: string -> Option<string>)
    ensures path.VNone? && outfile.VNone? ==>
      GetHashes(path, outfile, fields, sep, separator, read) == NoneReturned
    ensures !path.VNone? && !Openable(path) ==>
      GetHashes(path, outfile, fields, sep, separator, read) == RaisedTypeError
    ensures Openable(path) && (read(path.s).None? || read(path.s) == Some("")) ==>
      GetHashes(path, outfile, fields, sep, separator, read) == Records([map[]])
  {
  }

  /** The separator falls back to the wrapper's `separator` attribute; an
      empty one raises ValueError as soon as there is a line to split. */
  lemma GetHashesEmptySeparator(path: PyValue, outfile: PyValue, fields: seq<string>, separator: PyValue,
                                read: string -> Option<string>)
    requires Openable(path) && read(path.s).Some? && read(path.s).value != ""
    ensures separator == VStr("") ==>
      GetHashes(path, outfile, fields, VNone, separator, read) == RaisedValueError
    ensures GetHashes(path, outfile, fields, VNone, separator, read)
      == GetHashes(path, outfile, fields, separator, VNone, read)
  {
    var c := read(path.s).value;
    assert ReadLines(c) != [];
  }
}
