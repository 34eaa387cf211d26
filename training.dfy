/**
 * The data-handling steps of training that do not involve the learner: cutting the data
 * rows out of a Weka ARFF (Attribute-Relation File Format) text, turning the label -1 into
 * 0, and making the list of feature names as long as the list of importances.
 */
module Training {
  import opened Text

  /** A header line opening the data section: it starts with `@data` in any letter case,
      compared character by character (`HeaderIsLowerPrefix`). */
  predicate IsDataHeader(line: string) {
    && 5 <= |line|
    && LowerChar(line[0]) == '@'
    && LowerChar(line[1]) == 'd'
    && LowerChar(line[2]) == 'a'
    && LowerChar(line[3]) == 't'
    && LowerChar(line[4]) == 'a'
  }

  /** The header test is `line.lower().startswith('@data')`. */
  lemma HeaderIsLowerPrefix(line: string)
    ensures IsDataHeader(line) <==> StartsWith(ToLower(line), "@data")
  {
    var lower := ToLower(line);
    if 5 <= |line| {
      assert lower[..5] == [lower[0], lower[1], lower[2], lower[3], lower[4]];
    }
  }

  /** A line worth keeping: not a header, and not made of whitespace only. */
  predicate IsDataRow(line: string) {
    !IsDataHeader(line) && !AllSpace(line)
  }

  /** The position of the first header, or `|lines|` when there is none. */
  function FirstHeader(lines: seq<string>): (i: nat)
    ensures i <= |lines|
    ensures i < |lines| ==> IsDataHeader(lines[i])
    ensures forall j :: 0 <= j < i ==> !IsDataHeader(lines[j])
  {
    if lines == [] then 0 else if IsDataHeader(lines[0]) then 0 else 1 + FirstHeader(lines[1..])
  }

  /** The data rows among `lines`, in order. */
  function Rows(lines: seq<string>): (rows: seq<string>)
    ensures forall k :: 0 <= k < |rows| ==> IsDataRow(rows[k])
    ensures |rows| <= |lines|
  {
    if lines == [] then []
    else
      var n := |lines| - 1;
      Rows(lines[..n]) + (if IsDataRow(lines[n]) then [lines[n]] else [])
  }

  /** The positions of the data rows among `lines`. */
  function DataRowIndices(lines: seq<string>): set<nat>
  {
    set i: nat | i < |lines| && IsDataRow(lines[i])
  }

  /** One more line adds its position when it is a data row. */
  lemma DataRowIndicesSnoc(lines: seq<string>)
    requires lines != []
    ensures var n := |lines| - 1;
      DataRowIndices(lines) == DataRowIndices(lines[..n]) + (if IsDataRow(lines[n]) then {n} else {})
  {
    var n := |lines| - 1;
    forall i: nat | i < n
      ensures lines[..n][i] == lines[i]
    {
    }
  }

  /** Every data row is kept: the filter keeps as many lines as there are data rows. */
  lemma {:induction false} RowsCount(lines: seq<string>)
    ensures |Rows(lines)| == |DataRowIndices(lines)|
    decreases |lines|
  {
    if lines != [] {
      var n := |lines| - 1;
      RowsCount(lines[..n]);
      DataRowIndicesSnoc(lines);
      assert n !in DataRowIndices(lines[..n]);
    }
  }

  /** Every data row among `lines` is among the kept rows. */
  lemma {:induction false} RowsMember(lines: seq<string>, j: nat)
    requires j < |lines| && IsDataRow(lines[j])
    ensures lines[j] in Rows(lines)
    decreases |lines|
  {
    var n := |lines| - 1;
    if j < n {
      RowsMember(lines[..n], j);
      assert lines[..n][j] == lines[j];
    }
  }

  /** The rows of the data section: the data rows after the first header, none when there is
      no header. */
  function DataSection(lines: seq<string>): seq<string>
  {
    var h := FirstHeader(lines);
    if h == |lines| then [] else Rows(lines[h + 1..])
  }

  /** The text is cut into lines at `\n`, and the lines go through the loop. */
  method ExtractDataLines(text: string) returns (dataLines: seq<string>)
    ensures dataLines == DataSection(SplitOn(text, '\n'))
  {
    var lines := SplitOn(text, '\n');
    dataLines := DataLines(lines);
  }

  /** The loop over the lines with its `data_start` flag. */
  method DataLines(lines: seq<string>) returns (dataLines: seq<string>)
    ensures dataLines == DataSection(lines)
  {
    ghost var h := FirstHeader(lines);
    var dataStart := false;
    dataLines := [];
    var i := 0;
    while i < |lines|
      invariant 0 <= i <= |lines|
      invariant dataStart <==> h < i
      invariant !dataStart ==> dataLines == []
      invariant dataStart ==> dataLines == Rows(lines[h + 1..i])
    {
      var line := lines[i];
      if dataStart {
        RowsExtend(lines, h + 1, i);
      } else {
        FirstHeaderAt(lines, i);
      }
      if IsDataHeader(line) {
        dataStart := true;
        i := i + 1;
        continue;
      }
      KeptLine(line);
      if dataStart && Strip(line) != "" {
        dataLines := dataLines + [line];
      }
      i := i + 1;
    }
    if dataStart {
      assert lines[h + 1..i] == lines[h + 1..];
      assert dataLines == Rows(lines[h + 1..]);
    }
  }

  /** Past the header test, `line.strip()` is non-empty exactly for a data row. */
  lemma KeptLine(line: string)
    requires !IsDataHeader(line)
    ensures Strip(line) != "" <==> IsDataRow(line)
  {
    StripEmpty(line);
  }

  /** Before the first header has been seen, line `i` is a header exactly when it is the
      first one. */
  lemma FirstHeaderAt(lines: seq<string>, i: nat)
    requires i < |lines| && i <= FirstHeader(lines)
    ensures IsDataHeader(lines[i]) <==> FirstHeader(lines) == i
  {
  }

  /** One more line extends the data rows by that line when it is a data row. */
  lemma RowsExtend(lines: seq<string>, from: nat, i: nat)
    requires from <= i < |lines|
    ensures Rows(lines[from..i + 1]) == Rows(lines[from..i]) + (if IsDataRow(lines[i]) then [lines[i]] else [])
  {
    assert lines[from..i + 1][..i - from] == lines[from..i];
  }

  /** Without a header nothing is extracted. */
  lemma NoHeaderNoRows(lines: seq<string>)
    requires forall j :: 0 <= j < |lines| ==> !IsDataHeader(lines[j])
    ensures DataSection(lines) == []
  {
  }

  /** `a` is `b` with some elements left out, the rest kept in order. */
  predicate IsSubsequence(a: seq<string>, b: seq<string>)
    decreases |b|
  {
    if a == [] then true
    else if b == [] then false
    else if a[|a| - 1] == b[|b| - 1] then IsSubsequence(a[..|a| - 1], b[..|b| - 1])
    else IsSubsequence(a, b[..|b| - 1])
  }

  lemma {:induction false} RowsSubsequence(lines: seq<string>)
    ensures IsSubsequence(Rows(lines), lines)
    decreases |lines|
  {
    if lines != [] {
      var n := |lines| - 1;
      RowsSubsequence(lines[..n]);
      var rows := Rows(lines);
      assert lines[..|lines| - 1] == lines[..n];
      if IsDataRow(lines[n]) {
        assert rows[..|rows| - 1] == Rows(lines[..n]);
      } else {
        assert rows == Rows(lines[..n]);
        if rows != [] {
          assert IsDataRow(rows[|rows| - 1]);
          assert rows[|rows| - 1] != lines[|lines| - 1];
        }
      }
    }
  }

  /** A subsequence of a suffix is a subsequence of the whole. */
  lemma {:induction false} SubsequenceOfLonger(a: seq<string>, prefix: seq<string>, b: seq<string>)
    requires IsSubsequence(a, b)
    ensures IsSubsequence(a, prefix + b)
    decreases |b|
  {
    if a != [] {
      if b == [] {
        assert false;
      }
      var c := prefix + b;
      assert c[..|c| - 1] == prefix + b[..|b| - 1];
      if a[|a| - 1] == b[|b| - 1] {
        SubsequenceOfLonger(a[..|a| - 1], prefix, b[..|b| - 1]);
      } else {
        SubsequenceOfLonger(a, prefix, b[..|b| - 1]);
      }
    }
  }

  /** A data row after the first header is extracted. */
  lemma DataSectionMember(lines: seq<string>, j: nat)
    requires FirstHeader(lines) < j < |lines| && IsDataRow(lines[j])
    ensures lines[j] in DataSection(lines)
  {
    RowsMemberFrom(lines, FirstHeader(lines) + 1, j);
  }

  /** A data row at or after `from` is among the kept rows of `lines[from..]`. */
  lemma RowsMemberFrom(lines: seq<string>, from: nat, j: nat)
    requires from <= j < |lines| && IsDataRow(lines[j])
    ensures lines[j] in Rows(lines[from..])
  {
    var tail := lines[from..];
    assert tail[j - from] == lines[j];
    RowsMember(tail, j - from);
  }

  /** Every data row after the first header is extracted. */
  lemma DataSectionComplete(lines: seq<string>)
    ensures forall j :: FirstHeader(lines) < j < |lines| && IsDataRow(lines[j]) ==> lines[j] in DataSection(lines)
  {
    forall j | FirstHeader(lines) < j < |lines| && IsDataRow(lines[j])
      ensures lines[j] in DataSection(lines)
    {
      DataSectionMember(lines, j);
    }
  }

  /** The extracted lines are input lines, in input order; none of them is a header (not even
      a later `@data` line) and each has non-whitespace content. */
  lemma DataSectionShape(lines: seq<string>)
    ensures IsSubsequence(DataSection(lines), lines)
    ensures forall k :: 0 <= k < |DataSection(lines)| ==>
              !IsDataHeader(DataSection(lines)[k]) && !AllSpace(DataSection(lines)[k])
    ensures forall j :: FirstHeader(lines) < j < |lines| && IsDataRow(lines[j]) ==> lines[j] in DataSection(lines)
  {
    DataSectionComplete(lines);
    var h := FirstHeader(lines);
    if h < |lines| {
      RowsSubsequence(lines[h + 1..]);
      SubsequenceOfLonger(Rows(lines[h + 1..]), lines[..h + 1], lines[h + 1..]);
      assert lines[..h + 1] + lines[h + 1..] == lines;
    }
  }

  /** `df[last] = df[last].replace(-1, 0)` over a table of rows: in the last column -1
      becomes 0; everything else stays. */
  function RemapLabels(table: seq<seq<int>>): (r: seq<seq<int>>)
    ensures |r| == |table|
    ensures forall i :: 0 <= i < |r| ==> |r[i]| == |table[i]|
    ensures forall i, j :: 0 <= i < |r| && 0 <= j < |r[i]| - 1 ==> r[i][j] == table[i][j]
    ensures forall i :: 0 <= i < |r| && r[i] != [] ==>
              r[i][|r[i]| - 1] == (if table[i][|table[i]| - 1] == -1 then 0 else table[i][|table[i]| - 1])
  {
    seq(|table|, i requires 0 <= i < |table| => RemapRow(table[i]))
  }

  function RemapRow(row: seq<int>): seq<int>
  {
    if row == [] then row
    else if row[|row| - 1] == -1 then row[|row| - 1 := 0]
    else row
  }

  /** A table whose labels are -1 and 1 has labels 0 and 1 afterwards. */
  lemma RemapLabelsBinary(table: seq<seq<int>>)
    requires forall i :: 0 <= i < |table| ==> table[i] != [] && table[i][|table[i]| - 1] in {-1, 1}
    ensures forall i :: 0 <= i < |table| ==> RemapLabels(table)[i][|table[i]| - 1] in {0, 1}
  {
  }

  /** The name given to the `i`-th feature when the list of names is too short. */
  function PaddingName(i: nat): string
  {
    "Feature " + Decimal(i)
  }

  /** Padding names differ from one another. */
  lemma PaddingNamesDistinct(i: nat, j: nat)
    requires i != j
    ensures PaddingName(i) != PaddingName(j)
  {
    if PaddingName(i) == PaddingName(j) {
      assert Decimal(i) == PaddingName(i)[8..];
      assert Decimal(j) == PaddingName(j)[8..];
      DecimalInjective(i, j);
    }
  }

  /** The names are cut to the number of importances, or extended with `Feature i` for each
      missing position `i`. */
  method ReconcileNames(names: seq<string>, importanceCount: nat) returns (featureNames: seq<string>)
    ensures |featureNames| == importanceCount
    ensures importanceCount <= |names| ==> featureNames == names[..importanceCount]
    ensures |names| <= importanceCount ==> featureNames[..|names|] == names
    ensures forall i :: |names| <= i < importanceCount ==> featureNames[i] == PaddingName(i)
  {
    featureNames := names;
    if |featureNames| > importanceCount {
      featureNames := featureNames[..importanceCount];
    } else if |featureNames| < importanceCount {
      var i := |featureNames|;
      while i < importanceCount
        invariant |names| <= i <= importanceCount
        invariant |featureNames| == i
        invariant featureNames[..|names|] == names
        invariant forall k :: |names| <= k < i ==> featureNames[k] == PaddingName(k)
      {
        featureNames := featureNames + [PaddingName(i)];
        i := i + 1;
      }
    }
  }
}
