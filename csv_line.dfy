/** Splitting a CSV line at commas and joining fields back into a line (no quoting), and the
    extra column the processor appends to every row. */
module CsvLines {
  import opened Wrappers

  /** The fields of a line: the text between consecutive commas, always at least one field. */
  function Split(line: string): (fields: seq<string>)
    ensures |fields| >= 1
  {
    if line == [] then [""]
    else if line[0] == ',' then [""] + Split(line[1..])
    else PrependChar(line[0], Split(line[1..]))
  }

  /** Put c in front of the first field. */
  function PrependChar(c: char, fields: seq<string>): (r: seq<string>)
    requires |fields| >= 1
    ensures |r| == |fields|
  {
    [[c] + fields[0]] + fields[1..]
  }

  /** Put a partly read field in front of the first field: the string-at-a-time form of
      `PrependChar`, in which the loop of `ExtractValuesFromLine` states what is still owed. */
  function PrependField(cur: string, fields: seq<string>): (r: seq<string>)
    requires |fields| >= 1
    ensures |r| == |fields|
  {
    [cur + fields[0]] + fields[1..]
  }

  /** The fields separated by single commas, with no comma before the first or after the last. */
  function Join(values: seq<string>): string
  {
    if |values| == 0 then ""
    else if |values| == 1 then values[0]
    else values[0] + "," + Join(values[1..])
  }

  function CountCommas(s: string): nat
  {
    if s == [] then 0 else (if s[0] == ',' then 1 else 0) + CountCommas(s[1..])
  }

  predicate NoComma(s: string)
  {
    forall i :: 0 <= i < |s| ==> s[i] != ','
  }

  // ----- Properties of the split -----

  /** There is one field more than there are commas, and no field contains a comma. */
  lemma {:induction false} SplitShape(line: string)
    ensures |Split(line)| == CountCommas(line) + 1
    ensures forall k :: 0 <= k < |Split(line)| ==> NoComma(Split(line)[k])
  {
    if line != [] {
      SplitShape(line[1..]);
      var rest := Split(line[1..]);
      if line[0] != ',' {
        assert NoComma([line[0]] + rest[0]);
        assert forall k :: 1 <= k < |rest| ==> PrependChar(line[0], rest)[k] == rest[k];
      } else {
        assert forall k :: 1 <= k < |rest| + 1 ==> ([""] + rest)[k] == rest[k - 1];
      }
    }
  }

  /** An empty line has exactly one, empty, field. */
  lemma EmptyLineOneField()
    ensures Split("") == [""]
  {
  }

  /** Joining after a first letter is putting that letter in front of the join. */
  lemma JoinPrependChar(c: char, fields: seq<string>)
    requires |fields| >= 1
    ensures Join(PrependChar(c, fields)) == [c] + Join(fields)
  {
    var p := PrependChar(c, fields);
    if |fields| > 1 {
      assert p[0] == [c] + fields[0] && p[1..] == fields[1..];
      calc {
        Join(p);
        p[0] + "," + Join(p[1..]);
        ([c] + fields[0]) + "," + Join(fields[1..]);
        { ConcatAssoc([c], fields[0], ",", Join(fields[1..])); }
        [c] + (fields[0] + "," + Join(fields[1..]));
        [c] + Join(fields);
      }
    }
  }

  lemma ConcatAssoc(a: string, b: string, c: string, d: string)
    ensures (a + b) + c + d == a + (b + c + d)
  {
    var l, r := (a + b) + c + d, a + (b + c + d);
    assert |l| == |r|;
    forall i | 0 <= i < |l|
      ensures l[i] == r[i]
    {
    }
  }

  /** An empty partial field changes nothing. */
  lemma PrependNothing(fields: seq<string>)
    requires |fields| >= 1
    ensures PrependField("", fields) == fields
  {
    assert "" + fields[0] == fields[0];
  }

  /** Reading one more letter of the current field. */
  lemma PrependCharField(cur: string, c: char, fields: seq<string>)
    requires |fields| >= 1
    ensures PrependField(cur, PrependChar(c, fields)) == PrependField(cur + [c], fields)
  {
    assert cur + ([c] + fields[0]) == (cur + [c]) + fields[0];
  }

  /** Splitting loses nothing: joining the fields gives the line back. */
  lemma {:induction false} JoinSplit(line: string)
    ensures Join(Split(line)) == line
  {
    if line != [] {
      JoinSplit(line[1..]);
      if line[0] == ',' {
        var rest := Split(line[1..]);
        assert ([""] + rest)[1..] == rest;
        assert line == [','] + line[1..];
      } else {
        JoinPrependChar(line[0], Split(line[1..]));
        assert line == [line[0]] + line[1..];
      }
    }
  }

  /** A text with no comma is a single field. */
  lemma {:induction false} SplitNoComma(s: string)
    requires NoComma(s)
    ensures Split(s) == [s]
  {
    if s != [] {
      SplitNoComma(s[1..]);
      assert [s[0]] + s[1..] == s;
    }
  }

  /** A comma-free field followed by a comma splits off as the first field. */
  lemma {:induction false} SplitConcat(a: string, b: string)
    requires NoComma(a)
    ensures Split(a + "," + b) == [a] + Split(b)
  {
    if a == [] {
      assert a + "," + b == [','] + b;
      assert ([','] + b)[1..] == b;
    } else {
      var t := a + "," + b;
      assert t[1..] == a[1..] + "," + b;
      SplitConcat(a[1..], b);
      assert [a[0]] + a[1..] == a;
    }
  }

  /** Joining loses nothing either, for at least one field and fields without commas. */
  lemma {:induction false} SplitJoin(values: seq<string>)
    requires |values| >= 1
    requires forall k :: 0 <= k < |values| ==> NoComma(values[k])
    ensures Split(Join(values)) == values
  {
    if |values| == 1 {
      SplitNoComma(values[0]);
    } else {
      SplitJoin(values[1..]);
      SplitConcat(values[0], Join(values[1..]));
      assert [values[0]] + values[1..] == values;
    }
  }

  /** Joining one more value appends a comma and the value. */
  lemma {:induction false} JoinSnoc(values: seq<string>, v: string)
    ensures Join(values + [v]) == if values == [] then v else Join(values) + "," + v
  {
    if |values| > 1 {
      assert (values + [v])[1..] == values[1..] + [v];
      JoinSnoc(values[1..], v);
    } else if |values| == 1 {
      assert (values + [v])[1..] == [v];
    }
  }

  // ----- The two loops -----

  /** `ExtractValuesFromLine`: scan the line once, closing a field at every comma and once at the end. */
  method ExtractValuesFromLine(line: string) returns (output: seq<string>)
    ensures output == Split(line)
  {
    output := [];
    var current := "";
    var i := 0;
    PrependNothing(Split(line));
    assert line[0..] == line;
    while i < |line|
      invariant 0 <= i <= |line|
      invariant output + PrependField(current, Split(line[i..])) == Split(line)
    {
      var c := line[i];
      var rest := Split(line[i + 1..]);
      assert line[i..][1..] == line[i + 1..];
      PrependNothing(rest);
      if c == ',' {
        assert Split(line[i..]) == [""] + rest;
        assert current + "" == current && ([""] + rest)[1..] == rest;
        assert PrependField(current, [""] + rest) == [current] + rest;
        output := output + [current];
        current := "";
      } else {
        assert Split(line[i..]) == PrependChar(c, rest);
        PrependCharField(current, c, rest);
        current := current + [c];
      }
      i := i + 1;
    }
    assert line[i..] == [] && current + "" == current;
    assert PrependField(current, Split(line[i..])) == [current];
    output := output + [current];
  }

  /** `JoinValuestoFormLine`: a comma before every value but the first. */
  method JoinValuesToFormLine(values: seq<string>) returns (output: string)
    ensures output == Join(values)
  {
    output := "";
    var i := 0;
    while i < |values|
      invariant 0 <= i <= |values|
      invariant output == Join(values[..i])
    {
      JoinSnoc(values[..i], values[i]);
      assert values[..i + 1] == values[..i] + [values[i]];
      if i > 0 {
        output := output + ",";
      }
      output := output + values[i];
      i := i + 1;
    }
    assert values[..i] == values;
  }

  // ----- The extra column -----

  /** The title of the column the processor adds. */
  const ROLLING_COLUMN: string := "Rolling Ratio"

  /** An output row: the fields of the input row and one more field, joined again. */
  function AppendColumn(line: string, cell: string): (out: string)
    ensures out == line + "," + cell
  {
    JoinSnoc(Split(line), cell);
    JoinSplit(line);
    Join(Split(line) + [cell])
  }

  /** A data row gains the formatted mean, or an empty field while the window is not yet full. */
  function OutputRow(line: string, meanText: Option<string>): (out: string)
    ensures out == line + "," + (if meanText.Some? then meanText.value else "")
  {
    AppendColumn(line, if meanText.Some? then meanText.value else "")
  }

  /** The appended row has exactly one field more than the input row, when the cell has no comma. */
  lemma AppendColumnAddsOneField(line: string, cell: string)
    requires NoComma(cell)
    ensures Split(AppendColumn(line, cell)) == Split(line) + [cell]
  {
    SplitShape(line);
    SplitJoin(Split(line) + [cell]);
  }

  /** The header row with the column title appended. */
  function OutputHeader(header: string): (out: string)
    ensures out == header + ",Rolling Ratio"
  {
    AppendColumn(header, ROLLING_COLUMN)
  }
}
