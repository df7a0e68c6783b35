/**
 * The curve-list response parser: the nested `_process_instruments` of
 * `get_curveList`. One response message holds a `results` array; each result
 * is a sequence of named fields, and each field holds either one string or an
 * array of strings. Every result becomes one seven-column row.
 */
module CurveList {
  import opened Wrappers
  import opened Strings

  /** The value of one field of a result element. */
  datatype Value = Scalar(text: string) | Array(items: seq<string>)

  datatype Field = Field(name: string, value: Value)

  /** One result element: its fields in index order `0..numElements()-1`. */
  type Element = seq<Field>

  /** The tuple `(curve, description, country, currency, curveid, type, subtype)`. */
  datatype Row = Row(curve: string, description: string, country: string, currency: string,
                     curveid: string, ctype: string, csubtype: string)

  /** Every column starts out as the empty string. */
  const EmptyRow: Row := Row("", "", "", "", "", "", "")

  /** The field keys the parser recognises, in the order of the row's columns. */
  const KeyOrder: seq<string> := ["curve", "description", "country", "currency", "curveid", "type", "subtype"]

  predicate Recognised(key: string) {
    key in KeyOrder
  }

  /** The column of `row` that the field key `key` fills. */
  function Column(row: Row, key: string): string
    requires Recognised(key)
  {
    match key
    case "curve" => row.curve
    case "description" => row.description
    case "country" => row.country
    case "currency" => row.currency
    case "curveid" => row.curveid
    case "type" => row.ctype
    case _ => row.csubtype
  }

  /** The row as the tuple the parser yields, one cell per recognised key. */
  function Cells(row: Row): (cells: seq<string>)
    ensures |cells| == |KeyOrder|
    ensures forall i :: 0 <= i < |KeyOrder| ==> cells[i] == Column(row, KeyOrder[i])
  {
    [row.curve, row.description, row.country, row.currency, row.curveid, row.ctype, row.csubtype]
  }

  /** `[field.getValueAsString(k) for k in range(field.numValues())]`: a scalar has one value. */
  function Values(v: Value): seq<string> {
    match v
    case Scalar(s) => [s]
    case Array(items) => items
  }

  /**
   * `field.getValueAsString()`, which reads value 0 of the field; on an array
   * with no values it raises, and the exception ends the whole parse.
   */
  function AsScalar(v: Value): Option<string> {
    match v
    case Scalar(s) => Some(s)
    case Array(items) => if |items| > 0 then Some(items[0]) else None
  }

  /** What a field writes into its column, or None where reading it raises. */
  function Cell(f: Field): (c: Option<string>)
    ensures c.None? <==> f.name != "type" && f.name != "subtype" && f.value == Array([])
  {
    if f.name == "subtype" || f.name == "type" then Some(Join(Values(f.value), Sep))
    else AsScalar(f.value)
  }

  /** One iteration of the inner loop: the field's key selects the column it overwrites. */
  function ApplyField(row: Row, f: Field): (r: Option<Row>)
    ensures r.None? <==> Cell(f).None?
    ensures r.Some? && Recognised(f.name) ==> Column(r.value, f.name) == Cell(f).value
    ensures r.Some? ==> forall k :: Recognised(k) && k != f.name ==> Column(r.value, k) == Column(row, k)
    ensures r.Some? && !Recognised(f.name) ==> r.value == row
  {
    if f.name == "subtype" then Some(row.(csubtype := Join(Values(f.value), Sep)))
    else if f.name == "type" then Some(row.(ctype := Join(Values(f.value), Sep)))
    else
      match AsScalar(f.value)
      case None => None
      case Some(s) =>
        var r1 := if f.name == "curve" then row.(curve := s)
                  else if f.name == "description" then row.(description := s)
                  else row;
        Some(if f.name == "country" then r1.(country := s)
             else if f.name == "currency" then r1.(currency := s)
             else if f.name == "curveid" then r1.(curveid := s)
             else r1)
  }

  /** The inner loop over the fields `fs`, in order, starting from `row`. */
  function ApplyAll(row: Row, fs: seq<Field>): Option<Row>
    decreases |fs|
  {
    if |fs| == 0 then Some(row)
    else
      match ApplyAll(row, fs[..|fs| - 1])
      case None => None
      case Some(r) => ApplyField(r, fs[|fs| - 1])
  }

  /** The row one result element yields. */
  function ParseElement(e: Element): Option<Row> {
    ApplyAll(EmptyRow, e)
  }

  /** The rows of one message, in result order; None where a field read raises. */
  function Parse(results: seq<Element>): Option<seq<Row>>
    decreases |results|
  {
    if |results| == 0 then Some([])
    else
      match Parse(results[..|results| - 1])
      case None => None
      case Some(rows) =>
        match ParseElement(results[|results| - 1])
        case None => None
        case Some(r) => Some(rows + [r])
  }

  /** The parser itself: the nested loops over results and fields with seven accumulators. */
  method ProcessMessage(results: seq<Element>) returns (rows: Option<seq<Row>>)
    ensures rows == Parse(results)
  {
    var out: seq<Row> := [];
    var i := 0;
    while i < |results|
      invariant 0 <= i <= |results|
      invariant Parse(results[..i]) == Some(out)
    {
      var curve, description, country, currency, curveid, ctype, csubType := "", "", "", "", "", "", "";
      var result := results[i];
      var j := 0;
      while j < |result|
        invariant 0 <= j <= |result|
        invariant ApplyAll(EmptyRow, result[..j])
                  == Some(Row(curve, description, country, currency, curveid, ctype, csubType))
      {
        var field := result[j];
        var key := field.name;
        assert result[..j + 1][..j] == result[..j];
        if key == "subtype" {
          csubType := Join(Values(field.value), Sep);
        } else if key == "type" {
          ctype := Join(Values(field.value), Sep);
        } else {
          var v := AsScalar(field.value);
          if v.None? {
            assert ApplyAll(EmptyRow, result[..j + 1]).None?;
            ApplyAllFailureSticks(EmptyRow, result, j + 1);
            assert result[..|result|] == result;
            assert results[..i + 1][..i] == results[..i];
            ParseFailureSticks(results, i + 1);
            assert results[..|results|] == results;
            return None;
          }
          var valueStr := v.value;
          if key == "curve" {
            curve := valueStr;
          } else if key == "description" {
            description := valueStr;
          }
          if key == "country" {
            country := valueStr;
          } else if key == "currency" {
            currency := valueStr;
          } else if key == "curveid" {
            curveid := valueStr;
          }
        }
        j := j + 1;
      }
      assert result[..j] == result;
      assert results[..i + 1][..i] == results[..i];
      out := out + [Row(curve, description, country, currency, curveid, ctype, csubType)];
      i := i + 1;
    }
    assert results[..i] == results;
    rows := Some(out);
  }

  /** Once a field read raises, reading further fields cannot undo it. */
  lemma {:induction false} ApplyAllFailureSticks(row: Row, fs: seq<Field>, n: nat)
    requires n <= |fs|
    requires ApplyAll(row, fs[..n]).None?
    ensures ApplyAll(row, fs).None?
    decreases |fs| - n
  {
    if n < |fs| {
      assert fs[..n + 1][..n] == fs[..n];
      ApplyAllFailureSticks(row, fs, n + 1);
    } else {
      assert fs[..n] == fs;
    }
  }

  /** Once a result fails to parse, the whole message fails. */
  lemma {:induction false} ParseFailureSticks(results: seq<Element>, n: nat)
    requires n <= |results|
    requires Parse(results[..n]).None?
    ensures Parse(results).None?
    decreases |results| - n
  {
    if n < |results| {
      assert results[..n + 1][..n] == results[..n];
      ParseFailureSticks(results, n + 1);
    } else {
      assert results[..n] == results;
    }
  }

  /**
   * The message parses exactly when every result does, and then it yields one
   * row per result, the i-th row being the i-th result's.
   */
  lemma {:induction false} ParseRowPerResult(results: seq<Element>)
    ensures Parse(results).Some? <==> forall i :: 0 <= i < |results| ==> ParseElement(results[i]).Some?
    ensures Parse(results).Some? ==>
              |Parse(results).value| == |results| &&
              forall i :: 0 <= i < |results| ==> Parse(results).value[i] == ParseElement(results[i]).value
    decreases |results|
  {
    if |results| > 0 {
      var prefix := results[..|results| - 1];
      ParseRowPerResult(prefix);
      assert forall i :: 0 <= i < |prefix| ==> prefix[i] == results[i];
    }
  }

  /** The inner loop fails exactly when some field is a non-type array with no values. */
  lemma {:induction false} ApplyAllFailsIff(row: Row, fs: seq<Field>)
    ensures ApplyAll(row, fs).None? <==> exists i :: 0 <= i < |fs| && Cell(fs[i]).None?
    decreases |fs|
  {
    if |fs| > 0 {
      var prefix := fs[..|fs| - 1];
      ApplyAllFailsIff(row, prefix);
      assert forall i :: 0 <= i < |prefix| ==> prefix[i] == fs[i];
      if ApplyAll(row, fs).None? && ApplyAll(row, prefix).Some? {
        assert Cell(fs[|fs| - 1]).None?;
      }
    }
  }

  /**
   * The value the last field named `key` in `fs` writes, or `dflt` when no field
   * has that key; None where reading that last field raises.
   */
  function LastCell(fs: seq<Field>, key: string, dflt: string): Option<string>
    decreases |fs|
  {
    if |fs| == 0 then Some(dflt)
    else if fs[|fs| - 1].name == key then Cell(fs[|fs| - 1])
    else LastCell(fs[..|fs| - 1], key, dflt)
  }

  /** Each recognised column ends up as the last occurrence of its key, or stays as it was. */
  lemma {:induction false} ApplyAllColumn(row: Row, fs: seq<Field>, key: string)
    requires Recognised(key)
    requires ApplyAll(row, fs).Some?
    ensures Some(Column(ApplyAll(row, fs).value, key)) == LastCell(fs, key, Column(row, key))
    decreases |fs|
  {
    if |fs| > 0 {
      ApplyAllColumn(row, fs[..|fs| - 1], key);
    }
  }

  /** The last occurrence of a recognised key in a result is the value its column gets. */
  lemma {:induction false} LastOccurrenceWins(e: Element, i: nat)
    requires i < |e| && Recognised(e[i].name)
    requires forall j :: i < j < |e| ==> e[j].name != e[i].name
    requires ParseElement(e).Some?
    ensures Some(Column(ParseElement(e).value, e[i].name)) == Cell(e[i])
  {
    ApplyAllColumn(EmptyRow, e, e[i].name);
    LastCellAt(e, e[i].name, "", i);
  }

  lemma {:induction false} LastCellAt(fs: seq<Field>, key: string, dflt: string, i: nat)
    requires i < |fs| && fs[i].name == key
    requires forall j :: i < j < |fs| ==> fs[j].name != key
    ensures LastCell(fs, key, dflt) == Cell(fs[i])
    decreases |fs|
  {
    if i < |fs| - 1 {
      var prefix := fs[..|fs| - 1];
      assert forall j :: i < j < |prefix| ==> prefix[j] == fs[j];
      LastCellAt(prefix, key, dflt, i);
    }
  }

  /** A recognised key that no field of the result carries leaves its column "". */
  lemma {:induction false} AbsentKeyStaysEmpty(e: Element, key: string)
    requires Recognised(key)
    requires forall j :: 0 <= j < |e| ==> e[j].name != key
    requires ParseElement(e).Some?
    ensures Column(ParseElement(e).value, key) == ""
  {
    ApplyAllColumn(EmptyRow, e, key);
    LastCellAbsent(e, key, "");
  }

  lemma {:induction false} LastCellAbsent(fs: seq<Field>, key: string, dflt: string)
    requires forall j :: 0 <= j < |fs| ==> fs[j].name != key
    ensures LastCell(fs, key, dflt) == Some(dflt)
    decreases |fs|
  {
    if |fs| > 0 {
      var prefix := fs[..|fs| - 1];
      assert forall j :: 0 <= j < |prefix| ==> prefix[j] == fs[j];
      LastCellAbsent(prefix, key, dflt);
    }
  }

  /** A result with no fields yields the all-empty row. */
  lemma EmptyElementRow()
    ensures ParseElement([]) == Some(EmptyRow)
    ensures Cells(EmptyRow) == ["", "", "", "", "", "", ""]
  {
  }

  /** A readable field with an unrecognised key, appended to a result, changes nothing. */
  lemma UnrecognisedKeyIgnored(e: Element, f: Field)
    requires !Recognised(f.name) && f.value != Array([])
    ensures ParseElement(e + [f]) == ParseElement(e)
  {
    assert (e + [f])[..|e|] == e;
  }

  /**
   * A `type` or `subtype` cell is its values joined by ", ": "" for no values,
   * the value itself for one, and for values without commas the cell splits
   * back into exactly those values.
   */
  lemma JoinedCell(f: Field)
    requires f.name == "type" || f.name == "subtype"
    ensures Cell(f) == Some(Join(Values(f.value), Sep))
    ensures f.value == Array([]) ==> Cell(f) == Some("")
    ensures |Values(f.value)| == 1 ==> Cell(f) == Some(Values(f.value)[0])
    ensures (|Values(f.value)| >= 1 && forall i :: 0 <= i < |Values(f.value)| ==> ',' !in Values(f.value)[i])
            ==> Split(Cell(f).value) == Values(f.value)
  {
    if |Values(f.value)| >= 1 && forall i :: 0 <= i < |Values(f.value)| ==> ',' !in Values(f.value)[i] {
      SplitJoin(Values(f.value));
    }
  }

  /** Two type values ["A", "B"] become the one cell "A, B". */
  lemma TwoValuesExample()
    ensures Cell(Field("type", Array(["A", "B"]))) == Some("A, B")
  {
    var items := ["A", "B"];
    assert items[1..] == ["B"];
    assert Join(items, Sep) == "A" + Sep + "B";
    assert "A" + Sep + "B" == "A, B";
  }
}
