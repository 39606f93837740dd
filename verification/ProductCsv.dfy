/** The product-import parser, from already split records on: header, limits, and the row loop. */
module ProductCsv {
  import opened Ledger

  /** A UTF-16 code unit; lengths count these. */
  type Unit = n: int | 0 <= n < 0x1_0000

  type Text = seq<Unit>

  const MAX_PRODUCT_IMPORT_ROWS := 1_000
  const COLUMNS := 5

  function Ascii(s: string): Text
    requires forall n :: 0 <= n < |s| ==> s[n] < 128 as char
  {
    seq(|s|, n requires 0 <= n < |s| => s[n] as int)
  }

  // ---------------------------------------------------------------- trim and toLowerCase

  /** What `trim` removes: white space and line terminators of ECMAScript. */
  predicate IsSpace(u: Unit) {
    || 0x0009 <= u <= 0x000D || u == 0x0020 || u == 0x00A0 || u == 0x1680 || 0x2000 <= u <= 0x200A
    || u == 0x2028 || u == 0x2029 || u == 0x202F || u == 0x205F || u == 0x3000 || u == 0xFEFF
  }

  function TrimStart(t: Text): (r: Text)
    ensures r == [] || !IsSpace(r[0])
    ensures |r| <= |t| && r == t[|t| - |r|..] && forall n :: 0 <= n < |t| - |r| ==> IsSpace(t[n])
  {
    if t != [] && IsSpace(t[0]) then TrimStart(t[1..]) else t
  }

  function TrimEnd(t: Text): (r: Text)
    ensures r == [] || !IsSpace(r[|r| - 1])
    ensures r <= t && forall n :: |r| <= n < |t| ==> IsSpace(t[n])
  {
    if t != [] && IsSpace(t[|t| - 1]) then TrimEnd(t[..|t| - 1]) else t
  }

  function Trim(t: Text): Text {
    TrimEnd(TrimStart(t))
  }

  /** Trimming keeps one stretch of the text: all before and after it is white space, its own ends are not. */
  lemma TrimLaw(t: Text) returns (from: nat, to: nat)
    ensures from <= to <= |t| && Trim(t) == t[from..to]
    ensures forall n :: 0 <= n < from || to <= n < |t| ==> IsSpace(t[n])
    ensures from < to ==> !IsSpace(t[from]) && !IsSpace(t[to - 1])
  {
    var r := TrimStart(t);
    var m := TrimEnd(r);
    from := |t| - |r|;
    to := from + |m|;
    forall n | to <= n < |t| ensures IsSpace(t[n]) {
      assert t[n] == r[n - from];
    }
    if from < to {
      assert t[from] == r[0] && t[to - 1] == m[|m| - 1];
    }
  }

  /** The units whose lower case is a letter a-z: A-Z, and the Kelvin sign. */
  function Lower(u: Unit): Unit {
    if 0x41 <= u <= 0x5A then u + 0x20 else if u == 0x212A then 0x6B else u
  }

  /** `t.trim().toLowerCase()` equals a word in lower-case ASCII letters. */
  predicate Says(t: Text, word: Text) {
    |Trim(t)| == |word| && forall n :: 0 <= n < |word| ==> Lower(Trim(t)[n]) == word[n]
  }

  const HEADER: seq<Text> := [Ascii("sku"), Ascii("name"), Ascii("category"), Ascii("description"), Ascii("isactive")]
  const TRUE := Ascii("true")
  const FALSE := Ascii("false")

  predicate HeaderMatches(header: seq<Text>) {
    |header| == |HEADER| && forall n :: 0 <= n < |HEADER| ==> Says(header[n], HEADER[n])
  }

  // ---------------------------------------------------------------- one row

  datatype Code =
    | InvalidColumnCount | SkuRequired | SkuTooLong | NameRequired | NameTooLong | CategoryRequired | CategoryTooLong
    | DescriptionTooLong | InvalidIsActive | DuplicateSkuInFile

  /** The fields of a good row, trimmed. */
  datatype Fields = Fields(sku: Text, name: Text, category: Text, description: Option<Text>, isActive: bool)

  datatype Verdict = Good(fields: Fields) | Bad(code: Code)

  /** A row as it stands in the file, and what the checks that look at it alone make of it. */
  datatype Checked = Checked(rowData: seq<Text>, verdict: Verdict)

  datatype ValidRow = ValidRow(rowNumber: nat, fields: Fields)

  datatype RowError = RowError(rowNumber: nat, code: Code, rowData: seq<Text>)

  /** Destructuring with `''` for the columns that are not there. */
  function Cell(row: seq<Text>, n: nat): Text {
    if n < |row| then row[n] else []
  }

  /** The checks of one row in their order; duplicates are not seen from here. */
  function Judge(row: seq<Text>): Verdict {
    if |row| != COLUMNS then Bad(InvalidColumnCount)
    else
      JudgeCells(Trim(row[0]), Trim(row[1]), Trim(row[2]), Trim(row[3]), Says(row[4], TRUE), Says(row[4], FALSE))
  }

  /** The checks of the trimmed cells, the last being read as a yes or a no. */
  function JudgeCells(sku: Text, name: Text, category: Text, description: Text, yes: bool, no: bool): Verdict {
    if |sku| == 0 then Bad(SkuRequired)
    else if |sku| > 100 then Bad(SkuTooLong)
    else if |name| == 0 then Bad(NameRequired)
    else if |name| > 200 then Bad(NameTooLong)
    else if |category| == 0 then Bad(CategoryRequired)
    else if |category| > 120 then Bad(CategoryTooLong)
    else if |description| > 2_000 then Bad(DescriptionTooLong)
    else if !yes && !no then Bad(InvalidIsActive)
    else Good(Fields(sku, name, category, if |description| > 0 then Some(description) else None, yes))
  }

  function Check(row: seq<Text>): Checked {
    Checked([Cell(row, 0), Cell(row, 1), Cell(row, 2), Cell(row, 3), Cell(row, 4)], Judge(row))
  }

  function Checks(rows: seq<seq<Text>>): (checks: seq<Checked>)
    ensures |checks| == |rows| && forall i :: 0 <= i < |rows| ==> checks[i] == Check(rows[i])
  {
    seq(|rows|, i requires 0 <= i < |rows| => Check(rows[i]))
  }

  /** One of the first `i` rows passes every check of its own and has this SKU. */
  predicate SeenBefore(rows: seq<Checked>, i: nat, sku: Text)
    requires i <= |rows|
  {
    exists j :: 0 <= j < i && rows[j].verdict.Good? && rows[j].verdict.fields.sku == sku
  }

  /** Row `i` is the first with its SKU among the rows that pass every other check. */
  predicate Accepted(rows: seq<Checked>, i: nat)
    requires i < |rows|
  {
    rows[i].verdict.Good? && !SeenBefore(rows, i, rows[i].verdict.fields.sku)
  }

  function Complaint(rows: seq<Checked>, i: nat): RowError
    requires i < |rows| && !Accepted(rows, i)
  {
    RowError(i + 2, if rows[i].verdict.Bad? then rows[i].verdict.code else DuplicateSkuInFile, rows[i].rowData)
  }

  // ---------------------------------------------------------------- the file

  datatype PermanentError = FileEmpty | BadHeader | NoDataRows | TooManyRows

  datatype ParsedImport = ParsedImport(totalRows: nat, validRows: seq<ValidRow>, errors: seq<RowError>)

  datatype Result = Refused(error: PermanentError) | Read(file: ParsedImport)

  /** What the loop should have after `n` rows: each row goes to one of the two lists, by whether it is the first good
      one with its SKU. */
  function Sorted(rows: seq<Checked>, n: nat): ParsedImport
    requires n <= |rows|
  {
    if n == 0 then ParsedImport(0, [], [])
    else
      var before := Sorted(rows, n - 1);
      if Accepted(rows, n - 1)
      then ParsedImport(n, before.validRows + [ValidRow(n + 1, rows[n - 1].verdict.fields)], before.errors)
      else ParsedImport(n, before.validRows, before.errors + [Complaint(rows, n - 1)])
  }

  /** `rows` is what judging the data rows one by one comes to. */
  ghost predicate Judged(dataRows: seq<seq<Text>>, rows: seq<Checked>)
    decreases |rows|
  {
    && |rows| == |dataRows|
    && (rows == [] ||
        var last := |rows| - 1;
        rows[last] == Check(dataRows[last]) && Judged(dataRows[..last], rows[..last]))
  }

  lemma {:induction false} JudgedAt(dataRows: seq<seq<Text>>, rows: seq<Checked>, i: nat)
    requires Judged(dataRows, rows) && i < |rows|
    ensures rows[i] == Check(dataRows[i])
    decreases |rows|
  {
    if i < |rows| - 1 {
      JudgedAt(dataRows[..|rows| - 1], rows[..|rows| - 1], i);
    }
  }

  lemma {:induction false} ChecksJudged(dataRows: seq<seq<Text>>)
    ensures Judged(dataRows, Checks(dataRows))
    decreases |dataRows|
  {
    if dataRows != [] {
      var init := dataRows[..|dataRows| - 1];
      ChecksJudged(init);
      assert Checks(init) == Checks(dataRows)[..|dataRows| - 1];
    }
  }

  /** The checks of one round of the loop. */
  method JudgeRow(dataRows: seq<seq<Text>>, index: nat, ghost rows: seq<Checked>) returns (row: Checked)
    requires Judged(dataRows, rows) && index < |dataRows|
    ensures row == rows[index]
  {
    JudgedAt(dataRows, rows, index);
    row := Check(dataRows[index]);
  }

  /** The row loop: judge the row, then look for its SKU among those seen. */
  method SortRows(dataRows: seq<seq<Text>>, ghost rows: seq<Checked>) returns (result: ParsedImport)
    requires Judged(dataRows, rows)
    ensures result == Sorted(rows, |rows|)
    ensures |result.validRows| + |result.errors| == result.totalRows == |dataRows|
  {
    var validRows: seq<ValidRow>, errors: seq<RowError> := [], [];
    var seenSkus: set<Text> := {};
    for index := 0 to |dataRows|
      invariant forall sku :: sku in seenSkus <==> SeenBefore(rows, index, sku)
      invariant ParsedImport(index, validRows, errors) == Sorted(rows, index)
    {
      var row := JudgeRow(dataRows, index, rows);
      match row.verdict {
        case Bad(code) =>
          errors := errors + [RowError(index + 2, code, row.rowData)];
        case Good(fields) =>
          if fields.sku in seenSkus {
            errors := errors + [RowError(index + 2, DuplicateSkuInFile, row.rowData)];
          } else {
            seenSkus := seenSkus + {fields.sku};
            validRows := validRows + [ValidRow(index + 2, fields)];
          }
      }
    }
    RowNumbers(rows, |rows|);
    return ParsedImport(|dataRows|, validRows, errors);
  }

  /** What an import file comes to. */
  function Parse(records: seq<seq<Text>>): Result {
    if records == [] then Refused(FileEmpty)
    else if !HeaderMatches(records[0]) then Refused(BadHeader)
    else if |records| == 1 then Refused(NoDataRows)
    else if |records| - 1 > MAX_PRODUCT_IMPORT_ROWS then Refused(TooManyRows)
    else Read(Sorted(Checks(records[1..]), |records| - 1))
  }

  method ParseProductImport(records: seq<seq<Text>>) returns (result: Result)
    ensures result == Parse(records)
  {
    if |records| == 0 {
      return Refused(FileEmpty);
    }
    if !HeaderMatches(records[0]) {
      return Refused(BadHeader);
    }
    var dataRows := records[1..];
    if |dataRows| == 0 {
      return Refused(NoDataRows);
    }
    if |dataRows| > MAX_PRODUCT_IMPORT_ROWS {
      return Refused(TooManyRows);
    }
    ChecksJudged(dataRows);
    var file := SortRows(dataRows, Checks(dataRows));
    return Read(file);
  }

  // ---------------------------------------------------------------- consequences

  /** Row `i` is in exactly one list: its values in `validRows` when accepted, its complaint in `errors` otherwise. */
  lemma {:induction false} EveryRowOnce(rows: seq<Checked>, n: nat, i: nat)
    requires i < n <= |rows|
    ensures if Accepted(rows, i)
            then ValidRow(i + 2, rows[i].verdict.fields) in Sorted(rows, n).validRows
                 && forall e :: e in Sorted(rows, n).errors ==> e.rowNumber != i + 2
            else Complaint(rows, i) in Sorted(rows, n).errors
                 && forall v :: v in Sorted(rows, n).validRows ==> v.rowNumber != i + 2
  {
    RowNumbers(rows, n - 1);
    if i < n - 1 {
      EveryRowOnce(rows, n - 1, i);
    }
  }

  /** Each valid row stands for an accepted row, with its values and its line number. */
  lemma {:induction false} ValidRowFrom(rows: seq<Checked>, n: nat, k: nat)
    requires n <= |rows| && k < |Sorted(rows, n).validRows|
    ensures var v := Sorted(rows, n).validRows[k];
            && 2 <= v.rowNumber < n + 2 && Accepted(rows, v.rowNumber - 2)
            && v.fields == rows[v.rowNumber - 2].verdict.fields
    decreases n
  {
    if k < |Sorted(rows, n - 1).validRows| {
      ValidRowFrom(rows, n - 1, k);
    }
  }

  /** Nothing is lost or invented, and both lists keep the order of the file. */
  lemma {:induction false} RowNumbers(rows: seq<Checked>, n: nat)
    requires n <= |rows|
    ensures var file := Sorted(rows, n);
            && |file.validRows| + |file.errors| == file.totalRows == n
            && (forall k :: 0 <= k < |file.validRows| ==> 2 <= file.validRows[k].rowNumber < n + 2)
            && (forall k :: 0 <= k < |file.errors| ==> 2 <= file.errors[k].rowNumber < n + 2)
            && (forall k, l :: 0 <= k < l < |file.validRows| ==>
                file.validRows[k].rowNumber < file.validRows[l].rowNumber)
            && (forall k, l :: 0 <= k < l < |file.errors| ==> file.errors[k].rowNumber < file.errors[l].rowNumber)
  {
    if n > 0 {
      RowNumbers(rows, n - 1);
    }
  }

  /** The accepted rows have distinct SKUs, namely those of the rows that pass every other check. */
  lemma {:induction false} AcceptedSkus(rows: seq<Checked>, n: nat)
    requires n <= |rows|
    ensures DistinctSkus(Sorted(rows, n).validRows)
    ensures forall sku :: SeenBefore(rows, n, sku) <==> HasSku(Sorted(rows, n).validRows, sku)
  {
    if n > 0 {
      AcceptedSkus(rows, n - 1);
      var before, after := Sorted(rows, n - 1).validRows, Sorted(rows, n).validRows;
      forall sku ensures SeenBefore(rows, n, sku) <==> HasSku(after, sku) {
        assert SeenBefore(rows, n, sku) <==>
          SeenBefore(rows, n - 1, sku) || (rows[n - 1].verdict.Good? && rows[n - 1].verdict.fields.sku == sku);
        AppendedSku(before, after, sku);
      }
      assert Accepted(rows, n - 1) ==> !HasSku(before, rows[n - 1].verdict.fields.sku);
    }
  }

  predicate HasSku(rows: seq<ValidRow>, sku: Text) {
    exists k :: 0 <= k < |rows| && rows[k].fields.sku == sku
  }

  predicate DistinctSkus(rows: seq<ValidRow>) {
    forall k, l :: 0 <= k < l < |rows| ==> rows[k].fields.sku != rows[l].fields.sku
  }

  lemma AppendedSku(before: seq<ValidRow>, after: seq<ValidRow>, sku: Text)
    requires before == after || (|after| == |before| + 1 && before == after[..|before|])
    ensures HasSku(after, sku) <==> HasSku(before, sku) || (after != before && after[|before|].fields.sku == sku)
  {
    if HasSku(before, sku) {
      var k :| 0 <= k < |before| && before[k].fields.sku == sku;
      assert after[k].fields.sku == sku;
    }
  }
}
