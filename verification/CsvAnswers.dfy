/** What a product import makes of a file, said of its cells alone. */
module CsvAnswers {
  import opened Ledger
  import opened ProductCsv
  import opened ProductImport
  import opened DataJobs

  // ---------------------------------------------------------------- cells

  /** The white space and line terminators of ECMA-262, sections 12.2 and 12.3. */
  lemma SpaceAnswer(u: Unit)
    ensures IsSpace(u) <==>
              u in {0x09, 0x0A, 0x0B, 0x0C, 0x0D, 0x20, 0xA0, 0x1680, 0x2000, 0x2001, 0x2002, 0x2003, 0x2004, 0x2005,
                    0x2006, 0x2007, 0x2008, 0x2009, 0x200A, 0x2028, 0x2029, 0x202F, 0x205F, 0x3000, 0xFEFF}
  {
  }

  /** `t` is the word, each letter in either case; the Kelvin sign is the one other unit whose lower case is ASCII. */
  predicate Spells(t: Text, lower: Text, upper: Text) {
    && |t| == |lower| == |upper|
    && forall n :: 0 <= n < |t| ==> t[n] == lower[n] || t[n] == upper[n] || (lower[n] == 0x6B && t[n] == 0x212A)
  }

  /** `true` and `TRUE`, and the like, as ASCII codes. */
  const YES: (Text, Text) := ([0x74, 0x72, 0x75, 0x65], [0x54, 0x52, 0x55, 0x45])
  const NO: (Text, Text) := ([0x66, 0x61, 0x6C, 0x73, 0x65], [0x46, 0x41, 0x4C, 0x53, 0x45])
  const SKU: (Text, Text) := ([0x73, 0x6B, 0x75], [0x53, 0x4B, 0x55])
  const NAME: (Text, Text) := ([0x6E, 0x61, 0x6D, 0x65], [0x4E, 0x41, 0x4D, 0x45])
  const CATEGORY: (Text, Text) :=
    ([0x63, 0x61, 0x74, 0x65, 0x67, 0x6F, 0x72, 0x79], [0x43, 0x41, 0x54, 0x45, 0x47, 0x4F, 0x52, 0x59])
  const DESCRIPTION: (Text, Text) :=
    ([0x64, 0x65, 0x73, 0x63, 0x72, 0x69, 0x70, 0x74, 0x69, 0x6F, 0x6E],
     [0x44, 0x45, 0x53, 0x43, 0x52, 0x49, 0x50, 0x54, 0x49, 0x4F, 0x4E])
  const ISACTIVE: (Text, Text) :=
    ([0x69, 0x73, 0x61, 0x63, 0x74, 0x69, 0x76, 0x65], [0x49, 0x53, 0x41, 0x43, 0x54, 0x49, 0x56, 0x45])

  predicate IsYes(cell: Text) {
    Spells(Trim(cell), YES.0, YES.1)
  }

  predicate IsNo(cell: Text) {
    Spells(Trim(cell), NO.0, NO.1)
  }

  /** Upper and lower case of the same letters. */
  predicate Cases(lower: Text, upper: Text) {
    && |lower| == |upper|
    && forall n :: 0 <= n < |lower| ==> 0x61 <= lower[n] <= 0x7A && upper[n] == lower[n] - 0x20
  }

  lemma SaysSpells(cell: Text, lower: Text, upper: Text)
    requires Cases(lower, upper)
    ensures Says(cell, lower) <==> Spells(Trim(cell), lower, upper)
  {
    var t := Trim(cell);
    if |t| == |lower| {
      forall n | 0 <= n < |t|
        ensures Lower(t[n]) == lower[n]
           <==> t[n] == lower[n] || t[n] == upper[n] || (lower[n] == 0x6B && t[n] == 0x212A)
      {
        LowerLetter(t[n], lower[n], upper[n]);
      }
    }
  }

  lemma LowerLetter(u: Unit, lower: Unit, upper: Unit)
    requires 0x61 <= lower <= 0x7A && upper == lower - 0x20
    ensures Lower(u) == lower <==> u == lower || u == upper || (lower == 0x6B && u == 0x212A)
  {
  }

  lemma YesAndNo()
    ensures TRUE == YES.0 && FALSE == NO.0
  {
  }

  lemma ShortColumns()
    ensures Ascii("sku") == SKU.0 && Ascii("name") == NAME.0
  {
  }

  lemma CategoryColumn()
    ensures Ascii("category") == CATEGORY.0
  {
  }

  lemma DescriptionColumn()
    ensures Ascii("description") == DESCRIPTION.0
  {
  }

  lemma ActiveColumn()
    ensures Ascii("isactive") == ISACTIVE.0
  {
  }

  lemma Columns()
    ensures HEADER == [SKU.0, NAME.0, CATEGORY.0, DESCRIPTION.0, ISACTIVE.0]
  {
    ShortColumns();
    CategoryColumn();
    DescriptionColumn();
    ActiveColumn();
  }

  lemma WordCases()
    ensures Cases(YES.0, YES.1) && Cases(NO.0, NO.1) && Cases(SKU.0, SKU.1) && Cases(NAME.0, NAME.1)
    ensures Cases(CATEGORY.0, CATEGORY.1) && Cases(DESCRIPTION.0, DESCRIPTION.1) && Cases(ISACTIVE.0, ISACTIVE.1)
  {
  }

  lemma SaysWord(cell: Text, word: Text, cases: (Text, Text))
    requires word == cases.0 && Cases(cases.0, cases.1)
    ensures Says(cell, word) <==> Spells(Trim(cell), cases.0, cases.1)
  {
    SaysSpells(cell, cases.0, cases.1);
  }

  lemma SaysYes(cell: Text)
    ensures Says(cell, TRUE) <==> IsYes(cell)
  {
    YesAndNo();
    WordCases();
    SaysWord(cell, TRUE, YES);
  }

  lemma SaysNo(cell: Text)
    ensures Says(cell, FALSE) <==> IsNo(cell)
  {
    YesAndNo();
    WordCases();
    SaysWord(cell, FALSE, NO);
  }

  /** The header names the five columns, in this order, in any letter case. */
  predicate IsHeader(cells: seq<Text>) {
    && |cells| == 5
    && Spells(Trim(cells[0]), SKU.0, SKU.1) && Spells(Trim(cells[1]), NAME.0, NAME.1)
    && Spells(Trim(cells[2]), CATEGORY.0, CATEGORY.1) && Spells(Trim(cells[3]), DESCRIPTION.0, DESCRIPTION.1)
    && Spells(Trim(cells[4]), ISACTIVE.0, ISACTIVE.1)
  }

  lemma FiveWords(cells: seq<Text>, words: seq<Text>, says: (Text, Text) -> bool)
    requires |cells| == |words| == 5
    ensures (forall n :: 0 <= n < |words| ==> says(cells[n], words[n]))
       <==> && says(cells[0], words[0]) && says(cells[1], words[1]) && says(cells[2], words[2])
            && says(cells[3], words[3]) && says(cells[4], words[4])
  {
  }

  lemma HeaderSays(cells: seq<Text>)
    requires |cells| == 5
    ensures HeaderMatches(cells)
       <==> && Says(cells[0], SKU.0) && Says(cells[1], NAME.0) && Says(cells[2], CATEGORY.0)
            && Says(cells[3], DESCRIPTION.0) && Says(cells[4], ISACTIVE.0)
  {
    Columns();
    FiveWords(cells, HEADER, Says);
  }

  lemma HeaderAnswer(cells: seq<Text>)
    ensures HeaderMatches(cells) <==> IsHeader(cells)
  {
    Columns();
    if |cells| == 5 {
      WordCases();
      HeaderSays(cells);
      SaysWord(cells[0], SKU.0, SKU);
      SaysWord(cells[1], NAME.0, NAME);
      SaysWord(cells[2], CATEGORY.0, CATEGORY);
      SaysWord(cells[3], DESCRIPTION.0, DESCRIPTION);
      SaysWord(cells[4], ISACTIVE.0, ISACTIVE);
    }
  }

  // ---------------------------------------------------------------- one row

  /** The trimmed cells are within their lengths, SKU, name and category not empty, and the last says yes or no. */
  predicate InLimits(sku: Text, name: Text, category: Text, description: Text, said: bool) {
    1 <= |sku| <= 100 && 1 <= |name| <= 200 && 1 <= |category| <= 120 && |description| <= 2_000 && said
  }

  /** What is wrong with the cells: the first thing, from left to right. */
  function Fault(sku: Text, name: Text, category: Text, description: Text): Code {
    if sku == [] then SkuRequired
    else if |sku| > 100 then SkuTooLong
    else if name == [] then NameRequired
    else if |name| > 200 then NameTooLong
    else if category == [] then CategoryRequired
    else if |category| > 120 then CategoryTooLong
    else if |description| > 2_000 then DescriptionTooLong
    else InvalidIsActive
  }

  /** A good row has its trimmed cells for values, an empty description being none. */
  function CellsSay(sku: Text, name: Text, category: Text, description: Text, yes: bool, no: bool): Verdict {
    if InLimits(sku, name, category, description, yes || no)
    then Good(Fields(sku, name, category, if description == [] then None else Some(description), yes))
    else Bad(Fault(sku, name, category, description))
  }

  lemma CellsVerdict(sku: Text, name: Text, category: Text, description: Text, yes: bool, no: bool)
    ensures JudgeCells(sku, name, category, description, yes, no)
         == CellsSay(sku, name, category, description, yes, no)
  {
  }

  /** The row as an error reports it: always five cells, those missing being empty. */
  function Reported(row: seq<Text>): seq<Text> {
    seq(5, n requires 0 <= n < 5 => if n < |row| then row[n] else [])
  }

  /** What a row comes to by itself: SKU, name, category, description and flag, in this order. */
  function Reading(row: seq<Text>): Checked {
    Checked(Reported(row),
            if |row| != 5 then Bad(InvalidColumnCount)
            else CellsSay(Trim(row[0]), Trim(row[1]), Trim(row[2]), Trim(row[3]), IsYes(row[4]), IsNo(row[4])))
  }

  lemma CellsAnswer(row: seq<Text>)
    ensures Check(row).rowData == Reported(row)
  {
  }

  lemma RowAnswer(row: seq<Text>)
    ensures Check(row) == Reading(row)
  {
    CellsAnswer(row);
    if |row| == 5 {
      SaysYes(row[4]);
      SaysNo(row[4]);
      CellsVerdict(Trim(row[0]), Trim(row[1]), Trim(row[2]), Trim(row[3]), IsYes(row[4]), IsNo(row[4]));
    }
  }

  function Readings(rows: seq<seq<Text>>): seq<Checked> {
    seq(|rows|, i requires 0 <= i < |rows| => Reading(rows[i]))
  }

  lemma ChecksAnswer(rows: seq<seq<Text>>)
    ensures Checks(rows) == Readings(rows)
  {
    forall i | 0 <= i < |rows| ensures Checks(rows)[i] == Readings(rows)[i] {
      RowAnswer(rows[i]);
    }
  }

  // ---------------------------------------------------------------- the file

  /** Row `i` passes, and no row before it that passes has its SKU. */
  predicate Taken(rows: seq<Checked>, i: nat)
    requires i < |rows|
  {
    && rows[i].verdict.Good?
    && forall j :: 0 <= j < i && rows[j].verdict.Good? ==> rows[j].verdict.fields.sku != rows[i].verdict.fields.sku
  }

  /** What is said of data row `i`, which is line `i + 2` of the file, when it is not taken. */
  function Complained(rows: seq<Checked>, i: nat): RowError
    requires i < |rows| && !Taken(rows, i)
  {
    RowError(i + 2, if rows[i].verdict.Good? then DuplicateSkuInFile else rows[i].verdict.code, rows[i].rowData)
  }

  /** The valid row is one of those taken. */
  predicate IsTaken(rows: seq<Checked>, v: ValidRow) {
    2 <= v.rowNumber < |rows| + 2 && Taken(rows, v.rowNumber - 2) && v.fields == rows[v.rowNumber - 2].verdict.fields
  }

  /** The valid rows are those taken, the errors those not, with their line numbers; both lists are in file order. */
  predicate SortsRows(rows: seq<Checked>, file: ParsedImport) {
    && file.totalRows == |rows| == |file.validRows| + |file.errors|
    && (forall i :: 0 <= i < |rows| ==>
          if Taken(rows, i) then ValidRow(i + 2, rows[i].verdict.fields) in file.validRows
          else Complained(rows, i) in file.errors)
    && (forall k :: 0 <= k < |file.validRows| ==> IsTaken(rows, file.validRows[k]))
    && (forall k, l :: 0 <= k < l < |file.validRows| ==> file.validRows[k].rowNumber < file.validRows[l].rowNumber)
    && (forall k, l :: 0 <= k < l < |file.errors| ==> file.errors[k].rowNumber < file.errors[l].rowNumber)
  }

  lemma TakenIsAccepted(rows: seq<Checked>, i: nat)
    requires i < |rows|
    ensures Accepted(rows, i) <==> Taken(rows, i)
    ensures !Taken(rows, i) ==> Complaint(rows, i) == Complained(rows, i)
  {
  }

  lemma SortedSorts(rows: seq<Checked>)
    ensures SortsRows(rows, Sorted(rows, |rows|))
  {
    var file := Sorted(rows, |rows|);
    RowNumbers(rows, |rows|);
    forall i | 0 <= i < |rows|
      ensures if Taken(rows, i) then ValidRow(i + 2, rows[i].verdict.fields) in file.validRows
              else Complained(rows, i) in file.errors
    {
      TakenIsAccepted(rows, i);
      EveryRowOnce(rows, |rows|, i);
    }
    forall k | 0 <= k < |file.validRows| ensures IsTaken(rows, file.validRows[k]) {
      ValidRowFrom(rows, |rows|, k);
      TakenIsAccepted(rows, file.validRows[k].rowNumber - 2);
    }
  }

  /** A file is refused for what is first wrong with it as a whole; otherwise its rows are sorted. */
  lemma FileAnswer(records: seq<seq<Text>>)
    ensures if records == [] then Parse(records) == Refused(FileEmpty)
            else if !IsHeader(records[0]) then Parse(records) == Refused(BadHeader)
            else if |records| == 1 then Parse(records) == Refused(NoDataRows)
            else if |records| > 1_001 then Parse(records) == Refused(TooManyRows)
            else Parse(records).Read? && SortsRows(Readings(records[1..]), Parse(records).file)
  {
    if records != [] {
      HeaderAnswer(records[0]);
      ChecksAnswer(records[1..]);
      SortedSorts(Checks(records[1..]));
    }
  }

  // ---------------------------------------------------------------- the catalog

  /** Some row that is taken has this SKU. */
  ghost predicate Supplies(rows: seq<Checked>, sku: Text) {
    exists i :: 0 <= i < |rows| && Taken(rows, i) && rows[i].verdict.fields.sku == sku
  }

  ghost predicate UsesName(rows: seq<Checked>, name: Text) {
    exists i :: 0 <= i < |rows| && Taken(rows, i) && rows[i].verdict.fields.category == name
  }

  /** The product of the SKU has these values, and belongs to the category of that name. */
  predicate Stored(v: Fields, after: Catalog) {
    && v.sku in after.products && v.category in after.categories
    && after.products[v.sku] == Product(v.name, v.description, after.categories[v.category], v.isActive)
  }

  /** Each row taken is stored; other products and the categories there were stay as they are, and nothing else
      appears. */
  ghost predicate Fills(before: Catalog, rows: seq<Checked>, after: Catalog) {
    && (forall i :: 0 <= i < |rows| && Taken(rows, i) ==> Stored(rows[i].verdict.fields, after))
    && (forall sku :: sku in after.products <==> sku in before.products || Supplies(rows, sku))
    && (forall sku :: sku in before.products && !Supplies(rows, sku) ==> after.products[sku] == before.products[sku])
    && (forall name :: name in after.categories <==> name in before.categories || UsesName(rows, name))
    && (forall name :: name in before.categories ==> after.categories[name] == before.categories[name])
  }

  /** Where in the list the row that is taken is. */
  lemma Listed(rows: seq<Checked>, file: ParsedImport, i: nat) returns (k: nat)
    requires SortsRows(rows, file) && i < |rows| && Taken(rows, i)
    ensures k < |file.validRows| && file.validRows[k].fields == rows[i].verdict.fields
  {
    k :| k < |file.validRows| && file.validRows[k] == ValidRow(i + 2, rows[i].verdict.fields);
  }

  lemma SkusAgree(rows: seq<Checked>, file: ParsedImport, sku: Text)
    requires SortsRows(rows, file)
    ensures Supplies(rows, sku) <==> HasSku(file.validRows, sku)
  {
    if Supplies(rows, sku) {
      var i :| 0 <= i < |rows| && Taken(rows, i) && rows[i].verdict.fields.sku == sku;
      var k := Listed(rows, file, i);
    }
    if k :| 0 <= k < |file.validRows| && file.validRows[k].fields.sku == sku {
      assert IsTaken(rows, file.validRows[k]);
    }
  }

  lemma NamesAgree(rows: seq<Checked>, file: ParsedImport, name: Text)
    requires SortsRows(rows, file)
    ensures UsesName(rows, name) <==> UsesCategory(file.validRows, name)
  {
    if UsesName(rows, name) {
      var i :| 0 <= i < |rows| && Taken(rows, i) && rows[i].verdict.fields.category == name;
      var k := Listed(rows, file, i);
    }
    if k :| 0 <= k < |file.validRows| && file.validRows[k].fields.category == name {
      assert IsTaken(rows, file.validRows[k]);
    }
  }

  /** An import has every product and category of its rows. */
  lemma ImportedHas(before: Catalog, rows: seq<ValidRow>, after: Catalog)
    requires Imported(before, rows, after)
    ensures forall sku :: sku in after.products <==> sku in before.products || HasSku(rows, sku)
    ensures forall name :: name in after.categories <==> name in before.categories || UsesCategory(rows, name)
  {
  }

  lemma TakenIsStored(before: Catalog, rows: seq<Checked>, file: ParsedImport, after: Catalog, i: nat)
    requires SortsRows(rows, file) && Imported(before, file.validRows, after) && i < |rows| && Taken(rows, i)
    ensures Stored(rows[i].verdict.fields, after)
  {
    var k := Listed(rows, file, i);
    ImportedRow(before, file.validRows, after, k);
  }

  lemma ImportedRow(before: Catalog, rows: seq<ValidRow>, after: Catalog, k: nat)
    requires Imported(before, rows, after) && k < |rows|
    ensures Stored(rows[k].fields, after)
  {
  }

  lemma ImportedFills(before: Catalog, rows: seq<Checked>, file: ParsedImport, after: Catalog)
    requires SortsRows(rows, file) && Imported(before, file.validRows, after)
    ensures Fills(before, rows, after)
  {
    ImportedHas(before, file.validRows, after);
    forall sku ensures Supplies(rows, sku) <==> HasSku(file.validRows, sku) {
      SkusAgree(rows, file, sku);
    }
    forall name ensures UsesName(rows, name) <==> UsesCategory(file.validRows, name) {
      NamesAgree(rows, file, name);
    }
    forall i | 0 <= i < |rows| && Taken(rows, i) ensures Stored(rows[i].verdict.fields, after) {
      TakenIsStored(before, rows, file, after, i);
    }
  }

  /** A completed import job has filled the catalog from the rows of its file. */
  lemma ImportFills(s: System, w: WorkerId, catalog: Catalog, clock: int)
    requires Enabled(s, CommitImport(w, catalog, clock))
    ensures var kind := Head(s, w).kind;
            && kind.ImportJob? && kind.input.Some? && kind.input.value != []
            && Fills(s.catalog, Readings(kind.input.value[1..]), Next(s, CommitImport(w, catalog, clock)).catalog)
  {
    var records := Head(s, w).kind.input.value;
    FileAnswer(records);
    ImportedFills(s.catalog, Readings(records[1..]), Parse(records).file, catalog);
  }
}
