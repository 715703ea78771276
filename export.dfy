/**
 * The report builders of ExportUtils: the text of the CSV, the
 * tab-separated ".xlsx", the plain-text report and the JSON export, and
 * the mime type used to share a file. Each report is specified as its list
 * of lines; the builders append piece by piece, as the source does, and are
 * proved to produce exactly those lines. Writing the files, the share
 * intent and the clock are not modelled: number and date printing are the
 * functions in `Formats`, and the generation time is a parameter.
 */
module Export {
  import opened Text
  import opened Domain

  /** String.format("%.2f", _), Double.toString and formatDate. */
  datatype Formats = Formats(twoDecimals: real -> string, number: real -> string, date: int -> string)

  // -----------------------------------------------------------------------
  // Lines
  // -----------------------------------------------------------------------

  /** Each line followed by a line break. */
  function Unlines(lines: seq<string>): string {
    if lines == [] then "" else Unlines(lines[..|lines| - 1]) + lines[|lines| - 1] + "\n"
  }

  lemma UnlinesSnoc(lines: seq<string>, line: string)
    ensures Unlines(lines + [line]) == Unlines(lines) + line + "\n"
  {
    assert (lines + [line])[..|lines|] == lines;
  }

  /** Regrouping appended lines; called in the loops so that the solver does
      not have to rediscover associativity among the other sequence terms. */
  lemma AppendAssoc(a: seq<string>, b: seq<string>, c: seq<string>)
    ensures (a + b) + c == a + (b + c)
  {
  }

  /** The lines `block(i, ps[i])` of every product, one block after the
      other: the body of a forEachIndexed loop that appends lines. */
  function Blocks(ps: seq<Product>, block: (nat, Product) -> seq<string>): seq<string> {
    if ps == [] then [] else Blocks(ps[..|ps| - 1], block) + block(|ps| - 1, ps[|ps| - 1])
  }

  lemma BlocksSnoc(ps: seq<Product>, block: (nat, Product) -> seq<string>, i: nat)
    requires i < |ps|
    ensures Blocks(ps[..i + 1], block) == Blocks(ps[..i], block) + block(i, ps[i])
  {
    assert ps[..i + 1][..i] == ps[..i];
  }

  /** The blocks of a prefix of the list are a prefix of the lines. */
  lemma {:induction false} BlocksPrefix(ps: seq<Product>, block: (nat, Product) -> seq<string>, m: nat)
    requires m <= |ps|
    ensures |Blocks(ps[..m], block)| <= |Blocks(ps, block)|
    ensures Blocks(ps[..m], block) == Blocks(ps, block)[..|Blocks(ps[..m], block)|]
    decreases |ps| - m
  {
    if m == |ps| {
      assert ps[..m] == ps;
    } else {
      var n := |ps| - 1;
      BlocksPrefix(ps[..n], block, m);
      assert ps[..n][..m] == ps[..m];
    }
  }

  /** Line `j` of product `i`'s block follows the blocks of the products
      before it. */
  lemma BlocksPrefixAt(ps: seq<Product>, block: (nat, Product) -> seq<string>, i: nat, j: nat)
    requires i < |ps| && j < |block(i, ps[i])|
    ensures |Blocks(ps[..i], block)| + j < |Blocks(ps, block)|
    ensures Blocks(ps, block)[|Blocks(ps[..i], block)| + j] == block(i, ps[i])[j]
  {
    BlocksSnoc(ps, block, i);
    BlocksPrefix(ps, block, i + 1);
    var before := Blocks(ps[..i], block);
    assert Blocks(ps[..i + 1], block)[|before| + j] == block(i, ps[i])[j];
  }

  /** With blocks of `k` lines each, line `j` of product `i`'s block is line
      `k * i + j`. */
  lemma BlocksAt(ps: seq<Product>, block: (nat, Product) -> seq<string>, k: nat, i: nat, j: nat)
    requires forall m :: 0 <= m < |ps| ==> |block(m, ps[m])| == k
    requires i < |ps| && j < k
    ensures |Blocks(ps, block)| == k * |ps|
    ensures k * i + j < k * |ps| && Blocks(ps, block)[k * i + j] == block(i, ps[i])[j]
  {
    BlocksPrefixAt(ps, block, i, j);
    BlocksLength(ps[..i], block, k);
    BlocksLength(ps, block, k);
  }

  lemma {:induction false} BlocksLength(ps: seq<Product>, block: (nat, Product) -> seq<string>, k: nat)
    requires forall m :: 0 <= m < |ps| ==> |block(m, ps[m])| == k
    ensures |Blocks(ps, block)| == k * |ps|
    decreases |ps|
  {
    if ps != [] {
      var n := |ps| - 1;
      BlocksLength(ps[..n], block, k);
      assert k * |ps| == k * n + k;
    }
  }

  /** Some line of `lines` starts with `prefix`. */
  predicate HasLineStarting(lines: seq<string>, prefix: string) {
    exists i :: 0 <= i < |lines| && StartsWith(lines[i], prefix)
  }

  /** A line made of `prefix` and more starts with it. */
  lemma LineStarting(lines: seq<string>, i: nat, prefix: string, rest: string)
    requires i < |lines| && lines[i] == prefix + rest
    ensures HasLineStarting(lines, prefix)
  {
    StartsWithConcat(prefix, rest);
  }

  /** Three consecutive lines made of the three prefixes and more. */
  lemma ThreeLinesStarting(lines: seq<string>, k: nat, p1: string, r1: string,
                           p2: string, r2: string, p3: string, r3: string)
    requires k + 2 < |lines|
    requires lines[k] == p1 + r1 && lines[k + 1] == p2 + r2 && lines[k + 2] == p3 + r3
    ensures HasLineStarting(lines, p1) && HasLineStarting(lines, p2) && HasLineStarting(lines, p3)
  {
    LineStarting(lines, k, p1, r1);
    LineStarting(lines, k + 1, p2, r2);
    LineStarting(lines, k + 2, p3, r3);
  }

  /** A line of the middle part is a line of the whole. */
  lemma LineStartingWithin(a: seq<string>, b: seq<string>, c: seq<string>, prefix: string)
    requires HasLineStarting(b, prefix)
    ensures HasLineStarting(a + b + c, prefix)
  {
    var i :| 0 <= i < |b| && StartsWith(b[i], prefix);
    assert (a + b + c)[|a| + i] == b[i];
  }

  /** When no line opens with the prefix's first character, no line starts
      with the prefix. */
  lemma NoLineStarting(lines: seq<string>, prefix: string)
    requires |prefix| > 0
    requires forall i :: 0 <= i < |lines| ==> lines[i] == "" || lines[i][0] != prefix[0]
    ensures !HasLineStarting(lines, prefix)
  {
  }

  // -----------------------------------------------------------------------
  // Shared pieces
  // -----------------------------------------------------------------------

  /** The mean product value printed by the summaries. */
  function Average(ps: seq<Product>): real
    requires |ps| > 0
  {
    StockValue(ps) / (|ps| as real)
  }

  /** maxByOrNull { it.price }: the first product of greatest price. */
  function MaxPriceIndex(ps: seq<Product>): (r: nat)
    requires |ps| > 0
    ensures r < |ps|
  {
    var n := |ps| - 1;
    if n == 0 then 0
    else
      var k := MaxPriceIndex(ps[..n]);
      if ps[n].price > ps[k].price then n else k
  }

  /** The product MaxPriceIndex picks costs at least as much as any other,
      and strictly more than every product before it. */
  lemma {:induction false} MaxPriceIndexIsFirstMax(ps: seq<Product>)
    requires |ps| > 0
    ensures forall j :: 0 <= j < |ps| ==> ps[j].price <= ps[MaxPriceIndex(ps)].price
    ensures forall j :: 0 <= j < MaxPriceIndex(ps) ==> ps[j].price < ps[MaxPriceIndex(ps)].price
  {
    var n := |ps| - 1;
    if n > 0 {
      MaxPriceIndexIsFirstMax(ps[..n]);
    }
  }

  /** minByOrNull { it.quantity }: the first product of least quantity. */
  function MinQuantityIndex(ps: seq<Product>): (r: nat)
    requires |ps| > 0
    ensures r < |ps|
  {
    var n := |ps| - 1;
    if n == 0 then 0
    else
      var k := MinQuantityIndex(ps[..n]);
      if ps[n].quantity < ps[k].quantity then n else k
  }

  /** The product MinQuantityIndex picks has no more stock than any other,
      and strictly less than every product before it. */
  lemma {:induction false} MinQuantityIndexIsFirstMin(ps: seq<Product>)
    requires |ps| > 0
    ensures forall j :: 0 <= j < |ps| ==> ps[MinQuantityIndex(ps)].quantity <= ps[j].quantity
    ensures forall j :: 0 <= j < MinQuantityIndex(ps) ==> ps[MinQuantityIndex(ps)].quantity < ps[j].quantity
  {
    var n := |ps| - 1;
    if n > 0 {
      MinQuantityIndexIsFirstMin(ps[..n]);
    }
  }

  /** A rule line of the text report: 80 copies of `c`. */
  function Rule(c: char): (r: string)
    ensures |r| == 80
  {
    var ten := [c, c, c, c, c, c, c, c, c, c];
    var forty := ten + ten + ten + ten;
    forty + forty
  }

  /** Every character of a rule is `c`. */
  lemma RuleChars(c: char)
    ensures forall i :: 0 <= i < 80 ==> Rule(c)[i] == c
  {
    var ten := [c, c, c, c, c, c, c, c, c, c];
    var forty := ten + ten + ten + ten;
    assert forall i :: 0 <= i < 40 ==> forty[i] == c;
  }

  /** The rule lines are what `"=" * 80` and `"-" * 80` produce. */
  lemma RuleIsTimes(c: char)
    ensures Rule(c) == Repeat([c], 80)
  {
    RepeatChar(c, 80);
    RuleChars(c);
  }

  // -----------------------------------------------------------------------
  // CSV
  // -----------------------------------------------------------------------

  const CsvHeader := "Product Name," + "Quantity,Unit Price,Total Value,Created Date"
  const CsvAveragePrefix := "Average Product Value,"

  /** One product row; the name is put in double quotes and not escaped. */
  function CsvRow(p: Product, f: Formats): string {
    "\"" + p.name + "\"," + IntToString(p.quantity) + "," + f.number(p.price) + ","
      + f.twoDecimals(TotalValue(p)) + "," + f.date(p.createdAt)
  }

  function CsvRows(ps: seq<Product>, f: Formats): (r: seq<string>)
    ensures |r| == |ps|
  {
    BlocksLength(ps, (i: nat, p: Product) => [CsvRow(p, f)], 1);
    Blocks(ps, (i: nat, p: Product) => [CsvRow(p, f)])
  }

  lemma CsvRowsSnoc(ps: seq<Product>, f: Formats, i: nat)
    requires i < |ps|
    ensures CsvRows(ps[..i + 1], f) == CsvRows(ps[..i], f) + [CsvRow(ps[i], f)]
  {
    BlocksSnoc(ps, (i: nat, p: Product) => [CsvRow(p, f)], i);
  }

  /** Row `i` of the rows is product `i`'s. */
  lemma CsvRowAt(ps: seq<Product>, f: Formats, i: nat)
    requires i < |ps|
    ensures CsvRows(ps, f)[i] == CsvRow(ps[i], f)
  {
    BlocksAt(ps, (i: nat, p: Product) => [CsvRow(p, f)], 1, i, 0);
  }

  function CsvSummary(ps: seq<Product>, f: Formats): seq<string> {
    ["", "", "SUMMARY", "Total Products," + NatToString(|ps|),
     "Total Stock Value," + f.twoDecimals(StockValue(ps))]
    + if |ps| > 0 then [CsvAveragePrefix + f.twoDecimals(Average(ps))] else []
  }

  function CsvLines(ps: seq<Product>, f: Formats): seq<string> {
    [CsvHeader] + CsvRows(ps, f) + CsvSummary(ps, f)
  }

  /** The text built by exportToCSV. */
  method BuildCsv(products: seq<Product>, f: Formats) returns (content: string)
    ensures content == Unlines(CsvLines(products, f))
  {
    ghost var lines: seq<string>;
    content, lines := AppendLine("", [], CsvHeader);
    content, lines := AppendCsvRows(content, lines, products, f);
    content, lines := AppendLines(content, lines, CsvSummary(products, f));
  }

  /** The forEach loop of exportToCSV: one row per product, in order. */
  method AppendCsvRows(content: string, ghost lines: seq<string>, products: seq<Product>, f: Formats)
    returns (content': string, ghost lines': seq<string>)
    requires content == Unlines(lines)
    ensures lines' == lines + CsvRows(products, f) && content' == Unlines(lines')
  {
    content', lines' := content, lines;
    for i := 0 to |products|
      invariant lines' == lines + CsvRows(products[..i], f)
      invariant content' == Unlines(lines')
    {
      var row := BuildCsvRow(products[i], f);
      content', lines' := AppendLine(content', lines', row);
      CsvRowsSnoc(products, f, i);
      AppendAssoc(lines, CsvRows(products[..i], f), [row]);
    }
    assert products[..|products|] == products;
  }

  /** One row, appended field by field. */
  method BuildCsvRow(product: Product, f: Formats) returns (row: string)
    ensures row == CsvRow(product, f)
  {
    row := "\"" + product.name + "\",";
    row := row + IntToString(product.quantity) + ",";
    row := row + f.number(product.price) + ",";
    row := row + f.twoDecimals(TotalValue(product)) + ",";
    row := row + f.date(product.createdAt);
  }

  /** append(line + "\n"), with the lines written so far. */
  method AppendLine(content: string, ghost lines: seq<string>, line: string)
    returns (content': string, ghost lines': seq<string>)
    requires content == Unlines(lines)
    ensures lines' == lines + [line] && content' == Unlines(lines')
  {
    content' := content + line + "\n";
    lines' := lines + [line];
    UnlinesSnoc(lines, line);
  }

  /** Appends each of `more`, in order, as a line. */
  method AppendLines(content: string, ghost lines: seq<string>, more: seq<string>)
    returns (content': string, ghost lines': seq<string>)
    requires content == Unlines(lines)
    ensures lines' == lines + more && content' == Unlines(lines')
  {
    content', lines' := content, lines;
    for i := 0 to |more|
      invariant lines' == lines + more[..i] && content' == Unlines(lines')
    {
      content', lines' := AppendLine(content', lines', more[i]);
      assert more[..i + 1] == more[..i] + [more[i]];
      AppendAssoc(lines, more[..i], [more[i]]);
    }
    assert more[..|more|] == more;
  }

  /** A row starts with the product's name between double quotes, as it
      is: a name holding a quote or a comma is not escaped. */
  lemma CsvRowQuotesName(p: Product, f: Formats)
    ensures StartsWith(CsvRow(p, f), "\"" + p.name + "\",")
  {
    var row := CsvRow(p, f);
    var prefix := "\"" + p.name + "\",";
    assert row == prefix + row[|prefix|..];
    StartsWithConcat(prefix, row[|prefix|..]);
  }

  /** Where the CSV puts things: the header, one row per product in list
      order, then the summary whose product count is the list size. */
  lemma CsvLayout(ps: seq<Product>, f: Formats)
    ensures |CsvLines(ps, f)| == |ps| + 6 + (if |ps| > 0 then 1 else 0)
    ensures CsvLines(ps, f)[0] == CsvHeader
    ensures forall i :: 0 <= i < |ps| ==> CsvLines(ps, f)[1 + i] == CsvRow(ps[i], f)
    ensures CsvLines(ps, f)[|ps| + 4] == "Total Products," + NatToString(|ps|)
  {
    var rows, summary := CsvRows(ps, f), CsvSummary(ps, f);
    var lines := [CsvHeader] + rows + summary;
    assert lines[|ps| + 4] == summary[3];
    forall i | 0 <= i < |ps| ensures lines[1 + i] == CsvRow(ps[i], f) {
      CsvRowAt(ps, f, i);
      assert lines[1 + i] == rows[i];
    }
  }

  /** The "Average Product Value" line is there exactly when the list is
      not empty. */
  lemma CsvAverageIffNonEmpty(ps: seq<Product>, f: Formats)
    ensures HasLineStarting(CsvLines(ps, f), CsvAveragePrefix) <==> |ps| > 0
  {
    var lines := CsvLines(ps, f);
    CsvLayout(ps, f);
    if |ps| > 0 {
      var summary := CsvSummary(ps, f);
      assert lines[|ps| + 6] == summary[5];
      StartsWithConcat(CsvAveragePrefix, f.twoDecimals(Average(ps)));
      assert StartsWith(lines[|ps| + 6], CsvAveragePrefix);
    } else {
      forall i | 0 <= i < |lines| ensures !StartsWith(lines[i], CsvAveragePrefix) {
        assert lines[i] == "" || lines[i][0] in {'P', 'S', 'T'};
      }
    }
  }

  // -----------------------------------------------------------------------
  // Tab-separated ".xlsx"
  // -----------------------------------------------------------------------

  const ExcelHeader := "Product Name\tQuantity\tUnit Price\t" + "Total Value\tCreated Date"
  const ExcelAveragePrefix := "Average Product Value\t"
  const MostExpensivePrefix := "Most Expensive Item\t"
  const ExcelLowestPrefix := "Lowest Stock\t"

  /** Row `i` (from 0) is numbered `i + 1`. */
  function ExcelRow(i: nat, p: Product, f: Formats): string {
    NatToString(i + 1) + ". " + p.name + "\t" + IntToString(p.quantity) + "\t" + f.number(p.price) + "\t"
      + f.twoDecimals(TotalValue(p)) + "\t" + f.date(p.createdAt)
  }

  function ExcelRows(ps: seq<Product>, f: Formats): (r: seq<string>)
    ensures |r| == |ps|
  {
    BlocksLength(ps, (i: nat, p: Product) => [ExcelRow(i, p, f)], 1);
    Blocks(ps, (i: nat, p: Product) => [ExcelRow(i, p, f)])
  }

  lemma ExcelRowsSnoc(ps: seq<Product>, f: Formats, i: nat)
    requires i < |ps|
    ensures ExcelRows(ps[..i + 1], f) == ExcelRows(ps[..i], f) + [ExcelRow(i, ps[i], f)]
  {
    BlocksSnoc(ps, (i: nat, p: Product) => [ExcelRow(i, p, f)], i);
  }

  /** Row `i` of the rows is product `i`'s, numbered `i + 1`. */
  lemma ExcelRowAt(ps: seq<Product>, f: Formats, i: nat)
    requires i < |ps|
    ensures ExcelRows(ps, f)[i] == ExcelRow(i, ps[i], f)
  {
    BlocksAt(ps, (i: nat, p: Product) => [ExcelRow(i, p, f)], 1, i, 0);
  }

  /** A row starts with its number, the product's name and a tab. */
  lemma ExcelRowStarts(i: nat, p: Product, f: Formats)
    ensures StartsWith(ExcelRow(i, p, f), NatToString(i + 1) + ". " + p.name + "\t")
  {
    var row := ExcelRow(i, p, f);
    var prefix := NatToString(i + 1) + ". " + p.name + "\t";
    assert row == prefix + row[|prefix|..];
    StartsWithConcat(prefix, row[|prefix|..]);
  }

  function ExcelTitle(generated: string): seq<string> {
    ["SMARTSHOP INVENTORY REPORT", "Generated: " + generated, "", "", ExcelHeader]
  }

  /** The three lines only a non-empty list gets. */
  function ExcelExtremes(ps: seq<Product>, f: Formats): seq<string>
    requires |ps| > 0
  {
    var top := ps[MaxPriceIndex(ps)];
    var low := ps[MinQuantityIndex(ps)];
    [ExcelAveragePrefix + f.twoDecimals(Average(ps)) + "\t\t\t",
     MostExpensivePrefix + top.name + "\t" + f.number(top.price) + "\t\t",
     ExcelLowestPrefix + low.name + "\t" + IntToString(low.quantity) + "\t\t"]
  }

  function ExcelSummary(ps: seq<Product>, f: Formats): seq<string> {
    ["", "", "SUMMARY STATISTICS\t\t\t\t", "Total Products\t" + NatToString(|ps|) + "\t\t\t",
     "Total Stock Value\t" + f.twoDecimals(StockValue(ps)) + "\t\t\t"]
    + if |ps| > 0 then ExcelExtremes(ps, f) else []
  }

  function ExcelLines(ps: seq<Product>, generated: string, f: Formats): seq<string> {
    ExcelTitle(generated) + ExcelRows(ps, f) + ExcelSummary(ps, f)
  }

  /** The text built by exportToExcel; `generated` is the report time. */
  method BuildExcel(products: seq<Product>, generated: string, f: Formats) returns (content: string)
    ensures content == Unlines(ExcelLines(products, generated, f))
  {
    ghost var lines: seq<string>;
    content, lines := AppendLines("", [], ExcelTitle(generated));
    assert lines == ExcelTitle(generated);
    content, lines := AppendExcelRows(content, lines, products, f);
    content, lines := AppendLines(content, lines, ExcelSummary(products, f));
  }

  /** The forEachIndexed loop of exportToExcel. */
  method AppendExcelRows(content: string, ghost lines: seq<string>, products: seq<Product>, f: Formats)
    returns (content': string, ghost lines': seq<string>)
    requires content == Unlines(lines)
    ensures lines' == lines + ExcelRows(products, f) && content' == Unlines(lines')
  {
    content', lines' := content, lines;
    for i := 0 to |products|
      invariant lines' == lines + ExcelRows(products[..i], f)
      invariant content' == Unlines(lines')
    {
      var row := BuildExcelRow(i, products[i], f);
      content', lines' := AppendLine(content', lines', row);
      ExcelRowsSnoc(products, f, i);
      AppendAssoc(lines, ExcelRows(products[..i], f), [row]);
    }
    assert products[..|products|] == products;
  }

  /** One numbered row, appended field by field. */
  method BuildExcelRow(i: nat, product: Product, f: Formats) returns (row: string)
    ensures row == ExcelRow(i, product, f)
  {
    row := NatToString(i + 1) + ". " + product.name + "\t";
    row := row + IntToString(product.quantity) + "\t";
    row := row + f.number(product.price) + "\t";
    row := row + f.twoDecimals(TotalValue(product)) + "\t";
    row := row + f.date(product.createdAt);
  }

  /** Rows are numbered 1..n in list order, each number followed by the
      product's name and a tab. */
  lemma ExcelRowsNumbered(ps: seq<Product>, generated: string, f: Formats)
    ensures |ExcelLines(ps, generated, f)| == |ps| + 10 + (if |ps| > 0 then 3 else 0)
    ensures forall i :: 0 <= i < |ps| ==>
      ExcelLines(ps, generated, f)[5 + i] == ExcelRow(i, ps[i], f)
      && StartsWith(ExcelRow(i, ps[i], f), NatToString(i + 1) + ". " + ps[i].name + "\t")
  {
    var title, rows, summary := ExcelTitle(generated), ExcelRows(ps, f), ExcelSummary(ps, f);
    var lines := title + rows + summary;
    assert |title| == 5;
    forall i | 0 <= i < |ps|
      ensures lines[5 + i] == ExcelRow(i, ps[i], f)
      ensures StartsWith(ExcelRow(i, ps[i], f), NatToString(i + 1) + ". " + ps[i].name + "\t")
    {
      ExcelRowAt(ps, f, i);
      assert lines[5 + i] == rows[i];
      ExcelRowStarts(i, ps[i], f);
    }
  }

  /** For a non-empty list the sheet ends with the average, the first
      product of greatest price and the first product of least quantity. */
  lemma ExcelExtremeLines(ps: seq<Product>, generated: string, f: Formats)
    requires |ps| > 0
    ensures |ExcelLines(ps, generated, f)| == |ps| + 13
    ensures ExcelLines(ps, generated, f)[|ps| + 10] ==
      ExcelAveragePrefix + f.twoDecimals(Average(ps)) + "\t\t\t"
    ensures ExcelLines(ps, generated, f)[|ps| + 11] ==
      MostExpensivePrefix + ps[MaxPriceIndex(ps)].name + "\t" + f.number(ps[MaxPriceIndex(ps)].price) + "\t\t"
    ensures ExcelLines(ps, generated, f)[|ps| + 12] ==
      ExcelLowestPrefix + ps[MinQuantityIndex(ps)].name + "\t" + IntToString(ps[MinQuantityIndex(ps)].quantity) + "\t\t"
  {
    var title, rows, summary := ExcelTitle(generated), ExcelRows(ps, f), ExcelSummary(ps, f);
    var extremes := ExcelExtremes(ps, f);
    assert |title| == 5 && |rows| == |ps| && |summary| == 8;
    assert summary[5..] == extremes;
    var lines := title + rows + summary;
    assert lines[|ps| + 10] == extremes[0];
    assert lines[|ps| + 11] == extremes[1];
    assert lines[|ps| + 12] == extremes[2];
  }

  /** An empty list's report has no line starting with `prefix` when no
      fixed line of it starts with the prefix's first character. */
  lemma ExcelEmptyLines(generated: string, f: Formats)
    ensures var lines := ExcelLines([], generated, f);
      |lines| == 10 && forall i :: 0 <= i < 10 ==> lines[i] == "" || lines[i][0] in "SGPT"
  {
    var title, summary := ExcelTitle(generated), ExcelSummary([], f);
    var lines := ExcelLines([], generated, f);
    assert lines == title + summary;
    forall i | 0 <= i < 10 ensures lines[i] == "" || lines[i][0] in "SGPT" {
      if i < 5 {
        assert lines[i] == title[i];
      } else {
        assert lines[i] == summary[i - 5];
      }
    }
  }

  /** The average, most-expensive and lowest-stock lines are there exactly
      when the list is not empty. */
  lemma ExcelExtremesIffNonEmpty(ps: seq<Product>, generated: string, f: Formats)
    ensures HasLineStarting(ExcelLines(ps, generated, f), ExcelAveragePrefix) <==> |ps| > 0
    ensures HasLineStarting(ExcelLines(ps, generated, f), MostExpensivePrefix) <==> |ps| > 0
    ensures HasLineStarting(ExcelLines(ps, generated, f), ExcelLowestPrefix) <==> |ps| > 0
  {
    var lines := ExcelLines(ps, generated, f);
    if |ps| > 0 {
      ExcelExtremeLines(ps, generated, f);
      var top, low := ps[MaxPriceIndex(ps)], ps[MinQuantityIndex(ps)];
      ThreeLinesStarting(lines, |ps| + 10,
        ExcelAveragePrefix, f.twoDecimals(Average(ps)) + "\t\t\t",
        MostExpensivePrefix, top.name + "\t" + f.number(top.price) + "\t\t",
        ExcelLowestPrefix, low.name + "\t" + IntToString(low.quantity) + "\t\t");
    } else {
      ExcelEmptyLines(generated, f);
      assert ps == [];
      NoLineStarting(lines, ExcelAveragePrefix);
      NoLineStarting(lines, MostExpensivePrefix);
      NoLineStarting(lines, ExcelLowestPrefix);
    }
  }

  // -----------------------------------------------------------------------
  // Plain-text report
  // -----------------------------------------------------------------------

  const NoProductsLine := "No products in inventory."
  const TextAveragePrefix := "Average Product Value: $"
  const TextMostExpensivePrefix := "Most Expensive: "
  const TextLowestPrefix := "Lowest Stock: "

  /** The six lines of product `i` (numbered from 1). */
  function TextBlock(i: nat, p: Product, f: Formats): seq<string> {
    ["", NatToString(i + 1) + ". " + p.name,
     "   Quantity: " + IntToString(p.quantity) + " units",
     "   Unit Price: $" + f.twoDecimals(p.price),
     "   Total Value: $" + f.twoDecimals(TotalValue(p)),
     "   Created: " + f.date(p.createdAt)]
  }

  function TextBlocks(ps: seq<Product>, f: Formats): (r: seq<string>)
    ensures |r| == 6 * |ps|
  {
    BlocksLength(ps, (i: nat, p: Product) => TextBlock(i, p, f), 6);
    Blocks(ps, (i: nat, p: Product) => TextBlock(i, p, f))
  }

  function TextHead(ps: seq<Product>, generated: string): seq<string> {
    [Rule('='), "SMARTSHOP - INVENTORY MANAGEMENT REPORT", Rule('='),
     "Generated: " + generated, "Total Products: " + NatToString(|ps|), Rule('='), ""]
  }

  function TextSummary(ps: seq<Product>, f: Formats): seq<string>
    requires |ps| > 0
  {
    var top := ps[MaxPriceIndex(ps)];
    var low := ps[MinQuantityIndex(ps)];
    ["", Rule('-'), "SUMMARY STATISTICS:", Rule('-'),
     "Total Products: " + NatToString(|ps|),
     "Total Stock Value: $" + f.twoDecimals(StockValue(ps)),
     TextAveragePrefix + f.twoDecimals(Average(ps)),
     TextMostExpensivePrefix + top.name + " ($" + f.number(top.price) + ")",
     TextLowestPrefix + low.name + " (" + IntToString(low.quantity) + " units)"]
  }

  /** The "PRODUCT DETAILS:" heading, its rule and the product blocks. */
  function TextDetails(ps: seq<Product>, f: Formats): (r: seq<string>)
    ensures |r| == 2 + 6 * |ps|
  {
    ["PRODUCT DETAILS:", Rule('-')] + TextBlocks(ps, f)
  }

  function TextBody(ps: seq<Product>, f: Formats): seq<string> {
    if ps == [] then [NoProductsLine]
    else TextDetails(ps, f) + TextSummary(ps, f)
  }

  const TextTail := ["", Rule('='), "End of Report", Rule('=')]

  function TextLines(ps: seq<Product>, generated: string, f: Formats): seq<string> {
    TextHead(ps, generated) + TextBody(ps, f) + TextTail
  }

  /** The text built by exportToTextFile. */
  method BuildTextReport(products: seq<Product>, generated: string, f: Formats) returns (content: string)
    ensures content == Unlines(TextLines(products, generated, f))
  {
    ghost var lines: seq<string>;
    content, lines := AppendLines("", [], TextHead(products, generated));
    assert lines == TextHead(products, generated);
    ghost var head := lines;
    if |products| == 0 {
      content, lines := AppendLine(content, lines, NoProductsLine);
    } else {
      var details := ["PRODUCT DETAILS:", Rule('-')];
      content, lines := AppendLines(content, lines, details);
      content, lines := AppendTextBlocks(content, lines, products, f);
      AppendAssoc(head, details, TextBlocks(products, f));
      content, lines := AppendLines(content, lines, TextSummary(products, f));
      AppendAssoc(head, details + TextBlocks(products, f), TextSummary(products, f));
    }
    content, lines := AppendLines(content, lines, TextTail);
  }

  /** The forEachIndexed loop of exportToTextFile. */
  method AppendTextBlocks(content: string, ghost lines: seq<string>, products: seq<Product>, f: Formats)
    returns (content': string, ghost lines': seq<string>)
    requires content == Unlines(lines)
    ensures lines' == lines + TextBlocks(products, f) && content' == Unlines(lines')
  {
    content', lines' := content, lines;
    for i := 0 to |products|
      invariant lines' == lines + TextBlocks(products[..i], f)
      invariant content' == Unlines(lines')
    {
      var block := TextBlock(i, products[i], f);
      content', lines' := AppendLines(content', lines', block);
      TextBlocksSnoc(products, f, i);
      AppendAssoc(lines, TextBlocks(products[..i], f), block);
    }
    assert products[..|products|] == products;
  }

  /** The report says "No products in inventory." exactly when the list is
      empty. */
  lemma TextNoProductsIffEmpty(ps: seq<Product>, generated: string, f: Formats)
    ensures NoProductsLine in TextLines(ps, generated, f) <==> ps == []
  {
    TextFrameAvoids(ps, generated);
    if ps != [] {
      TextSummaryAvoids(ps, f);
      TextBlocksAvoid(ps, f, NoProductsLine);
      assert NoProductsLine !in TextDetails(ps, f);
    }
  }

  /** No line of the title block or of the closing lines says there are no products. */
  lemma TextFrameAvoids(ps: seq<Product>, generated: string)
    ensures NoProductsLine !in TextHead(ps, generated) && NoProductsLine !in TextTail
  {
    var head := TextHead(ps, generated);
    assert NoProductsLine[0] == 'N';
    forall i | 0 <= i < |head| ensures head[i] == "" || head[i][0] != 'N' { }
    forall i | 0 <= i < |TextTail| ensures TextTail[i] == "" || TextTail[i][0] != 'N' { }
  }

  /** No summary line says there are no products. */
  lemma TextSummaryAvoids(ps: seq<Product>, f: Formats)
    requires ps != []
    ensures NoProductsLine !in TextSummary(ps, f)
  {
    var summary := TextSummary(ps, f);
    assert NoProductsLine[0] == 'N';
    forall i | 0 <= i < |summary| ensures summary[i] == "" || summary[i][0] != 'N' { }
  }

  /** A line starting with 'N' is not in any product block. */
  lemma {:induction false} TextBlocksAvoid(ps: seq<Product>, f: Formats, line: string)
    requires |line| > 0 && line[0] == 'N'
    ensures line !in TextBlocks(ps, f)
    decreases |ps|
  {
    if ps != [] {
      var n := |ps| - 1;
      TextBlocksAvoid(ps[..n], f, line);
      var block := TextBlock(n, ps[n], f);
      assert line !in block by {
        assert IsDigit(NatToString(n + 1)[0]);
        forall i | 0 <= i < 6 ensures block[i] == "" || block[i][0] != 'N' { }
      }
    }
  }

  lemma TextBlocksSnoc(ps: seq<Product>, f: Formats, i: nat)
    requires i < |ps|
    ensures TextBlocks(ps[..i + 1], f) == TextBlocks(ps[..i], f) + TextBlock(i, ps[i], f)
  {
    BlocksSnoc(ps, (i: nat, p: Product) => TextBlock(i, p, f), i);
  }

  /** Line `j` of product `i`'s block. */
  lemma TextBlockLine(ps: seq<Product>, f: Formats, i: nat, j: nat)
    requires i < |ps| && j < 6
    ensures TextBlocks(ps, f)[6 * i + j] == TextBlock(i, ps[i], f)[j]
  {
    BlocksAt(ps, (i: nat, p: Product) => TextBlock(i, p, f), 6, i, j);
  }

  /** Product `i`'s block follows the blocks of the products before it, in
      list order: an empty line, then its number and name. */
  lemma TextBlocksInOrder(ps: seq<Product>, f: Formats, i: nat)
    requires i < |ps|
    ensures 6 * i + 1 < |TextBlocks(ps, f)|
    ensures TextBlocks(ps, f)[6 * i] == ""
    ensures TextBlocks(ps, f)[6 * i + 1] == NatToString(i + 1) + ". " + ps[i].name
  {
    TextBlockLine(ps, f, i, 0);
    TextBlockLine(ps, f, i, 1);
  }

  /** With products, the report is the seven title lines, the details, the
      nine summary lines and the four closing lines; so product `i`'s block
      starts on line `9 + 6 i`. */
  lemma TextReportLayout(ps: seq<Product>, generated: string, f: Formats)
    requires ps != []
    ensures |TextLines(ps, generated, f)| == 22 + 6 * |ps|
    ensures forall m :: 0 <= m < 2 + 6 * |ps| ==> TextLines(ps, generated, f)[7 + m] == TextDetails(ps, f)[m]
  {
    var head, details, summary := TextHead(ps, generated), TextDetails(ps, f), TextSummary(ps, f);
    assert TextLines(ps, generated, f) == head + (details + summary) + TextTail;
    assert |head| == 7;
  }

  /** For a non-empty list the summary ends with the average, the first
      product of greatest price and the first product of least quantity,
      just before the four closing lines. */
  lemma TextExtremeLines(ps: seq<Product>, generated: string, f: Formats)
    requires ps != []
    ensures |TextLines(ps, generated, f)| == 22 + 6 * |ps|
    ensures TextLines(ps, generated, f)[15 + 6 * |ps|] == TextAveragePrefix + f.twoDecimals(Average(ps))
    ensures TextLines(ps, generated, f)[16 + 6 * |ps|] ==
      TextMostExpensivePrefix + ps[MaxPriceIndex(ps)].name + " ($" + f.number(ps[MaxPriceIndex(ps)].price) + ")"
    ensures TextLines(ps, generated, f)[17 + 6 * |ps|] ==
      TextLowestPrefix + ps[MinQuantityIndex(ps)].name + " (" + IntToString(ps[MinQuantityIndex(ps)].quantity) + " units)"
  {
    var head, details, summary := TextHead(ps, generated), TextDetails(ps, f), TextSummary(ps, f);
    var lines := head + details + summary + TextTail;
    assert TextLines(ps, generated, f) == lines;
    assert |head| == 7 && |summary| == 9;
    assert lines[15 + 6 * |ps|] == summary[6];
    assert lines[16 + 6 * |ps|] == summary[7];
    assert lines[17 + 6 * |ps|] == summary[8];
  }

  /** The report of an empty list: the title block, the no-products line
      and the closing lines, none opening with 'A', 'M' or 'L'. */
  lemma TextEmptyLines(generated: string, f: Formats)
    ensures var lines := TextLines([], generated, f);
      |lines| == 12 && forall i :: 0 <= i < 12 ==> lines[i] == "" || lines[i][0] in "=SGTNE"
  {
    var head := TextHead([], generated);
    var lines := TextLines([], generated, f);
    assert lines == head + [NoProductsLine] + TextTail;
    RuleChars('=');
    forall i | 0 <= i < 12 ensures lines[i] == "" || lines[i][0] in "=SGTNE" {
      if i < 7 {
        assert lines[i] == head[i];
      } else if i == 7 {
        assert lines[i] == NoProductsLine;
      } else {
        assert lines[i] == TextTail[i - 8];
      }
    }
  }

  /** The average, most-expensive and lowest-stock lines are there exactly
      when the list is not empty. */
  lemma TextExtremesIffNonEmpty(ps: seq<Product>, generated: string, f: Formats)
    ensures HasLineStarting(TextLines(ps, generated, f), TextAveragePrefix) <==> ps != []
    ensures HasLineStarting(TextLines(ps, generated, f), TextMostExpensivePrefix) <==> ps != []
    ensures HasLineStarting(TextLines(ps, generated, f), TextLowestPrefix) <==> ps != []
  {
    if ps != [] {
      TextExtremesPresent(ps, generated, f);
    } else {
      TextEmptyLines(generated, f);
      var lines := TextLines(ps, generated, f);
      NoLineStarting(lines, TextAveragePrefix);
      NoLineStarting(lines, TextMostExpensivePrefix);
      NoLineStarting(lines, TextLowestPrefix);
    }
  }

  lemma TextExtremesPresent(ps: seq<Product>, generated: string, f: Formats)
    requires ps != []
    ensures HasLineStarting(TextLines(ps, generated, f), TextAveragePrefix)
    ensures HasLineStarting(TextLines(ps, generated, f), TextMostExpensivePrefix)
    ensures HasLineStarting(TextLines(ps, generated, f), TextLowestPrefix)
  {
    var head, details, summary := TextHead(ps, generated), TextDetails(ps, f), TextSummary(ps, f);
    assert TextLines(ps, generated, f) == (head + details) + summary + TextTail;
    TextSummaryExtremes(ps, f);
    LineStartingWithin(head + details, summary, TextTail, TextAveragePrefix);
    LineStartingWithin(head + details, summary, TextTail, TextMostExpensivePrefix);
    LineStartingWithin(head + details, summary, TextTail, TextLowestPrefix);
  }

  lemma TextSummaryExtremes(ps: seq<Product>, f: Formats)
    requires ps != []
    ensures HasLineStarting(TextSummary(ps, f), TextAveragePrefix)
    ensures HasLineStarting(TextSummary(ps, f), TextMostExpensivePrefix)
    ensures HasLineStarting(TextSummary(ps, f), TextLowestPrefix)
  {
    var top, low := ps[MaxPriceIndex(ps)], ps[MinQuantityIndex(ps)];
    ThreeLinesStarting(TextSummary(ps, f), 6,
      TextAveragePrefix, f.twoDecimals(Average(ps)),
      TextMostExpensivePrefix, top.name + " ($" + f.number(top.price) + ")",
      TextLowestPrefix, low.name + " (" + IntToString(low.quantity) + " units)");
  }

  // -----------------------------------------------------------------------
  // JSON
  // -----------------------------------------------------------------------

  const ObjectClose := "    }"

  function JsonHead(ps: seq<Product>, generated: string, f: Formats): seq<string> {
    ["{",
     "  \"exportDate\": \"" + generated + "\",",
     "  \"totalProducts\": " + NatToString(|ps|) + ",",
     "  \"totalValue\": " + f.twoDecimals(StockValue(ps)) + ",",
     "  \"products\": ["]
  }

  /** The opening brace and the fields of one product object. */
  function JsonFields(p: Product, f: Formats): seq<string> {
    ["    {",
     "      \"id\": \"" + p.id + "\",",
     "      \"name\": \"" + p.name + "\",",
     "      \"quantity\": " + IntToString(p.quantity) + ",",
     "      \"price\": " + f.number(p.price) + ",",
     "      \"totalValue\": " + f.twoDecimals(TotalValue(p)) + ",",
     "      \"createdAt\": \"" + f.date(p.createdAt) + "\""]
  }

  /** Object `i` of `count`: closed with a comma unless it is the last. */
  function JsonObject(i: nat, p: Product, count: nat, f: Formats): seq<string> {
    JsonFields(p, f) + [if i < count - 1 then ObjectClose + "," else ObjectClose]
  }

  function JsonObjects(ps: seq<Product>, count: nat, f: Formats): (r: seq<string>)
    ensures |r| == 8 * |ps|
  {
    BlocksLength(ps, (i: nat, p: Product) => JsonObject(i, p, count, f), 8);
    Blocks(ps, (i: nat, p: Product) => JsonObject(i, p, count, f))
  }

  const JsonTail := ["  ]", "}"]

  function JsonLines(ps: seq<Product>, generated: string, f: Formats): seq<string> {
    JsonHead(ps, generated, f) + JsonObjects(ps, |ps|, f) + JsonTail
  }

  /** The text built by exportToJSON. */
  method BuildJson(products: seq<Product>, generated: string, f: Formats) returns (content: string)
    ensures content == Unlines(JsonLines(products, generated, f))
  {
    ghost var lines: seq<string>;
    content, lines := AppendLines("", [], JsonHead(products, generated, f));
    assert lines == JsonHead(products, generated, f);
    content, lines := AppendJsonObjects(content, lines, products, f);
    content, lines := AppendLines(content, lines, JsonTail);
  }

  /** The forEachIndexed loop of exportToJSON. */
  method AppendJsonObjects(content: string, ghost lines: seq<string>, products: seq<Product>, f: Formats)
    returns (content': string, ghost lines': seq<string>)
    requires content == Unlines(lines)
    ensures lines' == lines + JsonObjects(products, |products|, f) && content' == Unlines(lines')
  {
    content', lines' := content, lines;
    for i := 0 to |products|
      invariant lines' == lines + JsonObjects(products[..i], |products|, f)
      invariant content' == Unlines(lines')
    {
      var jsonObject := BuildJsonObject(i, products[i], |products|, f);
      content', lines' := AppendLines(content', lines', jsonObject);
      JsonObjectsSnoc(products, |products|, f, i);
      AppendAssoc(lines, JsonObjects(products[..i], |products|, f), jsonObject);
    }
    assert products[..|products|] == products;
  }

  /** One object's lines; the closing brace takes a comma unless the
      product is the last one. */
  method BuildJsonObject(i: nat, product: Product, count: nat, f: Formats) returns (jsonObject: seq<string>)
    ensures jsonObject == JsonObject(i, product, count, f)
  {
    var close := ObjectClose;
    if i < count - 1 {
      close := close + ",";
    }
    jsonObject := JsonFields(product, f) + [close];
  }

  lemma JsonObjectsSnoc(ps: seq<Product>, count: nat, f: Formats, i: nat)
    requires i < |ps|
    ensures JsonObjects(ps[..i + 1], count, f) == JsonObjects(ps[..i], count, f) + JsonObject(i, ps[i], count, f)
  {
    BlocksSnoc(ps, (i: nat, p: Product) => JsonObject(i, p, count, f), i);
  }

  /** The line that closes object `i`. */
  lemma JsonCloseLine(ps: seq<Product>, f: Formats, i: nat)
    requires i < |ps|
    ensures JsonObjects(ps, |ps|, f)[8 * i + 7] == if i < |ps| - 1 then ObjectClose + "," else ObjectClose
  {
    BlocksAt(ps, (i: nat, p: Product) => JsonObject(i, p, |ps|, f), 8, i, 7);
  }

  /** totalProducts is the list size, and every product object but the
      last is followed by a comma. */
  lemma JsonSeparators(ps: seq<Product>, generated: string, f: Formats, i: nat)
    requires i < |ps|
    ensures |JsonLines(ps, generated, f)| == 7 + 8 * |ps|
    ensures JsonLines(ps, generated, f)[2] == "  \"totalProducts\": " + NatToString(|ps|) + ","
    ensures JsonLines(ps, generated, f)[12 + 8 * i] == ObjectClose + "," <==> i < |ps| - 1
    ensures JsonLines(ps, generated, f)[12 + 8 * i] == ObjectClose <==> i == |ps| - 1
  {
    var head, objects := JsonHead(ps, generated, f), JsonObjects(ps, |ps|, f);
    var lines := head + objects + JsonTail;
    assert |head| == 5;
    JsonCloseLine(ps, f, i);
    assert lines[12 + 8 * i] == objects[8 * i + 7];
    assert |ObjectClose + ","| != |ObjectClose|;
  }

  // -----------------------------------------------------------------------
  // File names and mime types
  // -----------------------------------------------------------------------

  datatype ExportKind = Csv | Excel | TextReport | Json

  /** The file name each exporter gives its file; `date` is today's date. */
  function FileName(kind: ExportKind, date: string): string {
    match kind
    case Csv => "SmartShop_Products_" + date + ".csv"
    case Excel => "SmartShop_Inventory_" + date + ".xlsx"
    case TextReport => "SmartShop_Report_" + date + ".txt"
    case Json => "SmartShop_Products_" + date + ".json"
  }

  const XlsxMime := "application/vnd.openxmlformats-" + "officedocument.spreadsheetml.sheet"

  /** The mime type shareFile announces: by the first matching suffix,
      plain text otherwise. */
  function MimeType(fileName: string): (r: string)
    ensures EndsWith(fileName, ".csv") ==> r == "text/csv"
    ensures !EndsWith(fileName, ".csv") && EndsWith(fileName, ".xlsx") ==> r == XlsxMime
    ensures !EndsWith(fileName, ".csv") && !EndsWith(fileName, ".xlsx") && EndsWith(fileName, ".txt")
      ==> r == "text/plain"
    ensures (!EndsWith(fileName, ".csv") && !EndsWith(fileName, ".xlsx") && !EndsWith(fileName, ".txt")
             && EndsWith(fileName, ".json")) ==> r == "application/json"
    ensures !EndsWith(fileName, ".csv") && !EndsWith(fileName, ".xlsx") && !EndsWith(fileName, ".json")
      ==> r == "text/plain"
  {
    if EndsWith(fileName, ".csv") then "text/csv"
    else if EndsWith(fileName, ".xlsx") then XlsxMime
    else if EndsWith(fileName, ".txt") then "text/plain"
    else if EndsWith(fileName, ".json") then "application/json"
    else "text/plain"
  }

  function KindMime(kind: ExportKind): string {
    match kind
    case Csv => "text/csv"
    case Excel => XlsxMime
    case TextReport => "text/plain"
    case Json => "application/json"
  }

  lemma EndsWithConcat(s: string, suffix: string)
    ensures EndsWith(s + suffix, suffix)
  {
    assert (s + suffix)[|s|..] == suffix;
  }

  /** A suffix is not there when the character before the end differs. */
  lemma NotEndsWithAt(s: string, suffix: string, k: nat)
    requires k < |suffix| && k < |s| && s[|s| - 1 - k] != suffix[|suffix| - 1 - k]
    ensures !EndsWith(s, suffix)
  {
    if EndsWith(s, suffix) {
      EndsWithAt(s, suffix, k);
    }
  }

  lemma EndsWithAt(s: string, suffix: string, k: nat)
    requires EndsWith(s, suffix) && k < |suffix|
    ensures s[|s| - 1 - k] == suffix[|suffix| - 1 - k]
  {
    assert s[|s| - |suffix|..][|suffix| - 1 - k] == s[|s| - 1 - k];
  }

  /** Every exported file is shared with the mime type of its format. */
  lemma ExportedFileMime(kind: ExportKind, date: string)
    ensures MimeType(FileName(kind, date)) == KindMime(kind)
  {
    var name := FileName(kind, date);
    var n := |name|;
    match kind
    case Csv =>
      EndsWithConcat("SmartShop_Products_" + date, ".csv");
    case Excel =>
      NotEndsWithAt(name, ".csv", 0);
      EndsWithConcat("SmartShop_Inventory_" + date, ".xlsx");
    case TextReport =>
      NotEndsWithAt(name, ".csv", 0);
      NotEndsWithAt(name, ".xlsx", 0);
      EndsWithConcat("SmartShop_Report_" + date, ".txt");
    case Json =>
      NotEndsWithAt(name, ".csv", 0);
      NotEndsWithAt(name, ".xlsx", 0);
      NotEndsWithAt(name, ".txt", 0);
      EndsWithConcat("SmartShop_Products_" + date, ".json");
  }
}
