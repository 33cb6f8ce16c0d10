/**
 * The report texts of src/app/core/services/export.service.ts: the two CSV
 * files and the rows and summary of the HTML report. Number and date
 * rendering are the parameters in `Formatters`; the download itself is not
 * modelled.
 */
module Export {
  import opened Wrappers
  import opened Models
  import opened Strings

  /**
   * `fixed2` is `toFixed(2)`, `num` is `toString()`, `date` is
   * `new Date(ms).toLocaleDateString()` and `locale2` is the two-decimal
   * `toLocaleString('en-US', ...)`.
   */
  datatype Formatters = Formatters(
    fixed2: real -> string,
    num: real -> string,
    date: int -> string,
    locale2: real -> string)

  const PORTFOLIO_HEADERS: seq<string> :=
    ["Symbol", "Name", "Quantity", "Purchase Price", "Current Price", "Total Value", "Profit/Loss", "P/L %"]

  const TRANSACTION_HEADERS: seq<string> := ["Date", "Type", "Symbol", "Quantity", "Price", "Total"]

  /** A money field: a dollar sign and two decimals. */
  function Money(x: real, f: Formatters): (s: string)
    ensures |s| >= 1 && s[0] == '$' && s[1..] == f.fixed2(x)
  {
    "$" + f.fixed2(x)
  }

  /** A percentage field: two decimals and a percent sign. */
  function Percent(x: real, f: Formatters): (s: string)
    ensures |s| >= 1 && s[|s| - 1] == '%' && s[..|s| - 1] == f.fixed2(x)
  {
    f.fixed2(x) + "%"
  }

  /** One asset line of the portfolio CSV, in header order. */
  function PortfolioRow(a: PortfolioAsset, f: Formatters): (row: seq<string>)
    ensures |row| == |PORTFOLIO_HEADERS|
  {
    [a.symbol, a.name, f.num(a.quantity), Money(a.averageBuyPrice, f), Money(a.currentPrice, f),
     Money(a.totalValue, f), Money(a.profitLoss, f), Percent(a.profitLossPercentage, f)]
  }

  /** The summary line: TOTAL, four blanks, the two totals and a blank. */
  function TotalRow(totalValue: real, profitLoss: real, f: Formatters): (row: seq<string>)
    ensures |row| == |PORTFOLIO_HEADERS|
  {
    ["TOTAL", "", "", "", "", Money(totalValue, f), Money(profitLoss, f), ""]
  }

  function PortfolioRows(assets: seq<PortfolioAsset>, f: Formatters): (rows: seq<seq<string>>)
    ensures |rows| == |assets|
  {
    if |assets| == 0 then []
    else PortfolioRows(assets[..|assets| - 1], f) + [PortfolioRow(assets[|assets| - 1], f)]
  }

  lemma {:induction false} PortfolioRowsPointwise(assets: seq<PortfolioAsset>, f: Formatters)
    ensures forall i :: 0 <= i < |assets| ==> PortfolioRows(assets, f)[i] == PortfolioRow(assets[i], f)
  {
    if |assets| > 0 {
      PortfolioRowsPointwise(assets[..|assets| - 1], f);
    }
  }

  /** The field lists of every line of the portfolio CSV; the blank line is the empty list. */
  function PortfolioTable(assets: seq<PortfolioAsset>, totalValue: real, profitLoss: real, f: Formatters): seq<seq<string>>
  {
    [PORTFOLIO_HEADERS] + PortfolioRows(assets, f) + [[]] + [TotalRow(totalValue, profitLoss, f)]
  }

  /** One transaction line: a missing symbol becomes the empty field. */
  function TransactionRow(tx: Transaction, f: Formatters): (row: seq<string>)
    ensures |row| == |TRANSACTION_HEADERS|
    ensures tx.symbol.None? ==> row[2] == ""
  {
    [f.date(tx.date), tx.kind, tx.symbol.GetOr(""), f.num(tx.amount), Money(tx.price_per_unit, f), Money(tx.total, f)]
  }

  function TransactionRows(txs: seq<Transaction>, f: Formatters): (rows: seq<seq<string>>)
    ensures |rows| == |txs|
  {
    if |txs| == 0 then []
    else TransactionRows(txs[..|txs| - 1], f) + [TransactionRow(txs[|txs| - 1], f)]
  }

  lemma {:induction false} TransactionRowsPointwise(txs: seq<Transaction>, f: Formatters)
    ensures forall i :: 0 <= i < |txs| ==> TransactionRows(txs, f)[i] == TransactionRow(txs[i], f)
  {
    if |txs| > 0 {
      TransactionRowsPointwise(txs[..|txs| - 1], f);
    }
  }

  function TransactionTable(txs: seq<Transaction>, f: Formatters): seq<seq<string>>
  {
    [TRANSACTION_HEADERS] + TransactionRows(txs, f)
  }

  /** `row.join(',')` for every row. */
  function CsvLines(table: seq<seq<string>>): (lines: seq<string>)
    ensures |lines| == |table|
  {
    if |table| == 0 then []
    else CsvLines(table[..|table| - 1]) + [Join(table[|table| - 1], ",")]
  }

  lemma {:induction false} CsvLinesPointwise(table: seq<seq<string>>)
    ensures forall i :: 0 <= i < |table| ==> CsvLines(table)[i] == Join(table[i], ",")
  {
    if |table| > 0 {
      CsvLinesPointwise(table[..|table| - 1]);
    }
  }

  /** The file: the lines joined with a newline, without any quoting. */
  function Csv(table: seq<seq<string>>): string
  {
    Join(CsvLines(table), "\n")
  }

  /** No field of the table contains `c`. */
  predicate FieldsAvoid(table: seq<seq<string>>, c: char)
  {
    forall i, j :: 0 <= i < |table| && 0 <= j < |table[i]| ==> c !in table[i][j]
  }

  /** `exportPortfolioToCSV` up to the download: the rows, then the blank and TOTAL rows pushed on. */
  method ExportPortfolioToCsv(assets: seq<PortfolioAsset>, totalValue: real, profitLoss: real, f: Formatters)
    returns (csvContent: string)
    ensures csvContent == Csv(PortfolioTable(assets, totalValue, profitLoss, f))
  {
    var rows := PortfolioRows(assets, f);
    rows := rows + [[]];
    rows := rows + [TotalRow(totalValue, profitLoss, f)];
    assert [PORTFOLIO_HEADERS] + rows == PortfolioTable(assets, totalValue, profitLoss, f);
    csvContent := Csv([PORTFOLIO_HEADERS] + rows);
  }

  /** `exportTransactionsToCSV` up to the download. */
  method ExportTransactionsToCsv(txs: seq<Transaction>, f: Formatters) returns (csvContent: string)
    ensures csvContent == Csv(TransactionTable(txs, f))
  {
    var rows := TransactionRows(txs, f);
    csvContent := Csv([TRANSACTION_HEADERS] + rows);
  }

  /** The portfolio file has the header, one line per asset, a blank line and TOTAL, all of 8 fields but the blank. */
  lemma PortfolioTableShape(assets: seq<PortfolioAsset>, totalValue: real, profitLoss: real, f: Formatters)
    ensures var t := PortfolioTable(assets, totalValue, profitLoss, f);
            |t| == |assets| + 3 &&
            t[0] == PORTFOLIO_HEADERS && |PORTFOLIO_HEADERS| == 8 &&
            (forall i :: 0 <= i < |assets| ==> t[i + 1] == PortfolioRow(assets[i], f) && |t[i + 1]| == 8) &&
            t[|assets| + 1] == [] &&
            t[|assets| + 2] == ["TOTAL", "", "", "", "", Money(totalValue, f), Money(profitLoss, f), ""]
  {
    PortfolioRowsPointwise(assets, f);
  }

  /** The transactions file has the header and one line of 6 fields per transaction. */
  lemma TransactionTableShape(txs: seq<Transaction>, f: Formatters)
    ensures var t := TransactionTable(txs, f);
            |t| == |txs| + 1 && t[0] == TRANSACTION_HEADERS && |TRANSACTION_HEADERS| == 6 &&
            forall i :: 0 <= i < |txs| ==> t[i + 1] == TransactionRow(txs[i], f) && |t[i + 1]| == 6
  {
    TransactionRowsPointwise(txs, f);
  }

  /** A newline is in a line exactly when it is in one of the line's fields. */
  lemma LineAvoids(table: seq<seq<string>>, c: char)
    requires c != ','
    ensures StringsAvoid(CsvLines(table), c) <==> FieldsAvoid(table, c)
  {
    var lines := CsvLines(table);
    CsvLinesPointwise(table);
    if FieldsAvoid(table, c) {
      forall i | 0 <= i < |table|
        ensures c !in lines[i]
      {
        LineAvoidsOne(table[i], c);
      }
      assert StringsAvoid(lines, c);
    } else {
      var i, j :| 0 <= i < |table| && 0 <= j < |table[i]| && c in table[i][j];
      LineAvoidsOne(table[i], c);
      assert c in lines[i];
      assert !StringsAvoid(lines, c);
    }
  }

  /** No string of the list contains `c`. */
  predicate StringsAvoid(xs: seq<string>, c: char)
  {
    forall i :: 0 <= i < |xs| ==> c !in xs[i]
  }

  lemma LineAvoidsOne(row: seq<string>, c: char)
    requires c != ','
    ensures c !in Join(row, ",") <==> forall j :: 0 <= j < |row| ==> c !in row[j]
  {
    JoinChars(row, ",", c);
  }

  /** Splitting a non-empty file on newlines gives back its lines exactly when no field holds a newline. */
  lemma LinesRoundTrip(table: seq<seq<string>>)
    requires |table| >= 1
    ensures Split(Csv(table), '\n') == CsvLines(table) <==> FieldsAvoid(table, '\n')
  {
    SplitJoin(CsvLines(table), '\n');
    LineAvoids(table, '\n');
  }

  /** Splitting a line of at least one field on commas gives back its fields exactly when none holds a comma. */
  lemma FieldsRoundTrip(row: seq<string>)
    requires |row| >= 1
    ensures Split(Join(row, ","), ',') == row <==> forall j :: 0 <= j < |row| ==> ',' !in row[j]
  {
    SplitJoin(row, ',');
  }

  lemma HeadersAvoid(c: char)
    requires c == ',' || c == '\n'
    ensures forall j :: 0 <= j < |PORTFOLIO_HEADERS| ==> c !in PORTFOLIO_HEADERS[j]
    ensures forall j :: 0 <= j < |TRANSACTION_HEADERS| ==> c !in TRANSACTION_HEADERS[j]
  {
  }

  /** A file none of whose fields holds a comma or a newline reads back line by line and field by field. */
  lemma TableReadsBack(t: seq<seq<string>>)
    requires |t| >= 1 && FieldsAvoid(t, ',') && FieldsAvoid(t, '\n')
    ensures Split(Csv(t), '\n') == CsvLines(t)
    ensures forall i :: 0 <= i < |t| && |t[i]| >= 1 ==> Split(CsvLines(t)[i], ',') == t[i]
  {
    LinesRoundTrip(t);
    CsvLinesPointwise(t);
    forall i | 0 <= i < |t| && |t[i]| >= 1
      ensures Split(CsvLines(t)[i], ',') == t[i]
    {
      RowReadsBack(t, i);
    }
  }

  lemma RowReadsBack(t: seq<seq<string>>, i: nat)
    requires i < |t| && |t[i]| >= 1 && FieldsAvoid(t, ',')
    ensures Split(Join(t[i], ","), ',') == t[i]
  {
    assert forall j :: 0 <= j < |t[i]| ==> ',' !in t[i][j];
    FieldsRoundTrip(t[i]);
  }

  /**
   * When no field holds a comma or a newline, the portfolio file reads back
   * as its header, its asset rows field by field, a blank line and TOTAL.
   */
  lemma PortfolioCsvReadsBack(assets: seq<PortfolioAsset>, totalValue: real, profitLoss: real, f: Formatters)
    requires var t := PortfolioTable(assets, totalValue, profitLoss, f);
             FieldsAvoid(t, ',') && FieldsAvoid(t, '\n')
    ensures var lines := Split(Csv(PortfolioTable(assets, totalValue, profitLoss, f)), '\n');
            |lines| == |assets| + 3 &&
            Split(lines[0], ',') == PORTFOLIO_HEADERS &&
            (forall i :: 0 <= i < |assets| ==> Split(lines[i + 1], ',') == PortfolioRow(assets[i], f)) &&
            lines[|assets| + 1] == "" &&
            Split(lines[|assets| + 2], ',') == TotalRow(totalValue, profitLoss, f)
  {
    var t := PortfolioTable(assets, totalValue, profitLoss, f);
    PortfolioTableShape(assets, totalValue, profitLoss, f);
    TableReadsBack(t);
    CsvLinesPointwise(t);
    var lines := CsvLines(t);
    forall i | 0 <= i < |assets|
      ensures Split(lines[i + 1], ',') == PortfolioRow(assets[i], f)
    {
      assert t[i + 1] == PortfolioRow(assets[i], f);
      assert |t[i + 1]| >= 1;
    }
  }

  /** The same for the transactions file: the header and every transaction field by field. */
  lemma TransactionsCsvReadsBack(txs: seq<Transaction>, f: Formatters)
    requires var t := TransactionTable(txs, f);
             FieldsAvoid(t, ',') && FieldsAvoid(t, '\n')
    ensures var lines := Split(Csv(TransactionTable(txs, f)), '\n');
            |lines| == |txs| + 1 &&
            Split(lines[0], ',') == TRANSACTION_HEADERS &&
            forall i :: 0 <= i < |txs| ==> Split(lines[i + 1], ',') == TransactionRow(txs[i], f)
  {
    var t := TransactionTable(txs, f);
    TransactionTableShape(txs, f);
    TableReadsBack(t);
    var lines := CsvLines(t);
    forall i | 0 <= i < |txs|
      ensures Split(lines[i + 1], ',') == TransactionRow(txs[i], f)
    {
      assert t[i + 1] == TransactionRow(txs[i], f);
      assert |t[i + 1]| == 6;
    }
  }

  /** A name with a comma shifts that asset's columns: its line no longer reads back as its fields. */
  lemma CommaBreaksRow(a: PortfolioAsset, f: Formatters)
    requires ',' in a.name
    ensures Split(Join(PortfolioRow(a, f), ","), ',') != PortfolioRow(a, f)
  {
    FieldsRoundTrip(PortfolioRow(a, f));
    assert PortfolioRow(a, f)[1] == a.name;
  }

  /** `>= 0 ? '+' : ''`. */
  function SignPrefix(v: real): string
  {
    if v >= 0.0 then "+" else ""
  }

  /** `>= 0 ? 'positive' : 'negative'`. */
  function SignClass(v: real): string
  {
    if v >= 0.0 then "positive" else "negative"
  }

  /** The plus sign and the green class go together, exactly for values of at least zero. */
  lemma SignsAgree(v: real)
    ensures SignPrefix(v) == "+" <==> v >= 0.0
    ensures SignClass(v) == "positive" <==> v >= 0.0
    ensures SignPrefix(v) == "" <==> SignClass(v) == "negative"
  {
  }

  /** A summary card of the report. */
  datatype Card = Card(cssClass: string, title: string, value: string)

  /** The three summary cards: total value, signed profit/loss, signed return. */
  function SummaryCards(totalValue: real, profitLoss: real, profitLossPercentage: real, f: Formatters): (cards: seq<Card>)
    ensures |cards| == 3
    ensures cards[0].cssClass == "summary-card"
    ensures cards[1].cssClass == "summary-card positive" <==> profitLoss >= 0.0
    ensures |cards[1].value| > 0 && (cards[1].value[0] == '+' <==> profitLoss >= 0.0)
    ensures cards[2].cssClass == "summary-card positive" <==> profitLossPercentage >= 0.0
    ensures profitLossPercentage >= 0.0 ==> |cards[2].value| > 0 && cards[2].value[0] == '+'
  {
    CardClass(profitLoss);
    CardClass(profitLossPercentage);
    SignedFirst(profitLoss, "$" + f.locale2(profitLoss));
    SignedFirst(profitLossPercentage, f.fixed2(profitLossPercentage) + "%");
    [Card("summary-card", "Total Value", "$" + f.locale2(totalValue)),
     Card("summary-card " + SignClass(profitLoss), "Profit/Loss", SignPrefix(profitLoss) + "$" + f.locale2(profitLoss)),
     Card("summary-card " + SignClass(profitLossPercentage), "Return",
          SignPrefix(profitLossPercentage) + f.fixed2(profitLossPercentage) + "%")]
  }

  lemma CardClass(v: real)
    ensures "summary-card " + SignClass(v) == "summary-card positive" <==> v >= 0.0
  {
    assert ("summary-card " + "negative")[13] == 'n';
  }

  lemma SignedFirst(v: real, text: string)
    requires |text| > 0
    ensures |SignPrefix(v) + text| > 0
    ensures v >= 0.0 ==> (SignPrefix(v) + text)[0] == '+'
    ensures v < 0.0 ==> (SignPrefix(v) + text)[0] == text[0]
  {
  }

  /** A coloured cell of an asset row. */
  function SignedCell(v: real, text: string): string
  {
    "<td class=\"" + SignClass(v) + "\">\n            " + SignPrefix(v) + text + "\n          </td>"
  }

  /** The table row of one asset. */
  function HtmlRow(a: PortfolioAsset, f: Formatters): string
  {
    "\n        <tr>\n          <td><strong>" + a.symbol + "</strong><br><small style=\"color: #64748b;\">" + a.name +
    "</small></td>\n          <td>" + f.num(a.quantity) + "</td>\n          <td>" + Money(a.averageBuyPrice, f) +
    "</td>\n          <td>" + Money(a.currentPrice, f) + "</td>\n          <td><strong>" + Money(a.totalValue, f) +
    "</strong></td>\n          " + SignedCell(a.profitLoss, Money(a.profitLoss, f)) + "\n          " +
    SignedCell(a.profitLossPercentage, Percent(a.profitLossPercentage, f)) + "\n        </tr>\n      "
  }

  function HtmlRows(assets: seq<PortfolioAsset>, f: Formatters): (rows: seq<string>)
    ensures |rows| == |assets|
  {
    if |assets| == 0 then []
    else HtmlRows(assets[..|assets| - 1], f) + [HtmlRow(assets[|assets| - 1], f)]
  }

  lemma {:induction false} HtmlRowsConcat(xs: seq<PortfolioAsset>, ys: seq<PortfolioAsset>, f: Formatters)
    ensures HtmlRows(xs + ys, f) == HtmlRows(xs, f) + HtmlRows(ys, f)
  {
    if |ys| > 0 {
      assert (xs + ys)[..|xs + ys| - 1] == xs + ys[..|ys| - 1];
      HtmlRowsConcat(xs, ys[..|ys| - 1], f);
    } else {
      assert xs + ys == xs;
    }
  }

  /** The table body: `assets.map(...).join('')`. */
  function TableBody(assets: seq<PortfolioAsset>, f: Formatters): string
  {
    Concat(HtmlRows(assets, f))
  }

  lemma {:induction false} ConcatAppend(xs: seq<string>, ys: seq<string>)
    ensures Concat(xs + ys) == Concat(xs) + Concat(ys)
  {
    if |xs| > 0 {
      assert (xs + ys)[1..] == xs[1..] + ys;
      ConcatAppend(xs[1..], ys);
    } else {
      assert xs + ys == ys;
    }
  }

  /**
   * One row per asset, in input order: the body of a list is the bodies of
   * its parts one after the other, and a single asset gives its own row.
   */
  lemma TableBodyInOrder(xs: seq<PortfolioAsset>, ys: seq<PortfolioAsset>, a: PortfolioAsset, f: Formatters)
    ensures TableBody(xs + ys, f) == TableBody(xs, f) + TableBody(ys, f)
    ensures TableBody([a], f) == HtmlRow(a, f)
    ensures TableBody([], f) == ""
  {
    HtmlRowsConcat(xs, ys, f);
    ConcatAppend(HtmlRows(xs, f), HtmlRows(ys, f));
    assert Concat(HtmlRows([a], f)) == HtmlRow(a, f) + Concat([]);
  }
}
