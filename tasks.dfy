/** The periodic tasks: the low-stock alert decision and the replacement of the
    currency-rate table. Sending the mail, logging and fetching the rates over HTTP are
    not part of the model: the team leads' addresses and the rates are parameters and
    the alert is returned as a value. */
module Tasks {
  import opened Wrappers
  import opened InventoryModels
  import DecimalText

  // ---------------------------------------------------------------------------------
  // Low-stock alert

  /** A Product row as the alert reads it. */
  datatype Product = Product(id: int, name: string, minStockLevel: nat)

  /** One row of the grouped query: product, name, summed quantity and minimum. */
  datatype LowStockLine = LowStockLine(product: int, name: string, total: int, minStockLevel: nat)

  /** The query groups inventory rows by product, so a product is considered only when it
      has a row, and it is low when its summed quantity is strictly below its minimum. */
  predicate IsLow(p: Product, rows: seq<InventoryRow>) {
    HasProductRow(rows, p.id) && ProductTotal(rows, p.id) < p.minStockLevel
  }

  function LineFor(p: Product, rows: seq<InventoryRow>): LowStockLine {
    LowStockLine(p.id, p.name, ProductTotal(rows, p.id), p.minStockLevel)
  }

  /** The low-stock query, in the order of the product table. */
  function LowStock(products: seq<Product>, rows: seq<InventoryRow>): (lines: seq<LowStockLine>)
    ensures |lines| <= |products|
  {
    if products == [] then []
    else
      var last := products[|products| - 1];
      LowStock(products[..|products| - 1], rows) + (if IsLow(last, rows) then [LineFor(last, rows)] else [])
  }

  /** A line is reported exactly when it is the line of a low product. */
  lemma {:induction false} LowStockMembership(products: seq<Product>, rows: seq<InventoryRow>, line: LowStockLine)
    ensures line in LowStock(products, rows)
        <==> exists k :: 0 <= k < |products| && IsLow(products[k], rows) && line == LineFor(products[k], rows)
  {
    if products != [] {
      var n := |products|;
      LowStockMembership(products[..n - 1], rows, line);
      if line in LowStock(products, rows) && line !in LowStock(products[..n - 1], rows) {
        assert IsLow(products[n - 1], rows) && line == LineFor(products[n - 1], rows);
      }
      if exists k :: 0 <= k < n && IsLow(products[k], rows) && line == LineFor(products[k], rows) {
        var k :| 0 <= k < n && IsLow(products[k], rows) && line == LineFor(products[k], rows);
        if k < n - 1 {
          assert products[..n - 1][k] == products[k];
        }
      }
    }
  }

  /** Stock exactly at the minimum is not low, and a product without inventory rows is
      never reported, whatever its minimum. */
  lemma LowStockBoundaries(products: seq<Product>, rows: seq<InventoryRow>, p: Product)
    ensures ProductTotal(rows, p.id) >= p.minStockLevel ==> LineFor(p, rows) !in LowStock(products, rows)
    ensures !HasProductRow(rows, p.id) ==> forall line :: line in LowStock(products, rows) ==> line.product != p.id
  {
    LowStockMembership(products, rows, LineFor(p, rows));
    if !HasProductRow(rows, p.id) {
      forall line | line in LowStock(products, rows) ensures line.product != p.id {
        LowStockMembership(products, rows, line);
      }
    }
  }

  const AllAboveMessage := "\U{2705} All products have stock above the minimum level."
  const NoTeamLeadsMessage := "\U{26A0}\U{FE0F} No team leads found to notify."
  const AlertSentMessage := "\U{1F4E9} Stock alert email sent successfully."
  const AlertSubject := "\U{1F534} Product Stock Alert: Below Minimum Level"
  const AlertHeader := "\U{1F6A8} The following products are below the minimum stock level:\n\n"
  const AlertSender := "no-reply@erp.com"

  /** The alert email; a team lead without an address contributes a null recipient. */
  datatype AlertEmail = AlertEmail(subject: string, body: string, fromEmail: string, recipients: seq<Option<string>>)

  /** The three outcomes of the alert task and the message each returns. */
  datatype StockAlert = AllAboveMinimum | NoTeamLeads | AlertSent(email: AlertEmail)
  {
    function Message(): string {
      match this
      case AllAboveMinimum => AllAboveMessage
      case NoTeamLeads => NoTeamLeadsMessage
      case AlertSent(_) => AlertSentMessage
    }
  }

  /** One line of the email body. */
  function LineText(line: LowStockLine): string {
    "- " + line.name + " (Stock: " + DecimalText.IntToString(line.total)
      + ", Min: " + DecimalText.IntToString(line.minStockLevel) + ")"
  }

  function LineTexts(lines: seq<LowStockLine>): (texts: seq<string>)
    ensures |texts| == |lines|
    ensures forall k :: 0 <= k < |lines| ==> texts[k] == LineText(lines[k])
  {
    seq(|lines|, k requires 0 <= k < |lines| => LineText(lines[k]))
  }

  /** "\n".join(parts): empty for no parts, otherwise it starts with the first part and
      ends with the last, with a newline before the last when there are several. */
  function JoinLines(parts: seq<string>): (r: string)
    ensures parts == [] ==> r == ""
    ensures parts != [] ==> |r| >= |parts[0]| && r[..|parts[0]|] == parts[0]
    ensures parts != [] ==> |r| >= |parts[|parts| - 1]| && r[|r| - |parts[|parts| - 1]|..] == parts[|parts| - 1]
    ensures |parts| >= 2 ==> |r| > |parts[|parts| - 1]| && r[|r| - |parts[|parts| - 1]| - 1] == '\n'
  {
    if parts == [] then ""
    else if |parts| == 1 then parts[0]
    else
      var init := JoinLines(parts[..|parts| - 1]);
      assert parts[..|parts| - 1][0] == parts[0];
      init + "\n" + parts[|parts| - 1]
  }

  /** Joining one more part appends a newline and the part; a single part is itself. */
  lemma JoinLinesAppend(parts: seq<string>, part: string)
    ensures JoinLines(parts + [part]) == if parts == [] then part else JoinLines(parts) + "\n" + part
  {
    assert (parts + [part])[..|parts|] == parts;
  }

  /** The alert body: the header, then the lines joined, so that it ends with the text
      of the last low product. */
  function AlertBody(lines: seq<LowStockLine>): (body: string)
    ensures |body| >= |AlertHeader| && body[..|AlertHeader|] == AlertHeader
    ensures lines != [] ==> var last := LineText(lines[|lines| - 1]);
      |body| >= |last| && body[|body| - |last|..] == last
  {
    AlertHeader + JoinLines(LineTexts(lines))
  }

  /** send_emails_when_product_stock_is_below_minimum, its three branches in order: no
      low product, no team lead, or one email to all team leads listing every low
      product. */
  function StockAlertDecision(products: seq<Product>, rows: seq<InventoryRow>, teamLeadEmails: seq<Option<string>>): (r: StockAlert)
    ensures r.AllAboveMinimum? <==> LowStock(products, rows) == []
    ensures r.NoTeamLeads? <==> LowStock(products, rows) != [] && teamLeadEmails == []
    ensures r.AlertSent? <==> LowStock(products, rows) != [] && teamLeadEmails != []
    ensures r.AlertSent? ==>
      r.email == AlertEmail(AlertSubject, AlertBody(LowStock(products, rows)), AlertSender, teamLeadEmails)
  {
    var low := LowStock(products, rows);
    if low == [] then AllAboveMinimum
    else if teamLeadEmails == [] then NoTeamLeads
    else AlertSent(AlertEmail(AlertSubject, AlertBody(low), AlertSender, teamLeadEmails))
  }

  /** The products of the alert task's tests: "Product 1" with 15 units against a minimum
      of 10 and "Product 2" with 2 units against a minimum of 5, one team lead. One email
      is sent, and it lists only Product 2. */
  lemma StockAlertExample()
    ensures var products := [Product(1, "Product 1", 10), Product(2, "Product 2", 5)];
      var rows := [InventoryRow(0, 1, 1, 15), InventoryRow(1, 2, 1, 2)];
      var r := StockAlertDecision(products, rows, [Some("test@test.com")]);
      && r.AlertSent?
      && r.email.subject == "\U{1F534} Product Stock Alert: Below Minimum Level"
      && r.email.body == AlertHeader + "- Product 2 (Stock: 2, Min: 5)"
      && r.Message() == AlertSentMessage
  {
    var products := [Product(1, "Product 1", 10), Product(2, "Product 2", 5)];
    var rows := [InventoryRow(0, 1, 1, 15), InventoryRow(1, 2, 1, 2)];
    assert rows[..1] == [InventoryRow(0, 1, 1, 15)];
    assert ProductTotal(rows, 1) == 15;
    assert ProductTotal(rows, 2) == 2;
    assert HasProductRow(rows, 2) by { assert rows[1].product == 2; }
    assert products[..1] == [Product(1, "Product 1", 10)];
    assert LowStock(products, rows) == [LowStockLine(2, "Product 2", 2, 5)];
    AlertBodyOfProduct2();
  }

  lemma AlertBodyOfProduct2()
    ensures AlertBody([LowStockLine(2, "Product 2", 2, 5)]) == AlertHeader + "- Product 2 (Stock: 2, Min: 5)"
  {
    var line := LowStockLine(2, "Product 2", 2, 5);
    assert DecimalText.IntToString(2) == "2";
    assert DecimalText.IntToString(5) == "5";
    assert LineText(line) == "- Product 2 (Stock: 2, Min: 5)";
    assert LineTexts([line]) == [LineText(line)];
  }

  /** With every product at or above its minimum the task reports so and sends nothing. */
  lemma StockAboveMinimumExample()
    ensures var products := [Product(1, "Product 1", 10), Product(2, "Product 2", 5)];
      var rows := [InventoryRow(0, 1, 1, 15), InventoryRow(1, 2, 1, 15)];
      StockAlertDecision(products, rows, [Some("test@test.com")]).Message() == AllAboveMessage
  {
    var products := [Product(1, "Product 1", 10), Product(2, "Product 2", 5)];
    var rows := [InventoryRow(0, 1, 1, 15), InventoryRow(1, 2, 1, 15)];
    assert rows[..1] == [InventoryRow(0, 1, 1, 15)];
    assert ProductTotal(rows, 1) == 15;
    assert ProductTotal(rows, 2) == 15;
    assert products[..1] == [Product(1, "Product 1", 10)];
  }

  // ---------------------------------------------------------------------------------
  // Currency rates

  /** A CurrencyRate row: an ISO 4217 code and its rate against USD. */
  datatype CurrencyRate = CurrencyRate(code: string, rate: real)

  /** Codes are unique in the table. */
  predicate UniqueCodes(rows: seq<CurrencyRate>) {
    forall i, j :: 0 <= i < j < |rows| ==> rows[i].code != rows[j].code
  }

  /** The table holds exactly the rates of the map: one row per code, with its rate. */
  predicate Holds(rows: seq<CurrencyRate>, rates: map<string, real>) {
    && UniqueCodes(rows)
    && |rows| == |rates|
    && (forall k :: 0 <= k < |rows| ==> rows[k].code in rates && rows[k].rate == rates[rows[k].code])
    && (forall c :: c in rates ==> exists k :: 0 <= k < |rows| && rows[k].code == c)
  }

  /** The CurrencyRate table. */
  class CurrencyTable {
    var rows: seq<CurrencyRate>

    ghost predicate Valid()
      reads this
    {
      UniqueCodes(rows)
    }

    constructor ()
      ensures Valid() && rows == []
    {
      rows := [];
    }

    /** The update inside get_currency_exchange_rates_and_update_currency, given the
        parsed rates: every row is deleted, then one row per entry of the rates is
        inserted, so the table ends up holding exactly those rates. */
    method ReplaceAll(rates: map<string, real>)
      modifies this
      ensures Valid() && Holds(rows, rates)
    {
      rows := [];
      var created: seq<CurrencyRate> := [];
      var remaining := rates.Keys;
      while remaining != {}
        invariant remaining <= rates.Keys
        invariant |created| + |remaining| == |rates.Keys|
        invariant UniqueCodes(created)
        invariant forall k :: 0 <= k < |created| ==>
          created[k].code in rates && created[k].code !in remaining && created[k].rate == rates[created[k].code]
        invariant forall c :: c in rates && c !in remaining ==> exists k :: 0 <= k < |created| && created[k].code == c
        decreases remaining
      {
        var c :| c in remaining;
        ghost var before := created;
        created := created + [CurrencyRate(c, rates[c])];
        remaining := remaining - {c};
        forall d | d in rates && d !in remaining
          ensures exists k :: 0 <= k < |created| && created[k].code == d
        {
          if d == c {
            assert created[|before|].code == d;
          } else {
            var k :| 0 <= k < |before| && before[k].code == d;
            assert created[k].code == d;
          }
        }
      }
      assert |rates.Keys| == |rates|;
      rows := created;
    }
  }

  /** The payload of the currency test (USD 1, EUR 0.96146, GBP 0.793844) replaces the
      three rows that were there: afterwards the table has three rows, with EUR at
      0.96146. */
  lemma CurrencyExample(rows: seq<CurrencyRate>)
    requires Holds(rows, map["USD" := 1.0, "EUR" := 0.96146, "GBP" := 0.793844])
    ensures |rows| == 3
    ensures exists k :: 0 <= k < |rows| && rows[k] == CurrencyRate("EUR", 0.96146)
  {
    var rates := map["USD" := 1.0, "EUR" := 0.96146, "GBP" := 0.793844];
    assert rates.Keys == {"USD", "EUR", "GBP"};
    assert "EUR" in rates;
    var k :| 0 <= k < |rows| && rows[k].code == "EUR";
    assert rows[k] == CurrencyRate("EUR", 0.96146);
  }
}
