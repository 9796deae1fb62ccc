/**
 * The quote of scripts/generateEstimate.js: the header row taken from the
 * template sheet (or seven default headers), one row per work item priced
 * at 80000 yen per person-day, then the subtotal, 10% consumption tax and
 * total rows, and the array of arrays written to the sheet.
 */
module Estimate {
  import opened Wrappers
  import opened Rounding
  import opened JsString

  /** A spreadsheet cell value: a number or a string. */
  datatype Cell = Num(n: int) | Text(s: string)

  datatype Item = Item(item: string, detail: string, qty: int, unit: string)

  type Row = map<string, Cell>

  /** Yen per person-day. */
  const UNIT_DAY: int := 80000

  const ITEMS: seq<Item> := [
    Item("要件定義", "業務要件整理、画面・機能一覧、非機能要件", 10, "人日"),
    Item("基本設計", "画面設計、API仕様書、データモデル設計", 10, "人日"),
    Item("詳細設計", "採点ロジック・可視化・AI連携の詳細仕様", 12, "人日"),
    Item("フロントエンド実装", "Next.js + TypeScript + Tailwind + shadcn/ui", 25, "人日"),
    Item("可視化実装", "レーダー/棒/経年グラフ、比較・ダッシュボード", 8, "人日"),
    Item("採点ロジック実装", "57項目採点、逆転処理、判定ロジック、テスト", 8, "人日"),
    Item("バックエンド(API)実装", "Amplify Gen2, GraphQL/REST, DynamoDB", 18, "人日"),
    Item("認証・権限", "Amplify Auth、ロール設計、アクセス制御", 6, "人日"),
    Item("AI連携", "Bedrock(Claude)プロンプト設計・実装・RAG", 12, "人日"),
    Item("セキュリティ対応", "個人情報保護、匿名化、WAF、暗号化", 6, "人日"),
    Item("テスト", "単体/結合/E2E、自動化、カバレッジ>=80%", 12, "人日"),
    Item("ドキュメント", "README、運用設計、API/スキーマ、手順書", 6, "人日"),
    Item("CI/CD・デプロイ", "Amplify Console、自動デプロイ、環境分離", 5, "人日"),
    Item("チューニング", "パフォーマンス最適化、バンドル、キャッシュ", 5, "人日"),
    Item("運用監視", "CloudWatch/アラート設計、ログ可視化", 4, "人日"),
    Item("PM/進行管理", "スプリント運営、課題管理、レビュー", 12, "人日"),
    Item("予備工数", "仕様変更・リスクバッファ(約10%)", 14, "人日")]

  /** getDefaultHeaders */
  const DEFAULT_HEADERS: seq<string> := ["項目", "内容", "数量", "単位", "単価", "金額", "備考"]

  // ---------------------------------------------------------------- header row

  /** A cell read from the template: None for a hole, else its text. */
  type SheetRow = seq<Option<string>>

  /** !!c: a present cell with non-empty text. */
  predicate Truthy(c: Option<string>) {
    c.Some? && c.value != ""
  }

  predicate HasTruthy(r: SheetRow) {
    exists i :: 0 <= i < |r| && Truthy(r[i])
  }

  /** rows.find(r => r.some(c => !!c)), as an index. */
  function FindHeaderRow(rows: seq<SheetRow>): (r: Option<nat>)
    ensures r.Some? ==> r.value < |rows| && HasTruthy(rows[r.value]) && forall j :: 0 <= j < r.value ==> !HasTruthy(rows[j])
    ensures r.None? ==> forall j :: 0 <= j < |rows| ==> !HasTruthy(rows[j])
  {
    if rows == [] then None
    else if HasTruthy(rows[0]) then Some(0)
    else match FindHeaderRow(rows[1..])
      case None => None
      case Some(k) => Some(k + 1)
  }

  /** (h || '').toString().trim() over a row. */
  function TrimCells(r: SheetRow): (hs: seq<string>)
    ensures |hs| == |r|
  {
    seq(|r|, i requires 0 <= i < |r| => if r[i].Some? then Trim(r[i].value) else "")
  }

  /**
   * readTemplateHeaders on the first sheet's rows; None stands for a
   * template that is missing or cannot be read.
   */
  function TemplateHeaders(sheet: Option<seq<SheetRow>>): Option<seq<string>> {
    match sheet
    case None => None
    case Some(rows) =>
      match FindHeaderRow(rows)
      case None => None
      case Some(k) => Some(TrimCells(rows[k]))
  }

  /** readTemplateHeaders(templatePath) || getDefaultHeaders() */
  function Headers(sheet: Option<seq<SheetRow>>): seq<string> {
    TemplateHeaders(sheet).GetOr(DEFAULT_HEADERS)
  }

  /**
   * The headers are the trimmed cells of the first row with a non-empty
   * cell, and without such a row (or without a readable template) the
   * seven defaults; a header taken from the template has no white space at
   * either end.
   */
  lemma HeadersSpec(sheet: Option<seq<SheetRow>>)
    ensures sheet.Some? && FindHeaderRow(sheet.value).Some? ==>
      var k := FindHeaderRow(sheet.value).value;
      Headers(sheet) == TrimCells(sheet.value[k])
      && (forall j :: 0 <= j < k ==> !HasTruthy(sheet.value[j])) && HasTruthy(sheet.value[k])
    ensures sheet.None? || (forall j :: 0 <= j < |sheet.value| ==> !HasTruthy(sheet.value[j])) ==>
      Headers(sheet) == DEFAULT_HEADERS && |Headers(sheet)| == 7
    ensures TemplateHeaders(sheet).Some? ==>
      forall i :: 0 <= i < |Headers(sheet)| ==> Headers(sheet)[i] == [] || !IsWhitespace(Headers(sheet)[i][0])
  {
    if sheet.Some? && FindHeaderRow(sheet.value).None? {
      assert TemplateHeaders(sheet).None?;
    }
  }

  // ---------------------------------------------------------------- rows

  /** The cell of an item row under header h (the switch). */
  function ItemCell(h: string, it: Item, amount: int): Cell {
    if h == "項目" then Text(it.item)
    else if h == "内容" then Text(it.detail)
    else if h == "数量" then Num(it.qty)
    else if h == "単位" then Text(it.unit)
    else if h == "単価" then Num(UNIT_DAY)
    else if h == "金額" then Num(amount)
    else Text("")
  }

  /** The cell of a summary row under header h. */
  function SummaryCell(h: string, caption: string, value: int): Cell {
    if h == "項目" then Text(caption) else if h == "金額" then Num(value) else Text("")
  }

  function Amount(it: Item): int {
    it.qty * UNIT_DAY
  }

  /** The sum of the amounts. */
  function Subtotal(items: seq<Item>): int {
    if items == [] then 0 else Subtotal(items[..|items| - 1]) + Amount(items[|items| - 1])
  }

  /** Math.round(subtotal * 0.1) */
  function Tax(subtotal: int): int {
    RoundDiv(subtotal, 10)
  }

  /** The row object of an item: every header a key. */
  function ItemRow(headers: seq<string>, it: Item): Row {
    map h | h in headers :: ItemCell(h, it, Amount(it))
  }

  function SummaryRow(headers: seq<string>, caption: string, value: int): Row {
    map h | h in headers :: SummaryCell(h, caption, value)
  }

  function ItemRows(headers: seq<string>, items: seq<Item>): (r: seq<Row>)
    ensures |r| == |items|
  {
    if items == [] then [] else ItemRows(headers, items[..|items| - 1]) + [ItemRow(headers, items[|items| - 1])]
  }

  /** The rows buildEstimateRows returns for the given items. */
  function EstimateRows(headers: seq<string>, items: seq<Item>): seq<Row> {
    var subtotal := Subtotal(items);
    var tax := Tax(subtotal);
    ItemRows(headers, items) + [
      SummaryRow(headers, "小計", subtotal),
      SummaryRow(headers, "消費税(10%)", tax),
      SummaryRow(headers, "合計", subtotal + tax)]
  }

  /** The for…of over the headers filling one row. */
  method FillRow(headers: seq<string>, it: Item, amount: int) returns (row: Row)
    ensures row == map h | h in headers :: ItemCell(h, it, amount)
  {
    row := map[];
    for k := 0 to |headers|
      invariant row == map h | h in headers[..k] :: ItemCell(h, it, amount)
    {
      assert headers[..k + 1] == headers[..k] + [headers[k]];
      var key := headers[k];
      var cell: Cell;
      if key == "項目" {
        cell := Text(it.item);
      } else if key == "内容" {
        cell := Text(it.detail);
      } else if key == "数量" {
        cell := Num(it.qty);
      } else if key == "単位" {
        cell := Text(it.unit);
      } else if key == "単価" {
        cell := Num(UNIT_DAY);
      } else if key == "金額" {
        cell := Num(amount);
      } else {
        cell := Text("");
      }
      row := row[key := cell];
    }
    assert headers[..|headers|] == headers;
  }

  method FillSummary(headers: seq<string>, caption: string, value: int) returns (row: Row)
    ensures row == SummaryRow(headers, caption, value)
  {
    row := map[];
    for k := 0 to |headers|
      invariant row == map h | h in headers[..k] :: SummaryCell(h, caption, value)
    {
      assert headers[..k + 1] == headers[..k] + [headers[k]];
      var h := headers[k];
      if h == "項目" {
        row := row[h := Text(caption)];
      } else if h == "金額" {
        row := row[h := Num(value)];
      } else {
        row := row[h := Text("")];
      }
    }
    assert headers[..|headers|] == headers;
  }

  /** The item loop and the summary loop, for any item list. */
  method BuildRows(headers: seq<string>, items: seq<Item>) returns (rows: seq<Row>)
    ensures rows == EstimateRows(headers, items)
  {
    rows := [];
    var subtotal := 0;
    for i := 0 to |items|
      invariant rows == ItemRows(headers, items[..i])
      invariant subtotal == Subtotal(items[..i])
    {
      assert items[..i + 1][..i] == items[..i];
      var it := items[i];
      var amount := it.qty * UNIT_DAY;
      subtotal := subtotal + amount;
      var row := FillRow(headers, it, amount);
      rows := rows + [row];
    }
    assert items[..|items|] == items;
    var tax := RoundDiv(subtotal, 10);
    var total := subtotal + tax;
    var r1 := FillSummary(headers, "小計", subtotal);
    var r2 := FillSummary(headers, "消費税(10%)", tax);
    var r3 := FillSummary(headers, "合計", total);
    rows := rows + [r1, r2, r3];
  }

  /** buildEstimateRows */
  method BuildEstimateRows(headers: seq<string>) returns (rows: seq<Row>)
    ensures rows == EstimateRows(headers, ITEMS)
  {
    rows := BuildRows(headers, ITEMS);
  }

  // ---------------------------------------------------------------- properties

  /**
   * The quote has one row per item and then the subtotal, tax and total rows;
   * every row has exactly the header keys.
   */
  lemma EstimateShape(headers: seq<string>, items: seq<Item>)
    ensures |EstimateRows(headers, items)| == |items| + 3
    ensures forall i :: 0 <= i < |items| + 3 ==> EstimateRows(headers, items)[i].Keys == set h | h in headers
    ensures forall i :: 0 <= i < |items| ==> EstimateRows(headers, items)[i] == ItemRow(headers, items[i])
  {
    ItemRowsIndex(headers, items);
  }

  lemma {:induction false} ItemRowsIndex(headers: seq<string>, items: seq<Item>)
    ensures forall i :: 0 <= i < |items| ==> ItemRows(headers, items)[i] == ItemRow(headers, items[i])
  {
    if items != [] {
      ItemRowsIndex(headers, items[..|items| - 1]);
    }
  }

  /**
   * An item row carries the item's fields under their headers, the price
   * and the amount qty × 80000 unchanged (yen is the identity on numbers),
   * and '' under 備考 and any header it does not know.
   */
  lemma ItemRowSpec(headers: seq<string>, it: Item, h: string)
    requires h in headers
    ensures h == "金額" ==> ItemRow(headers, it)[h] == Num(it.qty * 80000)
    ensures h == "単価" ==> ItemRow(headers, it)[h] == Num(80000)
    ensures h == "項目" ==> ItemRow(headers, it)[h] == Text(it.item)
    ensures h !in {"項目", "内容", "数量", "単位", "単価", "金額"} ==> ItemRow(headers, it)[h] == Text("")
  {
  }

  /** The three summary rows come last, in order, and fill only 項目 and 金額. */
  lemma SummaryRowsSpec(headers: seq<string>, items: seq<Item>, h: string)
    requires h in headers
    ensures |EstimateRows(headers, items)| == |items| + 3
    ensures var rows, n := EstimateRows(headers, items), |items|;
      h == "項目" ==> rows[n][h] == Text("小計") && rows[n + 1][h] == Text("消費税(10%)") && rows[n + 2][h] == Text("合計")
    ensures var rows, n, sub := EstimateRows(headers, items), |items|, Subtotal(items);
      h == "金額" ==> rows[n][h] == Num(sub) && rows[n + 1][h] == Num(Tax(sub)) && rows[n + 2][h] == Num(sub + Tax(sub))
    ensures var rows, n := EstimateRows(headers, items), |items|;
      h != "項目" && h != "金額" ==> rows[n][h] == Text("") && rows[n + 1][h] == Text("") && rows[n + 2][h] == Text("")
  {
  }

  /** The tax is 10% of the subtotal rounded half up, exact when the subtotal is a multiple of 10. */
  lemma TaxSpec(subtotal: int)
    ensures 10 * (2 * Tax(subtotal) - 1) <= 2 * subtotal < 10 * (2 * Tax(subtotal) + 1)
    ensures subtotal % 10 == 0 ==> Tax(subtotal) == subtotal / 10
  {
    RoundDivSpec(subtotal, 10);
    if subtotal % 10 == 0 {
      RoundDivExact(subtotal / 10, 10);
      assert subtotal / 10 * 10 == subtotal;
    }
  }

  lemma {:induction false} SubtotalOfQuantities(items: seq<Item>)
    ensures Subtotal(items) == UNIT_DAY * Quantity(items)
  {
    if items != [] {
      SubtotalOfQuantities(items[..|items| - 1]);
      MulSucc(0, 0);
      assert UNIT_DAY * Quantity(items) == UNIT_DAY * Quantity(items[..|items| - 1]) + UNIT_DAY * items[|items| - 1].qty;
    }
  }

  /** The person-days of the items. */
  function Quantity(items: seq<Item>): int {
    if items == [] then 0 else Quantity(items[..|items| - 1]) + items[|items| - 1].qty
  }

  lemma QuantityStep(items: seq<Item>, k: nat)
    requires k < |items|
    ensures Quantity(items[..k + 1]) == Quantity(items[..k]) + items[k].qty
  {
    assert items[..k + 1][..k] == items[..k];
  }

  /** The fixed item list comes to 173 person-days: 13,840,000 yen, 1,384,000 tax, 15,224,000 in total. */
  lemma QuoteTotals()
    ensures Quantity(ITEMS) == 173
    ensures Subtotal(ITEMS) == 13840000
    ensures Tax(Subtotal(ITEMS)) == 1384000
    ensures Subtotal(ITEMS) + Tax(Subtotal(ITEMS)) == 15224000
  {
    assert Quantity(ITEMS[..0]) == 0;
    QuantityStep(ITEMS, 0);
    assert Quantity(ITEMS[..1]) == 10;
    QuantityStep(ITEMS, 1);
    assert Quantity(ITEMS[..2]) == 20;
    QuantityStep(ITEMS, 2);
    assert Quantity(ITEMS[..3]) == 32;
    QuantityStep(ITEMS, 3);
    assert Quantity(ITEMS[..4]) == 57;
    QuantityStep(ITEMS, 4);
    assert Quantity(ITEMS[..5]) == 65;
    QuantityStep(ITEMS, 5);
    assert Quantity(ITEMS[..6]) == 73;
    QuantityStep(ITEMS, 6);
    assert Quantity(ITEMS[..7]) == 91;
    QuantityStep(ITEMS, 7);
    assert Quantity(ITEMS[..8]) == 97;
    QuantityStep(ITEMS, 8);
    assert Quantity(ITEMS[..9]) == 109;
    QuantityStep(ITEMS, 9);
    assert Quantity(ITEMS[..10]) == 115;
    QuantityStep(ITEMS, 10);
    assert Quantity(ITEMS[..11]) == 127;
    QuantityStep(ITEMS, 11);
    assert Quantity(ITEMS[..12]) == 133;
    QuantityStep(ITEMS, 12);
    assert Quantity(ITEMS[..13]) == 138;
    QuantityStep(ITEMS, 13);
    assert Quantity(ITEMS[..14]) == 143;
    QuantityStep(ITEMS, 14);
    assert Quantity(ITEMS[..15]) == 147;
    QuantityStep(ITEMS, 15);
    assert Quantity(ITEMS[..16]) == 159;
    QuantityStep(ITEMS, 16);
    assert Quantity(ITEMS[..17]) == 173;
    assert ITEMS[..17] == ITEMS;
    SubtotalOfQuantities(ITEMS);
    TaxSpec(13840000);
  }

  // ---------------------------------------------------------------- sheet

  /** headers.map(h => r[h]), '' for a header the row lacks. */
  function SheetLine(headers: seq<string>, r: Row): (line: seq<Cell>)
    ensures |line| == |headers|
  {
    seq(|headers|, i requires 0 <= i < |headers| => if headers[i] in r then r[headers[i]] else Text(""))
  }

  /** The array of arrays: the header row, then each row in header order. */
  function Sheet(headers: seq<string>, rows: seq<Row>): (aoa: seq<seq<Cell>>)
    ensures |aoa| == |rows| + 1
  {
    [seq(|headers|, i requires 0 <= i < |headers| => Text(headers[i]))]
      + seq(|rows|, k requires 0 <= k < |rows| => SheetLine(headers, rows[k]))
  }

  /** A row with exactly the header keys reads, in its line, its own value under each header. */
  lemma SheetLineSpec(headers: seq<string>, r: Row)
    requires r.Keys == set h | h in headers
    ensures forall i :: 0 <= i < |headers| ==> headers[i] in r && SheetLine(headers, r)[i] == r[headers[i]]
  {
  }

  /**
   * The written sheet has the header line and |items| + 3 value lines, all
   * |headers| wide, and every value line reads its row under each header.
   */
  lemma SheetSpec(headers: seq<string>, items: seq<Item>)
    ensures var aoa := Sheet(headers, EstimateRows(headers, items));
      |aoa| == |items| + 4 && forall k :: 0 <= k < |aoa| ==> |aoa[k]| == |headers|
    ensures forall k :: 0 <= k < |items| + 3 ==>
      Sheet(headers, EstimateRows(headers, items))[k + 1] == SheetLine(headers, EstimateRows(headers, items)[k])
      && EstimateRows(headers, items)[k].Keys == set h | h in headers
  {
    EstimateShape(headers, items);
  }
}
