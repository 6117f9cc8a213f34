/** The sales screen (src/components/Sales.js): the rows of the sale form, their
    validation and the stock check before anything is sent, the sale totals, the
    record lines built for the server, the barcode scan that adds or increments a
    row, the resets after a save or a cancel, and logout. */
module Sales {
  import opened JsText
  import opened Storage
  import opened Auth
  import opened Routing

  /** One row of the form, both fields as typed. */
  datatype Row = Row(productId: string, quantity: string)

  const EmptyRow := Row("", "")

  /** A product of the catalogue. */
  datatype SaleProduct = SaleProduct(
    uid: Option<string>,          // `_id`
    id: Option<string>,           // `id`
    name: string,
    productNumber: Option<string>,
    brand: Option<string>,
    category: string,
    quantity: int,
    sellingPrice: real,
    costPrice: real)

  /** `p._id || p.id`. */
  function KeyOf(p: SaleProduct): Option<string> {
    Or(p.uid, p.id)
  }

  /** The index of the first product with `_id` equal to `productId`. */
  function ProductIndex(products: seq<SaleProduct>, productId: string): (r: Option<nat>)
    ensures r.None? <==> forall i :: 0 <= i < |products| ==> products[i].uid != Some(productId)
    ensures r.Some? ==>
      && r.value < |products| && products[r.value].uid == Some(productId)
      && forall j :: 0 <= j < r.value ==> products[j].uid != Some(productId)
  {
    if products == [] then None
    else if products[0].uid == Some(productId) then Some(0)
    else
      var r := ProductIndex(products[1..], productId);
      if r.Some? then Some(r.value + 1) else None
  }

  /** `products.find(p => p._id === productId || ...)`: the first product with that `_id`. */
  function FindProduct(products: seq<SaleProduct>, productId: string): (r: Option<SaleProduct>)
    ensures r.None? <==> forall i :: 0 <= i < |products| ==> products[i].uid != Some(productId)
    ensures r.Some? ==> r.value in products && r.value.uid == Some(productId)
  {
    match ProductIndex(products, productId)
    case None => None
    case Some(i) => Some(products[i])
  }

  /** `parseInt(row.quantity)`; rows that reach the totals always parse. */
  function Qty(r: Row): int {
    ParseInt(r.quantity).GetOr(0)
  }

  /** A row counts when it names a product and its quantity parses to more than 0. */
  predicate IsValidRow(r: Row) {
    r.productId != "" && r.quantity != "" && ParseInt(r.quantity).Some? && ParseInt(r.quantity).value > 0
  }

  /** `selectedProducts.filter(...)`: the valid rows, in order. */
  function ValidRows(rows: seq<Row>): (r: seq<Row>)
    ensures |r| <= |rows|
    ensures forall x :: x in r <==> x in rows && IsValidRow(x)
    ensures |rows| == 1 ==> r == if IsValidRow(rows[0]) then rows else []
  {
    if rows == [] then []
    else
      var rest := ValidRows(rows[1..]);
      assert forall x :: x in rows <==> x == rows[0] || x in rows[1..];
      if IsValidRow(rows[0]) then [rows[0]] + rest else rest
  }

  /** Filtering a concatenation filters each part, keeping the order. */
  lemma {:induction false} ValidRowsAppend(a: seq<Row>, b: seq<Row>)
    ensures ValidRows(a + b) == ValidRows(a) + ValidRows(b)
  {
    if a == [] {
      assert a + b == b;
    } else {
      assert (a + b)[1..] == a[1..] + b;
      ValidRowsAppend(a[1..], b);
    }
  }

  /** A row asks for more than its (found) product has in stock. */
  predicate ShortOfStock(products: seq<SaleProduct>, r: Row) {
    var p := FindProduct(products, r.productId);
    p.Some? && p.value.quantity < Qty(r)
  }

  /** `price * quantity`. */
  function Amount(price: real, quantity: int): real {
    price * quantity as real
  }

  function LineRevenue(products: seq<SaleProduct>, r: Row): real {
    var p := FindProduct(products, r.productId);
    if p.Some? then Amount(p.value.sellingPrice, Qty(r)) else 0.0
  }

  function LineCost(products: seq<SaleProduct>, r: Row): real {
    var p := FindProduct(products, r.productId);
    if p.Some? then Amount(p.value.costPrice, Qty(r)) else 0.0
  }

  /** Σ sellingPrice·quantity over the rows whose product is found. */
  function Revenue(products: seq<SaleProduct>, rows: seq<Row>): real {
    if rows == [] then 0.0
    else Revenue(products, rows[..|rows| - 1]) + LineRevenue(products, rows[|rows| - 1])
  }

  /** Σ (sellingPrice·quantity − costPrice·quantity) over the same rows. */
  function Profit(products: seq<SaleProduct>, rows: seq<Row>): real {
    if rows == [] then 0.0
    else
      var r := rows[|rows| - 1];
      Profit(products, rows[..|rows| - 1]) + (LineRevenue(products, r) - LineCost(products, r))
  }

  function Cost(products: seq<SaleProduct>, rows: seq<Row>): real {
    if rows == [] then 0.0 else Cost(products, rows[..|rows| - 1]) + LineCost(products, rows[|rows| - 1])
  }

  /** Profit is revenue less the cost of the goods. */
  lemma {:induction false} ProfitIsRevenueLessCost(products: seq<SaleProduct>, rows: seq<Row>)
    ensures Profit(products, rows) == Revenue(products, rows) - Cost(products, rows)
    decreases |rows|
  {
    if rows != [] {
      ProfitIsRevenueLessCost(products, rows[..|rows| - 1]);
    }
  }

  /** Totals add up over the parts of a sale. */
  lemma {:induction false} RevenueAppend(products: seq<SaleProduct>, a: seq<Row>, b: seq<Row>)
    ensures Revenue(products, a + b) == Revenue(products, a) + Revenue(products, b)
    decreases |b|
  {
    if b != [] {
      var ab := a + b;
      assert ab[..|ab| - 1] == a + b[..|b| - 1];
      assert ab[|ab| - 1] == b[|b| - 1];
      RevenueAppend(products, a, b[..|b| - 1]);
    } else {
      assert a + b == a;
    }
  }

  /** A row whose product is not in the catalogue adds nothing to the revenue. */
  lemma UnknownRowAddsNothing(products: seq<SaleProduct>, rows: seq<Row>, r: Row)
    requires FindProduct(products, r.productId).None?
    ensures Revenue(products, rows + [r]) == Revenue(products, rows)
    ensures Profit(products, rows + [r]) == Profit(products, rows)
  {
    assert (rows + [r])[..|rows + [r]| - 1] == rows;
  }

  /** `calculateSaleTotals(rows)`: one pass accumulating revenue and profit. */
  method CalculateSaleTotals(products: seq<SaleProduct>, rows: seq<Row>) returns (totalRevenue: real, totalProfit: real)
    ensures totalRevenue == Revenue(products, rows)
    ensures totalProfit == Profit(products, rows)
  {
    totalRevenue, totalProfit := 0.0, 0.0;
    for i := 0 to |rows|
      invariant totalRevenue == Revenue(products, rows[..i])
      invariant totalProfit == Profit(products, rows[..i])
    {
      assert rows[..i + 1][..i] == rows[..i];
      var product := FindProduct(products, rows[i].productId);
      if product.Some? {
        var quantity := Qty(rows[i]);
        var revenue := Amount(product.value.sellingPrice, quantity);
        var cost := Amount(product.value.costPrice, quantity);
        totalRevenue := totalRevenue + revenue;
        totalProfit := totalProfit + (revenue - cost);
      }
    }
    assert rows[..|rows|] == rows;
  }

  /** The stock check: one pass over the valid rows, flagging any row that asks
      for more than is in stock. */
  method CheckStock(products: seq<SaleProduct>, rows: seq<Row>) returns (insufficientStock: bool)
    ensures insufficientStock <==> exists j :: 0 <= j < |rows| && ShortOfStock(products, rows[j])
  {
    insufficientStock := false;
    for i := 0 to |rows|
      invariant insufficientStock <==> exists j :: 0 <= j < i && ShortOfStock(products, rows[j])
    {
      var product := FindProduct(products, rows[i].productId);
      if product.Some? && product.value.quantity < Qty(rows[i]) {
        insufficientStock := true;
      }
    }
  }

  /** One line of the sale record. */
  datatype SaleLine = SaleLine(
    productId: string, productNumber: string, brand: string, productName: string,
    category: string, quantity: int, sellingPrice: real, costPrice: real)

  /** The line sent for a row and its found product: the row's id and parsed
      quantity, and the product's number and brand (`|| ''`), name, category and
      prices. */
  function LineFor(p: SaleProduct, row: Row): SaleLine {
    SaleLine(row.productId, OrDefault(p.productNumber, ""), OrDefault(p.brand, ""),
      p.name, p.category, Qty(row), p.sellingPrice, p.costPrice)
  }

  /** Every row names a product of the catalogue. */
  predicate AllFound(products: seq<SaleProduct>, rows: seq<Row>) {
    forall j :: 0 <= j < |rows| ==> FindProduct(products, rows[j].productId).Some?
  }

  lemma AllFoundSnoc(products: seq<SaleProduct>, rows: seq<Row>)
    requires rows != []
    ensures var n := |rows| - 1;
      AllFound(products, rows) <==> AllFound(products, rows[..n]) && FindProduct(products, rows[n].productId).Some?
  {
    var n := |rows| - 1;
    assert forall j :: 0 <= j < n ==> rows[..n][j] == rows[j];
  }

  /** `validProducts.map(...)`: a line per row, or None where the map throws
      because a row's product is not in the catalogue. */
  function SaleLines(products: seq<SaleProduct>, rows: seq<Row>): (r: Option<seq<SaleLine>>)
    ensures r.Some? <==> AllFound(products, rows)
    ensures r.Some? ==>
      && |r.value| == |rows|
      && forall j :: 0 <= j < |rows| ==> r.value[j].productId == rows[j].productId && r.value[j].quantity == Qty(rows[j])
  {
    if rows == [] then Some([])
    else
      var n := |rows| - 1;
      var init := SaleLines(products, rows[..n]);
      var last := rows[n];
      AllFoundSnoc(products, rows);
      assert forall j :: 0 <= j < n ==> rows[..n][j] == rows[j];
      var p := FindProduct(products, last.productId);
      if init.None? || p.None? then None
      else
        var r := init.value + [LineFor(p.value, last)];
        assert forall j :: 0 <= j < n ==> r[j] == init.value[j];
        Some(r)
  }

  /** Line `j` of the sale is the line for row `j` and the product that row names. */
  lemma {:induction false} SaleLinesContents(products: seq<SaleProduct>, rows: seq<Row>, j: int)
    requires SaleLines(products, rows).Some? && 0 <= j < |rows|
    ensures FindProduct(products, rows[j].productId).Some?
    ensures SaleLines(products, rows).value[j] == LineFor(FindProduct(products, rows[j].productId).value, rows[j])
    decreases |rows|
  {
    var n := |rows| - 1;
    if j < n {
      SaleLinesContents(products, rows[..n], j);
      assert rows[..n][j] == rows[j];
    }
  }

  function LinesRevenue(lines: seq<SaleLine>): real {
    if lines == [] then 0.0
    else LinesRevenue(lines[..|lines| - 1]) + Amount(lines[|lines| - 1].sellingPrice, lines[|lines| - 1].quantity)
  }

  /** The sale's `totalRevenue` is the sum over the lines it sends. */
  lemma {:induction false} LinesMatchRevenue(products: seq<SaleProduct>, rows: seq<Row>)
    requires SaleLines(products, rows).Some?
    ensures LinesRevenue(SaleLines(products, rows).value) == Revenue(products, rows)
    decreases |rows|
  {
    if rows != [] {
      var init, last := rows[..|rows| - 1], rows[|rows| - 1];
      LinesMatchRevenue(products, init);
      var lines := SaleLines(products, rows).value;
      var initLines := SaleLines(products, init).value;
      var p := FindProduct(products, last.productId).value;
      var line := lines[|lines| - 1];
      assert lines == initLines + [line];
      assert lines[..|lines| - 1] == initLines;
      assert line.sellingPrice == p.sellingPrice && line.quantity == Qty(last);
    }
  }

  /** Where a submit stops, in the order the handler checks. */
  datatype SubmitCheck =
    | NoValidRows
    | InsufficientStock
    | MissingProduct
    | Ready(lines: seq<SaleLine>, totalRevenue: real, totalProfit: real)

  function CheckSubmit(products: seq<SaleProduct>, rows: seq<Row>): SubmitCheck {
    var valid := ValidRows(rows);
    if valid == [] then NoValidRows
    else if exists j :: 0 <= j < |valid| && ShortOfStock(products, valid[j]) then InsufficientStock
    else
      match SaleLines(products, valid)
      case None => MissingProduct
      case Some(lines) => Ready(lines, Revenue(products, valid), Profit(products, valid))
  }

  /** A submit is refused when no row is valid, then when a valid row asks for
      more than is in stock, then when a valid row's product is unknown;
      otherwise the record's revenue is the sum over its lines, its profit is
      revenue less cost, and every line sells a positive quantity. */
  lemma CheckSubmitSpec(products: seq<SaleProduct>, rows: seq<Row>)
    ensures var c := CheckSubmit(products, rows);
      && (c == NoValidRows <==> forall x :: x in rows ==> !IsValidRow(x))
      && (c == InsufficientStock <==>
            ValidRows(rows) != [] && exists j :: 0 <= j < |ValidRows(rows)| && ShortOfStock(products, ValidRows(rows)[j]))
      && (c == MissingProduct <==>
            ValidRows(rows) != []
            && (forall j :: 0 <= j < |ValidRows(rows)| ==> !ShortOfStock(products, ValidRows(rows)[j]))
            && exists j :: 0 <= j < |ValidRows(rows)| && FindProduct(products, ValidRows(rows)[j].productId).None?)
      && (c.Ready? ==>
            && c.totalRevenue == LinesRevenue(c.lines)
            && c.totalProfit == Revenue(products, ValidRows(rows)) - Cost(products, ValidRows(rows))
            && forall j :: 0 <= j < |c.lines| ==> c.lines[j].quantity > 0)
  {
    var valid := ValidRows(rows);
    if valid != [] {
      assert valid[0] in rows && IsValidRow(valid[0]);
      match SaleLines(products, valid)
      case None =>
      case Some(lines) =>
        LinesMatchRevenue(products, valid);
        ProfitIsRevenueLessCost(products, valid);
        forall j | 0 <= j < |lines| ensures lines[j].quantity > 0 {
          assert valid[j] in valid;
        }
    }
  }

  /** The checks of `handleSubmit` in the handler's order: the valid rows, the
      stock pass, the totals pass and the lines. */
  method Check(products: seq<SaleProduct>, rows: seq<Row>) returns (check: SubmitCheck)
    ensures check == CheckSubmit(products, rows)
  {
    var validProducts := ValidRows(rows);
    if |validProducts| == 0 {
      return NoValidRows;
    }
    var insufficientStock := CheckStock(products, validProducts);
    if insufficientStock {
      return InsufficientStock;
    }
    var totalRevenue, totalProfit := CalculateSaleTotals(products, validProducts);
    var saleProducts := SaleLines(products, validProducts);
    if saleProducts.None? {
      return MissingProduct;
    }
    check := Ready(saleProducts.value, totalRevenue, totalProfit);
  }

  /** A scanned product: `response.product || response`. */
  datatype ScanAnswer = Scanned(product: SaleProduct) | ScanFailed

  /** `parseInt(quantity || '0', 10) || 0`. */
  function ScannedQty(q: string): int {
    ParseInt(q).GetOr(0)
  }

  /** `findIndex`: the first row for the product. */
  function RowIndex(rows: seq<Row>, productId: string): (r: Option<nat>)
    ensures r.None? <==> forall i :: 0 <= i < |rows| ==> rows[i].productId != productId
    ensures r.Some? ==>
      && r.value < |rows| && rows[r.value].productId == productId
      && forall j :: 0 <= j < r.value ==> rows[j].productId != productId
  {
    if rows == [] then None
    else if rows[0].productId == productId then Some(0)
    else
      var r := RowIndex(rows[1..], productId);
      if r.Some? then Some(r.value + 1) else None
  }

  /** The barcode merge: the product's first row counts one more; with no row
      for it a row of quantity "1" is appended. */
  function MergeScan(rows: seq<Row>, productId: string): (r: seq<Row>)
    ensures RowIndex(rows, productId).None? ==> r == rows + [Row(productId, "1")]
    ensures RowIndex(rows, productId).Some? ==>
      var i := RowIndex(rows, productId).value;
      |r| == |rows| && r[i] == Row(productId, IntToString(ScannedQty(rows[i].quantity) + 1))
      && forall j :: 0 <= j < |rows| && j != i ==> r[j] == rows[j]
  {
    match RowIndex(rows, productId)
    case None => rows + [Row(productId, "1")]
    case Some(i) => rows[i := rows[i].(quantity := IntToString(ScannedQty(rows[i].quantity) + 1))]
  }

  /** Scanning adds exactly one to the product's quantity as the form reads it. */
  lemma ScanCountsOne(rows: seq<Row>, productId: string)
    ensures var r := MergeScan(rows, productId);
            var i := RowIndex(r, productId);
            i.Some? && ScannedQty(r[i.value].quantity) ==
              (if RowIndex(rows, productId).Some? then ScannedQty(rows[RowIndex(rows, productId).value].quantity) else 0) + 1
  {
    var r := MergeScan(rows, productId);
    match RowIndex(rows, productId)
    case None =>
      assert r[|rows|].productId == productId;
      assert RowIndex(r, productId).Some?;
      assert RowIndex(r, productId).value == |rows|;
      assert ParseInt("1") == Some(1) by { ParseIntOfIntToString(1); assert IntToString(1) == "1"; }
    case Some(i) =>
      assert RowIndex(r, productId).value == i;
      ParseIntOfIntToString(ScannedQty(rows[i].quantity) + 1);
  }

  /** `prev.some(...) ? prev : [...prev, product]`. */
  function AddProduct(products: seq<SaleProduct>, p: SaleProduct): (r: seq<SaleProduct>)
    ensures (exists q :: q in products && KeyOf(q) == KeyOf(p)) ==> r == products
    ensures (forall q :: q in products ==> KeyOf(q) != KeyOf(p)) ==> r == products + [p]
  {
    if exists q :: q in products && KeyOf(q) == KeyOf(p) then products else products + [p]
  }

  /** The answer of the product fetch in `fetchSalesAndProducts`: the product
      array (`products` of the answer, or the answer itself) when it is one, None
      when it is not an array; or a failed fetch. */
  datatype ProductsReload = ProductsLoaded(data: Option<seq<SaleProduct>>) | ProductsLoadFailed

  /** The product list that `fetchSalesAndProducts` sets: the fetched array, and
      `[]` when the answer is not an array or the fetch fails. */
  function ReloadedProducts(reload: ProductsReload): (ps: seq<SaleProduct>)
    ensures reload.ProductsLoaded? && reload.data.Some? ==> ps == reload.data.value
    ensures reload.ProductsLoadFailed? || reload.data.None? ==> ps == []
  {
    if reload.ProductsLoaded? && reload.data.Some? then reload.data.value else []
  }

  class SalesPage {
    var products: seq<SaleProduct>
    var selectedProducts: seq<Row>
    var showForm: bool
    var editSaleId: Option<string>
    var saleDate: string
    var sellingMethod: string
    var customerName: string
    var barcodeInput: string

    constructor (today: string)
      ensures products == [] && selectedProducts == [EmptyRow] && !showForm && editSaleId.None?
      ensures saleDate == today && sellingMethod == "pos" && customerName == "" && barcodeInput == ""
    {
      products := [];
      selectedProducts := [EmptyRow];
      showForm := false;
      editSaleId := None;
      saleDate := today;
      sellingMethod := "pos";
      customerName := "";
      barcodeInput := "";
    }

    method HandleAddProductRow()
      modifies this
      ensures selectedProducts == old(selectedProducts) + [EmptyRow]
      ensures products == old(products) && showForm == old(showForm) && editSaleId == old(editSaleId)
      ensures saleDate == old(saleDate) && sellingMethod == old(sellingMethod) && customerName == old(customerName) && barcodeInput == old(barcodeInput)
    {
      selectedProducts := selectedProducts + [EmptyRow];
    }

    /** `filter((_, i) => i !== index)`: exactly the row at `index` goes (none if out of range). */
    method HandleRemoveProductRow(index: int)
      modifies this
      ensures 0 <= index < |old(selectedProducts)| ==>
        |selectedProducts| == |old(selectedProducts)| - 1
        && (forall j :: 0 <= j < index ==> selectedProducts[j] == old(selectedProducts)[j])
        && (forall j :: index <= j < |selectedProducts| ==> selectedProducts[j] == old(selectedProducts)[j + 1])
      ensures !(0 <= index < |old(selectedProducts)|) ==> selectedProducts == old(selectedProducts)
      ensures products == old(products) && showForm == old(showForm) && editSaleId == old(editSaleId)
      ensures saleDate == old(saleDate) && sellingMethod == old(sellingMethod) && customerName == old(customerName) && barcodeInput == old(barcodeInput)
    {
      if 0 <= index < |selectedProducts| {
        selectedProducts := selectedProducts[..index] + selectedProducts[index + 1..];
      }
    }

    /** `handleProductChange(index, field, value)` on a displayed row. */
    method HandleProductChange(index: nat, productField: bool, value: string)
      requires index < |selectedProducts|
      modifies this
      ensures |selectedProducts| == |old(selectedProducts)|
      ensures productField ==> selectedProducts[index] == old(selectedProducts)[index].(productId := value)
      ensures !productField ==> selectedProducts[index] == old(selectedProducts)[index].(quantity := value)
      ensures forall j :: 0 <= j < |selectedProducts| && j != index ==> selectedProducts[j] == old(selectedProducts)[j]
      ensures products == old(products) && showForm == old(showForm) && editSaleId == old(editSaleId)
      ensures saleDate == old(saleDate) && sellingMethod == old(sellingMethod) && customerName == old(customerName) && barcodeInput == old(barcodeInput)
    {
      var row := selectedProducts[index];
      var updated := if productField then row.(productId := value) else row.(quantity := value);
      selectedProducts := selectedProducts[index := updated];
    }

    /** `handleSubmit`: validation, the stock check, the totals and the lines;
        then, when the server accepts the sale (`saved`), the products are
        reloaded (`reload` is that fetch's answer) and the form resets. An
        update keeps the customer name and clears the edited id; a creation
        clears the customer name. */
    method HandleSubmit(saved: bool, reload: ProductsReload, today: string) returns (check: SubmitCheck)
      modifies this
      ensures check == CheckSubmit(old(products), old(selectedProducts))
      ensures !(check.Ready? && saved) ==>
        selectedProducts == old(selectedProducts) && editSaleId == old(editSaleId)
        && customerName == old(customerName) && sellingMethod == old(sellingMethod)
        && showForm == old(showForm) && saleDate == old(saleDate)
      ensures check.Ready? && saved ==>
        selectedProducts == [EmptyRow] && sellingMethod == "pos" && saleDate == today && !showForm
        && (Truthy(old(editSaleId)) ==> editSaleId.None? && customerName == old(customerName))
        && (!Truthy(old(editSaleId)) ==> editSaleId == old(editSaleId) && customerName == "")
        && products == ReloadedProducts(reload)
      ensures !(check.Ready? && saved) ==> products == old(products)
      ensures barcodeInput == old(barcodeInput)
    {
      check := Check(products, selectedProducts);
      if check.Ready? && saved {
        ResetAfterSave(reload, today);
      }
    }

    /** What follows a sale the server accepted: the products are reloaded, and
        the form resets; an update keeps the customer name and clears the
        edited id, a creation clears the customer name. */
    method ResetAfterSave(reload: ProductsReload, today: string)
      modifies this
      ensures products == ReloadedProducts(reload)
      ensures selectedProducts == [EmptyRow] && sellingMethod == "pos" && saleDate == today && !showForm
      ensures Truthy(old(editSaleId)) ==> editSaleId.None? && customerName == old(customerName)
      ensures !Truthy(old(editSaleId)) ==> editSaleId == old(editSaleId) && customerName == ""
      ensures barcodeInput == old(barcodeInput)
    {
      products := ReloadedProducts(reload);
      if Truthy(editSaleId) {
        editSaleId := None;
      } else {
        customerName := "";
      }
      selectedProducts := [EmptyRow];
      saleDate := today;
      sellingMethod := "pos";
      showForm := false;
    }

    /** `handleCancel`. */
    method HandleCancel(today: string)
      modifies this
      ensures selectedProducts == [EmptyRow] && sellingMethod == "pos" && customerName == ""
      ensures saleDate == today && editSaleId.None? && barcodeInput == "" && !showForm
      ensures products == old(products)
    {
      showForm := false;
      selectedProducts := [EmptyRow];
      saleDate := today;
      sellingMethod := "pos";
      customerName := "";
      editSaleId := None;
      barcodeInput := "";
    }

    /** `handleBarcodeSubmit`: a blank code does nothing (the input is kept);
        otherwise a product with an id joins the catalogue if new and is merged
        into the rows, the form opens, and the input is cleared in every case. */
    method HandleBarcodeSubmit(answer: ScanAnswer)
      modifies this
      ensures Trim(old(barcodeInput)) == "" ==>
        barcodeInput == old(barcodeInput) && products == old(products)
        && selectedProducts == old(selectedProducts) && showForm == old(showForm)
      ensures Trim(old(barcodeInput)) != "" ==> barcodeInput == ""
      ensures Trim(old(barcodeInput)) != "" && answer.Scanned? && Truthy(KeyOf(answer.product)) ==>
        products == AddProduct(old(products), answer.product)
        && selectedProducts == MergeScan(old(selectedProducts), KeyOf(answer.product).value)
        && showForm
      ensures Trim(old(barcodeInput)) != "" && !(answer.Scanned? && Truthy(KeyOf(answer.product))) ==>
        products == old(products) && selectedProducts == old(selectedProducts) && showForm == old(showForm)
      ensures saleDate == old(saleDate) && sellingMethod == old(sellingMethod)
      ensures editSaleId == old(editSaleId) && customerName == old(customerName)
    {
      var code := Trim(barcodeInput);
      if code == "" {
        return;
      }
      if answer.Scanned? && Truthy(KeyOf(answer.product)) {
        var product := answer.product;
        var productId := KeyOf(product).value;
        products := AddProduct(products, product);
        selectedProducts := MergeScan(selectedProducts, productId);
        if !showForm {
          showForm := true;
        }
      }
      barcodeInput := "";
    }
  }

  /** `handleLogout`. */
  method HandleLogout(ls: LocalStorage) returns (nav: Nav)
    modifies ls
    ensures ls.entries == SignedOut(old(ls.entries))
    ensures nav == Nav(Login(None), false)
  {
    ClearUserData(ls);
    ls.RemoveItem(TokenKey);
    nav := Nav(Login(None), false);
  }
}
