/**
 The new-sale dialog (components/vendas/venda-form.tsx). It edits a list of
 line items and keeps each item's subtotal and the sale total up to date.
 On submit it checks the items against the product snapshot it loaded. It
 then writes one `vendas` row and the matching `itens_venda` rows. Prices,
 subtotals and totals are in cents.
 */
module SaleForm {
  import opened Domain
  import opened Seqs

  /** One line of the sale being composed. */
  datatype LineItem = LineItem(productId: string, quantity: int, unitPrice: int, subtotal: int)

  /** The line `addItem` appends: no product yet, quantity 1, price 0. */
  const BlankItem := LineItem("", 1, 0, 0)

  /** The line's subtotal is its quantity times its unit price. */
  predicate Consistent(item: LineItem)
  {
    item.subtotal == item.quantity * item.unitPrice
  }

  predicate AllConsistent(items: seq<LineItem>)
  {
    forall k :: 0 <= k < |items| ==> Consistent(items[k])
  }

  /** `valorTotal`: the sum of the lines' subtotals, 0 for no lines. With no
      negative subtotal it is at least every line's subtotal. */
  function Total(items: seq<LineItem>): (t: int)
    ensures |items| == 0 ==> t == 0
    ensures (forall k :: 0 <= k < |items| ==> items[k].subtotal >= 0) ==>
              t >= 0 && forall k :: 0 <= k < |items| ==> items[k].subtotal <= t
  {
    SumByBounds(items, (item: LineItem) => item.subtotal);
    SumBy(items, (item: LineItem) => item.subtotal)
  }

  /** When every line is consistent, the total is the sum of quantity times
      unit price over the lines. */
  lemma TotalOfConsistentItems(items: seq<LineItem>)
    requires AllConsistent(items)
    ensures Total(items) == SumBy(items, (item: LineItem) => item.quantity * item.unitPrice)
  {
    SumByCongruent(items, (item: LineItem) => item.subtotal, (item: LineItem) => item.quantity * item.unitPrice);
  }

  /** `addItem`: one blank line appended, every earlier line unchanged. */
  function AddItem(items: seq<LineItem>): (r: seq<LineItem>)
    ensures |r| == |items| + 1 && r[..|items|] == items && r[|items|] == BlankItem
  {
    items + [BlankItem]
  }

  /** Appending a blank line leaves the total as it was and keeps every line
      consistent. */
  lemma AddItemKeepsTotal(items: seq<LineItem>)
    ensures Total(AddItem(items)) == Total(items)
    ensures AllConsistent(items) ==> AllConsistent(AddItem(items))
  {
    SumByAppend(items, [BlankItem], (item: LineItem) => item.subtotal);
  }

  /** `items.filter((_, i) => i !== index)` on the lines from position
      `offset` on: every line whose position differs from `index` is kept. */
  function DropPosition(items: seq<LineItem>, index: int, offset: int): (r: seq<LineItem>)
    ensures offset <= index < offset + |items| ==> r == items[..index - offset] + items[index - offset + 1..]
    ensures !(offset <= index < offset + |items|) ==> r == items
    decreases |items|
  {
    if |items| == 0 then []
    else if offset == index then
      var rest := DropPosition(items[1..], index, offset + 1);
      assert items[..0] + items[1..] == items[1..];
      rest
    else
      var rest := DropPosition(items[1..], index, offset + 1);
      assert offset < index < offset + |items| ==>
               [items[0]] + items[1..][..index - offset - 1] == items[..index - offset]
               && items[1..][index - offset..] == items[index - offset + 1..];
      assert [items[0]] + items[1..] == items;
      [items[0]] + rest
  }

  /** `removeItem(index)`: exactly the line at `index` is removed and the
      others keep their order; an index outside the list removes nothing.
      Consistent lines stay consistent. */
  function RemoveItem(items: seq<LineItem>, index: int): (r: seq<LineItem>)
    ensures 0 <= index < |items| ==> |r| == |items| - 1
    ensures 0 <= index < |items| ==>
              (forall k :: 0 <= k < index ==> r[k] == items[k])
              && (forall k :: index <= k < |r| ==> r[k] == items[k + 1])
    ensures !(0 <= index < |items|) ==> r == items
    ensures AllConsistent(items) ==> AllConsistent(r)
  {
    DropPosition(items, index, 0)
  }

  /** Removing a line takes exactly its subtotal off the total. */
  lemma RemoveItemTotal(items: seq<LineItem>, index: int)
    requires 0 <= index < |items|
    ensures Total(RemoveItem(items, index)) == Total(items) - items[index].subtotal
  {
    var f := (item: LineItem) => item.subtotal;
    assert items == items[..index] + [items[index]] + items[index + 1..];
    SumByAppend(items[..index] + [items[index]], items[index + 1..], f);
    SumByAppend(items[..index], [items[index]], f);
    SumByAppend(items[..index], items[index + 1..], f);
  }

  /** The edits `updateItem` receives from the dialog: a product chosen from
      the list, a quantity typed in, a unit price typed in. */
  datatype ItemEdit = SelectProduct(productId: string) | SetQuantity(quantity: int) | SetUnitPrice(unitPrice: int)

  /** One line after one edit. Choosing a product in the snapshot takes its
      sale price; an id the snapshot does not know changes only the id. */
  function EditItem(item: LineItem, products: seq<Product>, edit: ItemEdit): LineItem
  {
    match edit
    case SelectProduct(id) =>
      (match FindProduct(products, id)
       case Some(p) => item.(productId := id, unitPrice := p.salePrice, subtotal := item.quantity * p.salePrice)
       case None => item.(productId := id))
    case SetQuantity(q) => item.(quantity := q, subtotal := q * item.unitPrice)
    case SetUnitPrice(price) => item.(unitPrice := price, subtotal := item.quantity * price)
  }

  /** `updateItem(index, field, value)`: only the line at `index` changes.
      Typing a quantity or a price, or choosing a known product, leaves that
      line consistent. */
  function UpdateItem(items: seq<LineItem>, products: seq<Product>, index: int, edit: ItemEdit): (r: seq<LineItem>)
    requires 0 <= index < |items|
    ensures |r| == |items|
    ensures forall k :: 0 <= k < |items| && k != index ==> r[k] == items[k]
    ensures edit.SetQuantity? ==> r[index].quantity == edit.quantity && Consistent(r[index])
    ensures edit.SetQuantity? ==>
              r[index] == items[index].(quantity := edit.quantity, subtotal := edit.quantity * items[index].unitPrice)
    ensures edit.SetUnitPrice? ==> r[index].unitPrice == edit.unitPrice && Consistent(r[index])
    ensures edit.SetUnitPrice? ==>
              r[index] == items[index].(unitPrice := edit.unitPrice, subtotal := items[index].quantity * edit.unitPrice)
    ensures edit.SelectProduct? ==>
              r[index].productId == edit.productId && r[index].quantity == items[index].quantity
    ensures edit.SelectProduct? && FindProduct(products, edit.productId).Some? ==>
              r[index].unitPrice == FindProduct(products, edit.productId).value.salePrice && Consistent(r[index])
    ensures edit.SelectProduct? && FindProduct(products, edit.productId).Some? ==>
              r[index].subtotal == items[index].quantity * FindProduct(products, edit.productId).value.salePrice
    ensures edit.SelectProduct? && FindProduct(products, edit.productId).None? ==>
              r[index] == items[index].(productId := edit.productId)
  {
    items[index := EditItem(items[index], products, edit)]
  }

  /** Every edit keeps all lines consistent, and moves the total by exactly
      the change in the edited line's subtotal. */
  lemma UpdateItemKeepsTotalsRight(items: seq<LineItem>, products: seq<Product>, index: int, edit: ItemEdit)
    requires 0 <= index < |items|
    ensures var r := UpdateItem(items, products, index, edit);
            Total(r) == Total(items) - items[index].subtotal + r[index].subtotal
    ensures AllConsistent(items) ==> AllConsistent(UpdateItem(items, products, index, edit))
  {
    SumByUpdate(items, index, EditItem(items[index], products, edit), (item: LineItem) => item.subtotal);
  }

  /** Why a sale was refused: no lines, or a line asking for more than its
      product's snapshot stock (named by the product). */
  datatype SaleError = NoItems | InsufficientStock(productName: string)

  /** The date and payment fields of the dialog. */
  datatype SaleHeader = SaleHeader(date: string, paymentMethod: string)

  /** The `vendas` row and the `itens_venda` rows a submit writes. */
  datatype SaleRow = SaleRow(date: string, total: int, paymentMethod: string)
  datatype ItemRow = ItemRow(saleId: string, productId: string, quantity: int, unitPrice: int, subtotal: int)
  datatype SaleWrite = SaleWrite(sale: SaleRow, items: seq<ItemRow>)

  /** The line passes the stock check: its product is not in the snapshot,
      or the snapshot holds at least the quantity asked for. */
  predicate Fits(item: LineItem, products: seq<Product>)
  {
    FindProduct(products, item.productId).Some? ==> item.quantity <= FindProduct(products, item.productId).value.stock
  }

  predicate AllFit(items: seq<LineItem>, products: seq<Product>)
  {
    forall k :: 0 <= k < |items| ==> Fits(items[k], products)
  }

  /** The `itens_venda` rows: one per line, in line order, each carrying the
      new sale's id and the line's fields. */
  function ItemRows(saleId: string, items: seq<LineItem>): (rows: seq<ItemRow>)
    ensures |rows| == |items|
    ensures forall k :: 0 <= k < |items| ==>
              rows[k] == ItemRow(saleId, items[k].productId, items[k].quantity, items[k].unitPrice, items[k].subtotal)
    decreases |items|
  {
    if |items| == 0 then []
    else [ItemRow(saleId, items[0].productId, items[0].quantity, items[0].unitPrice, items[0].subtotal)]
         + ItemRows(saleId, items[1..])
  }

  /** The stock loop of the submit handler: the position of the first line,
      in list order, that fails the check, if any. Each line is checked on
      its own; lines that share a product are not added up. */
  method FirstShortage(items: seq<LineItem>, products: seq<Product>) returns (r: Option<nat>)
    ensures r.None? <==> AllFit(items, products)
    ensures r.Some? ==> r.value < |items| && !Fits(items[r.value], products)
                        && forall k :: 0 <= k < r.value ==> Fits(items[k], products)
  {
    var i := 0;
    while i < |items|
      invariant 0 <= i <= |items|
      invariant forall k :: 0 <= k < i ==> Fits(items[k], products)
    {
      var product := FindProduct(products, items[i].productId);
      if product.Some? && items[i].quantity > product.value.stock {
        return Some(i);
      }
      i := i + 1;
    }
    return None;
  }

  /** The submit handler: refuse an empty sale, then refuse on the first
      line short of stock, otherwise build the rows to write. `saleId` is the
      id the store returns for the inserted `vendas` row. */
  method SubmitSale(header: SaleHeader, items: seq<LineItem>, products: seq<Product>, saleId: string)
    returns (r: Result<SaleWrite, SaleError>)
    ensures r == Err(NoItems) <==> |items| == 0
    ensures r.Ok? <==> |items| > 0 && AllFit(items, products)
    ensures r.Err? && r.error.InsufficientStock? ==>
              exists k :: 0 <= k < |items| && !Fits(items[k], products)
                          && (forall j :: 0 <= j < k ==> Fits(items[j], products))
                          && r.error.productName == FindProduct(products, items[k].productId).value.name
    ensures r.Ok? ==> r.value.sale == SaleRow(header.date, Total(items), header.paymentMethod)
    ensures r.Ok? ==> r.value.items == ItemRows(saleId, items)
  {
    if |items| == 0 {
      return Err(NoItems);
    }
    var shortage := FirstShortage(items, products);
    if shortage.Some? {
      var k := shortage.value;
      return Err(InsufficientStock(FindProduct(products, items[k].productId).value.name));
    }
    return Ok(SaleWrite(SaleRow(header.date, Total(items), header.paymentMethod), ItemRows(saleId, items)));
  }

  /** Two lines of the same product, each within the stock on its own, pass
      the check even though together they ask for more than the stock. */
  lemma SharedProductCheckedPerLine()
    ensures var products := [Product("p1", "Caneta", 100, 250, "Papelaria", 1)];
            var items := [LineItem("p1", 1, 250, 250), LineItem("p1", 1, 250, 250)];
            AllFit(items, products) && items[0].quantity + items[1].quantity > products[0].stock
  {
    var products := [Product("p1", "Caneta", 100, 250, "Papelaria", 1)];
    var items := [LineItem("p1", 1, 250, 250), LineItem("p1", 1, 250, 250)];
    assert Fits(items[0], products) && Fits(items[1], products);
  }
}
