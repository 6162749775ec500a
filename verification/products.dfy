/**
 The products page (app/produtos/page.tsx) and the product form
 (components/produtos/produto-form.tsx).

 Before a product is deleted, the page looks for sale items and stock
 movements that refer to it, and blocks the deletion with a message if it
 finds any. A foreign-key error from the store blocks it the same way. A
 successful delete removes the product from the local list. The form writes
 either an update or an insert: an update never writes the stock column,
 and an insert writes a stock of 0.
 */
module Products {
  import opened Domain
  import opened Seqs
  import opened Text
  import SaleForm

  /** Which kinds of rows refer to a product. */
  datatype References = References(hasSales: bool, hasMovements: bool)

  /** One `select id ... eq("produto_id", id).limit(1)` lookup: the first
      row referring to the product, if there is one. */
  function FirstReferring<T(==)>(rows: seq<T>, productOf: T -> string, productId: string): (r: Option<T>)
    ensures r.Some? ==> r.value in rows && productOf(r.value) == productId
    ensures r.None? <==> forall k :: 0 <= k < |rows| ==> productOf(rows[k]) != productId
    decreases |rows|
  {
    if |rows| == 0 then None
    else if productOf(rows[0]) == productId then Some(rows[0])
    else FirstReferring(rows[1..], productOf, productId)
  }

  function ItemProduct(row: SaleForm.ItemRow): string { row.productId }
  function MovementProduct(m: Movement): string { m.productId }

  /** `checkProductReferences`: both lookups, over the `itens_venda` and
      `movimentacoes_estoque` tables as the store holds them. A lookup that
      failed is `None`, and then the check reports no references at all:
      it fails open. */
  function CheckReferences(productId: string, saleItems: Option<seq<SaleForm.ItemRow>>, movements: Option<seq<Movement>>)
    : (r: References)
    ensures saleItems.None? || movements.None? ==> r == References(false, false)
    ensures saleItems.Some? && movements.Some? ==>
              && (r.hasSales <==> exists k :: 0 <= k < |saleItems.value| && saleItems.value[k].productId == productId)
              && (r.hasMovements <==> exists k :: 0 <= k < |movements.value| && movements.value[k].productId == productId)
  {
    if saleItems.None? || movements.None? then
      References(false, false)
    else
      References(FirstReferring(saleItems.value, ItemProduct, productId).Some?,
                 FirstReferring(movements.value, MovementProduct, productId).Some?)
  }

  const BlockHeader := "Este produto não pode ser excluído porque está vinculado a:"
  const SalesBullet := "• Registros de vendas"
  const MovementsBullet := "• Movimentações de estoque"
  const BlockFooter := "Para manter a integridade dos dados históricos, a exclusão foi bloqueada."

  /** The message shown when the store refuses the delete with a foreign-key
      violation. */
  const ForeignKeyMessage := "Este produto não pode ser excluído porque está vinculado a registros existentes.\n\nPara manter a integridade dos dados históricos, a exclusão foi bloqueada."

  /** The store's error code for a foreign-key violation. */
  const ForeignKeyViolation := "23503"

  /** The bullets of the blocking message: sales first, then movements. */
  function Bullets(refs: References): seq<string>
  {
    (if refs.hasSales then [SalesBullet] else []) + (if refs.hasMovements then [MovementsBullet] else [])
  }

  /** The lines of the blocking message: the header, one bullet per kind of
      reference found, a blank line, the footer. */
  function BlockLines(refs: References): (lines: seq<string>)
    ensures |lines| == 3 + (if refs.hasSales then 1 else 0) + (if refs.hasMovements then 1 else 0)
    ensures lines[0] == BlockHeader && lines[|lines| - 2] == "" && lines[|lines| - 1] == BlockFooter
    ensures SalesBullet in lines <==> refs.hasSales
    ensures MovementsBullet in lines <==> refs.hasMovements
    ensures refs.hasSales ==> lines[1] == SalesBullet
    ensures refs.hasMovements ==> lines[if refs.hasSales then 2 else 1] == MovementsBullet
  {
    [BlockHeader] + Bullets(refs) + ["", BlockFooter]
  }

  /** Lines joined with line breaks. */
  function JoinLines(lines: seq<string>): string
    decreases |lines|
  {
    if |lines| == 0 then ""
    else if |lines| == 1 then lines[0]
    else lines[0] + "\n" + JoinLines(lines[1..])
  }

  /** Each bullet followed by a line break, as the page appends them. */
  function BulletText(bullets: seq<string>): string
    decreases |bullets|
  {
    if |bullets| == 0 then "" else bullets[0] + "\n" + BulletText(bullets[1..])
  }

  /** Joining bullets, a blank line and a footer gives the bullets each
      followed by a break, then a break, then the footer. */
  lemma {:induction false} JoinBulletsAndFooter(bullets: seq<string>, footer: string)
    ensures JoinLines(bullets + ["", footer]) == BulletText(bullets) + "\n" + footer
    decreases |bullets|
  {
    if |bullets| == 0 {
      assert bullets + ["", footer] == ["", footer];
      assert ["", footer][1..] == [footer];
    } else {
      var rest := bullets[1..];
      assert (bullets + ["", footer])[1..] == rest + ["", footer];
      JoinBulletsAndFooter(rest, footer);
    }
  }

  /** The message as `handleDeleteClick` builds it, by appending to a
      string: the header and a break, each bullet present and a break, a
      break, the footer. It is the message's lines joined by breaks. */
  function AppendedMessage(header: string, first: string, second: string, footer: string,
                           hasFirst: bool, hasSecond: bool): (message: string)
    ensures message == JoinLines([header] + ((if hasFirst then [first] else []) + (if hasSecond then [second] else []))
                                 + ["", footer])
  {
    var message := header + "\n";
    var message := if hasFirst then message + first + "\n" else message;
    var message := if hasSecond then message + second + "\n" else message;
    var message := message + "\n" + footer;
    JoinBlockLines(header, first, second, footer, hasFirst, hasSecond, message);
    message
  }

  /** The blocking message of `handleDeleteClick`. There is none when
      nothing refers to the product; otherwise it is exactly the lines of
      `BlockLines`, joined. */
  function BlockMessage(refs: References): (m: Option<string>)
    ensures m.None? <==> !refs.hasSales && !refs.hasMovements
    ensures m.Some? ==> m.value == JoinLines(BlockLines(refs))
  {
    if refs.hasSales || refs.hasMovements then
      Some(AppendedMessage(BlockHeader, SalesBullet, MovementsBullet, BlockFooter, refs.hasSales, refs.hasMovements))
    else
      None
  }

  /** Joining a header, some bullets, a blank line and a footer. */
  lemma JoinMessageLines(header: string, bullets: seq<string>, footer: string)
    ensures JoinLines([header] + bullets + ["", footer]) == header + "\n" + BulletText(bullets) + "\n" + footer
  {
    var lines := [header] + bullets + ["", footer];
    assert lines[1..] == bullets + ["", footer];
    JoinBulletsAndFooter(bullets, footer);
  }

  /** The bullet text of zero, one or two optional bullets. */
  lemma OptionalBulletText(first: string, second: string, hasFirst: bool, hasSecond: bool)
    ensures BulletText((if hasFirst then [first] else []) + (if hasSecond then [second] else []))
            == (if hasFirst then first + "\n" else "") + (if hasSecond then second + "\n" else "")
  {
    var bullets := (if hasFirst then [first] else []) + (if hasSecond then [second] else []);
    if hasFirst && hasSecond {
      assert bullets == [first, second];
      assert bullets[1..] == [second];
      assert bullets[1..][1..] == [];
      assert BulletText([second]) == second + "\n" + "";
      assert BulletText(bullets) == first + "\n" + (second + "\n" + "");
    } else if hasFirst || hasSecond {
      assert bullets[1..] == [];
    }
  }

  /** A message appended piece by piece, as the page does, equals its lines
      joined: the header, the bullets present, a blank line, the footer. */
  lemma JoinBlockLines(header: string, first: string, second: string, footer: string,
                       hasFirst: bool, hasSecond: bool, message: string)
    requires message == header + "\n"
                        + (if hasFirst then first + "\n" else "")
                        + (if hasSecond then second + "\n" else "")
                        + "\n" + footer
    ensures message == JoinLines([header] + ((if hasFirst then [first] else []) + (if hasSecond then [second] else []))
                                 + ["", footer])
  {
    var bullets := (if hasFirst then [first] else []) + (if hasSecond then [second] else []);
    var firstText := if hasFirst then first + "\n" else "";
    var secondText := if hasSecond then second + "\n" else "";
    JoinMessageLines(header, bullets, footer);
    OptionalBulletText(first, second, hasFirst, hasSecond);
    assert header + "\n" + firstText + secondText == header + "\n" + (firstText + secondText);
  }

  /** The page state the deletion flow works on: the loaded list, the
      product picked for deletion, the blocking message, and whether the
      confirmation dialog is open. */
  datatype ProductsPage = ProductsPage(
    products: seq<Product>,
    toDelete: Option<Product>,
    deleteError: Option<string>,
    dialogOpen: bool)

  /** `handleDeleteClick`: pick the product, set or clear the blocking
      message from its references, open the dialog. */
  function DeleteClick(page: ProductsPage, product: Product, refs: References): (r: ProductsPage)
    ensures r.products == page.products && r.toDelete == Some(product) && r.dialogOpen
    ensures r.deleteError.Some? <==> refs.hasSales || refs.hasMovements
    ensures r.deleteError == BlockMessage(refs)
  {
    page.(toDelete := Some(product), deleteError := BlockMessage(refs), dialogOpen := true)
  }

  /** `confirmDelete` sends the delete request only when a product is
      selected and no blocking message is set. */
  predicate SendsDelete(page: ProductsPage)
  {
    page.toDelete.Some? && page.deleteError.None?
  }

  /** The store's answer to the delete request. */
  datatype DeleteResponse = Deleted | StoreError(code: string)

  /** The list without the product of id `id`. */
  function WithoutProduct(products: seq<Product>, id: string): seq<Product>
  {
    Filter(products, (p: Product) => p.id != id)
  }

  /** `confirmDelete`. Without a selection, or with a blocking message, it
      does nothing. A foreign-key error sets the blocking message and keeps
      the list. Any other error changes nothing on the page. A successful
      delete drops the product from the list and closes the dialog. */
  function ConfirmDelete(page: ProductsPage, response: DeleteResponse): (r: ProductsPage)
    ensures !SendsDelete(page) ==> r == page
    ensures SendsDelete(page) && response == StoreError(ForeignKeyViolation) ==>
              r == page.(deleteError := Some(ForeignKeyMessage))
    ensures SendsDelete(page) && response.StoreError? && response.code != ForeignKeyViolation ==> r == page
    ensures SendsDelete(page) && response.Deleted? ==>
              && (forall p :: p in r.products <==> p in page.products && p.id != page.toDelete.value.id)
              && r.toDelete.None? && !r.dialogOpen && r.deleteError == page.deleteError
  {
    if !SendsDelete(page) then page
    else match response
      case StoreError(code) =>
        if code == ForeignKeyViolation then page.(deleteError := Some(ForeignKeyMessage)) else page
      case Deleted =>
        page.(products := WithoutProduct(page.products, page.toDelete.value.id), toDelete := None, dialogOpen := false)
  }

  /** After a successful delete the list keeps every other product, in its
      original order, and a second confirmation is a no-op. */
  lemma ConfirmDeleteKeepsOrder(page: ProductsPage)
    requires SendsDelete(page)
    ensures IsSubsequence(ConfirmDelete(page, Deleted).products, page.products)
    ensures ConfirmDelete(ConfirmDelete(page, Deleted), Deleted) == ConfirmDelete(page, Deleted)
  {
    FilterIsSubsequence(page.products, (p: Product) => p.id != page.toDelete.value.id);
  }

  /** Once blocked, by references or by the store, confirming again sends
      nothing. */
  lemma BlockedDeleteStaysBlocked(page: ProductsPage, product: Product, refs: References)
    requires refs.hasSales || refs.hasMovements
    ensures !SendsDelete(DeleteClick(page, product, refs))
    ensures SendsDelete(page) ==>
              !SendsDelete(ConfirmDelete(page, StoreError(ForeignKeyViolation)))
  {
  }

  /** `filteredProdutos`: the products whose name contains the search term,
      ignoring case, in the list's order; an empty term keeps the whole
      list. */
  function FilterByName(products: seq<Product>, term: string): (r: seq<Product>)
    ensures forall p :: p in r <==> p in products && MatchesIgnoringCase(p.name, term)
    ensures term == "" ==> r == products
    ensures IsSubsequence(r, products)
  {
    var keep := (p: Product) => MatchesIgnoringCase(p.name, term);
    FilterIsSubsequence(products, keep);
    if term == "" then
      FilterKeepsAll(products, keep);
      Filter(products, keep)
    else
      Filter(products, keep)
  }

  // ---------------------------------------------------------------------
  // Product form (components/produtos/produto-form.tsx)
  // ---------------------------------------------------------------------

  /** The form's fields, prices already read as cents. */
  datatype ProductFormData = ProductFormData(name: string, costPrice: int, salePrice: int, category: string)

  /** The columns an edit writes; there is deliberately no stock column. */
  datatype ProductChanges = ProductChanges(name: string, costPrice: int, salePrice: int, category: string)

  /** The row an insert writes. */
  datatype NewProductRow = NewProductRow(name: string, costPrice: int, salePrice: int, category: string, stock: int)

  /** What the form's submit sends to the store. */
  datatype ProductWrite = UpdateProduct(id: string, changes: ProductChanges) | InsertProduct(row: NewProductRow)

  /** The form's submit handler: an update of the product being edited, or an
      insert of a new product starting at stock 0. The name is copied as
      typed, the category trimmed. */
  function ProductFormWrite(form: ProductFormData, editing: Option<Product>): (w: ProductWrite)
    ensures w.UpdateProduct? <==> editing.Some?
    ensures w.UpdateProduct? ==>
              && w.id == editing.value.id
              && w.changes == ProductChanges(form.name, form.costPrice, form.salePrice, Trim(form.category))
    ensures w.InsertProduct? ==>
              w.row == NewProductRow(form.name, form.costPrice, form.salePrice, Trim(form.category), 0)
  {
    match editing
    case Some(product) =>
      UpdateProduct(product.id, ProductChanges(form.name, form.costPrice, form.salePrice, Trim(form.category)))
    case None =>
      InsertProduct(NewProductRow(form.name, form.costPrice, form.salePrice, Trim(form.category), 0))
  }

  /** What an update by key does to the stored row: the written columns take
      their new values and every other column keeps its own. */
  function ApplyChanges(p: Product, c: ProductChanges): Product
  {
    p.(name := c.name, costPrice := c.costPrice, salePrice := c.salePrice, category := c.category)
  }

  /** The stored row of an insert, under the id the store assigns. */
  function Inserted(id: string, row: NewProductRow): Product
  {
    Product(id, row.name, row.costPrice, row.salePrice, row.category, row.stock)
  }

  /** Saving the form never changes a stock: editing keeps the stored stock,
      an insert writes a stock of 0, and the stored category has no white
      space at either end. */
  lemma ProductFormKeepsStock(form: ProductFormData, product: Product, newId: string)
    ensures var edited := ApplyChanges(product, ProductFormWrite(form, Some(product)).changes);
            && edited.stock == product.stock && edited.id == product.id && edited.name == form.name
            && (|edited.category| == 0 || (!IsSpace(edited.category[0]) && !IsSpace(edited.category[|edited.category| - 1])))
    ensures var created := Inserted(newId, ProductFormWrite(form, None).row);
            && created.stock == 0 && created.name == form.name && created.category == Trim(form.category)
  {
    TrimSpec(form.category);
  }
}
