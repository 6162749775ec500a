/**
 The three places where a stock movement is accepted or rejected before it
 is written to `movimentacoes_estoque`:
   - the stand-alone "nova movimentação" form,
   - the movement dialog of the stock page,
   - the edit action on an existing movement.
 Stock itself is kept by a database trigger that this model does not
 include. The handlers only compare against a stock snapshot they were
 given, and that snapshot is a parameter here.
 */
module StockMovements {
  import opened Domain

  /** The signed change a movement makes to its product's stock. */
  function Effect(kind: Kind, quantity: int): int
  {
    match kind
    case Entrada => quantity
    case Saida => -quantity
  }

  /** Why a movement was refused. `InsufficientStock` carries the stock the
      check compared against. */
  datatype MovementError = MissingFields | NonPositiveQuantity | InsufficientStock(available: int)

  /** The row the handlers insert into `movimentacoes_estoque`. */
  datatype MovementInsert = MovementInsert(productId: string, kind: Kind, quantity: int, reason: Option<string>)

  // ---------------------------------------------------------------------
  // Stand-alone form (components/estoque/nova-movimentacao-form.tsx)
  // ---------------------------------------------------------------------

  /** The form's three fields. An empty quantity box is `None`; otherwise it
      holds the integer `parseInt` read from it. An unselected type is
      `None`. */
  datatype NewMovementForm = NewMovementForm(productId: string, quantity: Option<int>, kind: Option<Kind>)

  /** The form as it starts, and as it is reset after a successful save. */
  const EmptyNewMovementForm := NewMovementForm("", None, None)

  /** The reason text the form stores with each movement it writes. */
  function ManualReason(kind: Kind): (r: string)
    ensures r == "Entrada manual de estoque" <==> kind == Entrada
    ensures r == "Saída manual de estoque" <==> kind == Saida
  {
    (if kind == Entrada then "Entrada" else "Saída") + " manual de estoque"
  }

  /** All three fields of the form are filled in. */
  predicate Filled(form: NewMovementForm)
  {
    form.productId != "" && form.quantity.Some? && form.kind.Some?
  }

  /** The check chain of the form's submit handler, ending in the row it
      inserts: required fields first, then a positive quantity, then, for a
      `saida` whose product is in the snapshot, enough stock. */
  function ValidateNewMovement(form: NewMovementForm, products: seq<Product>): (r: Result<MovementInsert, MovementError>)
    ensures r == Err(MissingFields) <==> !Filled(form)
    ensures r == Err(NonPositiveQuantity) <==> Filled(form) && form.quantity.value <= 0
    ensures (r.Err? && r.error.InsufficientStock?) <==>
              && Filled(form) && form.quantity.value > 0 && form.kind.value == Saida
              && FindProduct(products, form.productId).Some?
              && FindProduct(products, form.productId).value.stock + Effect(Saida, form.quantity.value) < 0
    ensures r.Err? && r.error.InsufficientStock? ==>
              r.error.available == FindProduct(products, form.productId).value.stock
    ensures r.Ok? ==> Filled(form) && r.value.quantity > 0
    ensures r.Ok? ==> r.value == MovementInsert(form.productId, form.kind.value, form.quantity.value,
                                                Some(ManualReason(form.kind.value)))
  {
    if form.productId == "" || form.quantity.None? || form.kind.None? then
      Err(MissingFields)
    else
      var quantity := form.quantity.value;
      if quantity <= 0 then
        Err(NonPositiveQuantity)
      else if form.kind.value == Saida
              && FindProduct(products, form.productId).Some?
              && quantity > FindProduct(products, form.productId).value.stock then
        Err(InsufficientStock(FindProduct(products, form.productId).value.stock))
      else
        Ok(MovementInsert(form.productId, form.kind.value, quantity, Some(ManualReason(form.kind.value))))
  }

  /** A filled-in `entrada` with a positive quantity is never refused, whatever
      the snapshot says; a `saida` of exactly the stock on hand is accepted,
      because the comparison is strict. */
  lemma NewMovementStockBoundary(form: NewMovementForm, products: seq<Product>)
    requires Filled(form) && form.quantity.value > 0
    ensures form.kind.value == Entrada ==> ValidateNewMovement(form, products).Ok?
    ensures form.kind.value == Saida && FindProduct(products, form.productId).Some?
            && form.quantity.value == FindProduct(products, form.productId).value.stock
            ==> ValidateNewMovement(form, products).Ok?
    ensures form.kind.value == Saida && FindProduct(products, form.productId).None?
            ==> ValidateNewMovement(form, products).Ok?
  {
  }

  /** The form's fields after a submit: cleared once the movement was
      accepted and saved, kept as typed when it was refused or the save
      failed. */
  function AfterNewMovementSubmit(form: NewMovementForm, products: seq<Product>, saved: bool): (next: NewMovementForm)
    ensures ValidateNewMovement(form, products).Ok? && saved ==>
              next.productId == "" && next.quantity.None? && next.kind.None?
    ensures ValidateNewMovement(form, products).Err? ==> next == form
    ensures !saved ==> next == form
  {
    if ValidateNewMovement(form, products).Ok? && saved then EmptyNewMovementForm else form
  }

  // ---------------------------------------------------------------------
  // Dialog on the stock page (components/estoque/movimentacao-form.tsx)
  // ---------------------------------------------------------------------

  /** The dialog's fields: the parsed quantity and the free-text reason. */
  datatype MovementDialogForm = MovementDialogForm(productId: string, kind: Kind, quantity: int, reason: string)

  /** The dialog's submit handler: the only check is stock for a `saida`
      whose product is in the snapshot; an empty reason is stored as null. */
  function SubmitMovementDialog(form: MovementDialogForm, products: seq<Product>): (r: Result<MovementInsert, MovementError>)
    ensures r.Err? <==>
              && form.kind == Saida
              && FindProduct(products, form.productId).Some?
              && FindProduct(products, form.productId).value.stock + Effect(Saida, form.quantity) < 0
    ensures r.Err? ==> r.error == InsufficientStock(FindProduct(products, form.productId).value.stock)
    ensures r.Ok? ==> && r.value.productId == form.productId
                      && r.value.kind == form.kind
                      && r.value.quantity == form.quantity
    ensures r.Ok? ==> (r.value.reason.None? <==> form.reason == "")
    ensures r.Ok? && r.value.reason.Some? ==> r.value.reason.value == form.reason
  {
    var product := FindProduct(products, form.productId);
    if form.kind == Saida && product.Some? && form.quantity > product.value.stock then
      Err(InsufficientStock(product.value.stock))
    else
      Ok(MovementInsert(form.productId, form.kind, form.quantity,
                        if form.reason == "" then None else Some(form.reason)))
  }

  // ---------------------------------------------------------------------
  // Editing a movement (components/estoque/movimentacao-actions.tsx)
  // ---------------------------------------------------------------------

  /** The edit dialog's fields: the new quantity and the new type. */
  datatype MovementEdit = MovementEdit(quantity: int, kind: Kind)

  /** The bound the edit handler compares a new outbound quantity with: the
      stock, plus the original quantity if it was a `saida`, minus it if it
      was an `entrada`. That is the stock as it would be without the original
      movement. */
  function EditAllowance(stock: int, original: Movement): (a: int)
    ensures a == Undo(stock, original)
    ensures a + Effect(original.kind, original.quantity) == stock
  {
    stock
      + (if original.kind == Saida then original.quantity else 0)
      - (if original.kind == Entrada then original.quantity else 0)
  }

  /** The stock as it would be without the original movement. */
  function Undo(stock: int, original: Movement): int
  {
    stock - Effect(original.kind, original.quantity)
  }

  /** The edit handler as written. A non-positive quantity is refused. A new
      `saida` is checked only when the product's stock was loaded. Every other
      edit is written. The update touches the quantity and the type only. */
  function EditMovement(original: Movement, edit: MovementEdit, stock: Option<int>): (r: Result<Movement, MovementError>)
    ensures r == Err(NonPositiveQuantity) <==> edit.quantity <= 0
    ensures edit.quantity > 0 ==>
              (r.Err? <==> edit.kind == Saida && stock.Some?
                           && Undo(stock.value, original) + Effect(edit.kind, edit.quantity) < 0)
    ensures r.Err? && edit.quantity > 0 ==> r.error == InsufficientStock(stock.value)
    ensures r.Ok? ==> && r.value.quantity == edit.quantity && r.value.kind == edit.kind
                      && r.value.id == original.id && r.value.productId == original.productId
                      && r.value.reason == original.reason && r.value.date == original.date
  {
    if edit.quantity <= 0 then
      Err(NonPositiveQuantity)
    else if edit.kind == Saida && stock.Some? && edit.quantity > EditAllowance(stock.value, original) then
      Err(InsufficientStock(stock.value))
    else
      Ok(original.(quantity := edit.quantity, kind := edit.kind))
  }

  /** The handler's formula is exactly "undo the original movement, then apply
      the new `saida`, and refuse if the stock would go below zero", for
      either type of original movement. */
  lemma EditAllowanceIsUndoThenApply(stock: int, original: Movement, newQuantity: int)
    ensures newQuantity > EditAllowance(stock, original)
            <==> Undo(stock, original) + Effect(Saida, newQuantity) < 0
    ensures original.kind == Entrada ==> EditAllowance(stock, original) == stock - original.quantity
    ensures original.kind == Saida ==> EditAllowance(stock, original) == stock + original.quantity
  {
  }

  /** The edit check as evidently intended: undo the original movement, apply
      the edited one, and refuse if the stock would go below zero, whatever
      the new type. */
  function EditMovementGuarded(original: Movement, edit: MovementEdit, stock: Option<int>): (r: Result<Movement, MovementError>)
    ensures r == Err(NonPositiveQuantity) <==> edit.quantity <= 0
    ensures r.Ok? && stock.Some? ==> Undo(stock.value, original) + Effect(edit.kind, edit.quantity) >= 0
    ensures edit.quantity > 0 ==>
              (r.Err? <==> stock.Some? && Undo(stock.value, original) + Effect(edit.kind, edit.quantity) < 0)
    ensures edit.kind == Saida ==> r == EditMovement(original, edit, stock)
    ensures r.Ok? ==> r == EditMovement(original, edit, stock)
  {
    if edit.quantity <= 0 then
      Err(NonPositiveQuantity)
    else if stock.Some? && Undo(stock.value, original) + Effect(edit.kind, edit.quantity) < 0 then
      Err(InsufficientStock(stock.value))
    else
      Ok(original.(quantity := edit.quantity, kind := edit.kind))
  }

  /** As written, shrinking an `entrada` is never checked: with 5 units on
      hand after an `entrada` of 10 and a `saida` of 5, editing the `entrada`
      down to 1 is accepted although the ledger then nets to -4. The guarded
      version refuses the same edit. */
  lemma EditEntradaCanDriveStockNegative()
    ensures var original := Movement("m1", "p1", Entrada, 10, None, Date(2025, 3));
            var edit := MovementEdit(1, Entrada);
            && EditMovement(original, edit, Some(5)).Ok?
            && Undo(5, original) + Effect(edit.kind, edit.quantity) == -4
            && EditMovementGuarded(original, edit, Some(5)) == Err(InsufficientStock(5))
  {
  }
}
