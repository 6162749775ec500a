/**
 The records the application reads from and writes to its five tables
 (`produtos`, `movimentacoes_estoque`, `vendas`, `itens_venda`, `despesas`),
 reduced to the fields the business rules look at. Money is in integer
 cents; quantities are integers.
 */
module Domain {

  /** A value that may be absent (`null`/`undefined` in the source). */
  datatype Option<+T> = None | Some(value: T)

  /** Either the value an operation produced or the error that stopped it. */
  datatype Result<+T, +E> = Ok(value: T) | Err(error: E)

  /** The type of a stock movement: `entrada` adds to stock, `saida` takes
      from it. */
  datatype Kind = Entrada | Saida

  /** A month number as `getMonth() + 1` yields it. */
  type MonthNumber = m: int | 1 <= m <= 12 witness 1

  /** A calendar date reduced to what the pages look at: its year and month. */
  datatype Date = Date(year: int, month: MonthNumber)

  /** A row of `produtos`. Prices are in cents. */
  datatype Product = Product(
    id: string,
    name: string,
    costPrice: int,
    salePrice: int,
    category: string,
    stock: int)

  /** A row of `movimentacoes_estoque`; `reason` is the nullable `motivo`. */
  datatype Movement = Movement(
    id: string,
    productId: string,
    kind: Kind,
    quantity: int,
    reason: Option<string>,
    date: Date)

  /** A row of `despesas`. The amount is in cents. */
  datatype Expense = Expense(id: string, description: string, amount: int, date: Date)

  function ExpenseAmount(expense: Expense): int { expense.amount }

  /** `products.find((p) => p.id === id)` over a loaded product snapshot. */
  function FindProduct(products: seq<Product>, id: string): (r: Option<Product>)
    ensures r.Some? ==> r.value in products && r.value.id == id
    ensures r.None? <==> forall k :: 0 <= k < |products| ==> products[k].id != id
    decreases |products|
  {
    if |products| == 0 then None
    else if products[0].id == id then Some(products[0])
    else FindProduct(products[1..], id)
  }

  /** When several products share an id, `find` returns the first of them. */
  lemma {:induction false} FindProductFirst(products: seq<Product>, id: string, i: int)
    requires 0 <= i < |products| && products[i].id == id
    requires forall k :: 0 <= k < i ==> products[k].id != id
    ensures FindProduct(products, id) == Some(products[i])
    decreases i
  {
    if i > 0 {
      FindProductFirst(products[1..], id, i - 1);
    }
  }
}
