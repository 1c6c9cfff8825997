# Order-management demo: order creation and the three in-memory stores

This project models, in Dafny, the core of a small order-management demo made
of three Express services:

- the **order service** (`servico-pedidos`), whose POST `/pedidos` handler
  validates a request, looks up the customer and then each product in request
  order, prices every line item, sums a total and only then takes the next
  order id and appends the order to its in-memory store; GET `/pedidos` lists
  that store;
- the **customer service** (`servico-clientes`) and the **product service**
  (`servico-produtos`), each an append-only in-memory list with a `nextId`
  counter, seed records below the counter, a GET that lists everything and a
  POST that validates and appends.

Each service's module state is a class (`CustomerService`, `ProductService`,
`OrderService`) whose `Create` method changes its list and counter in place
and keeps the invariant `Valid()`. In all three stores the ids are at least 1,
below the counter and strictly increasing in list order (so never reused).
Customers and products also have non-empty names. Orders have at least one
line, subtotals equal to price times a quantity of at least 1, and a total
equal to the sum of the subtotals.

The order service reaches the other two over HTTP; here the lists those GETs
return are parameters of `OrderService.Create`, and `None` stands for a GET
that threw, which the handler turns into a 500. `getCliente` and `getProduto`
are the pure searches `GetCliente` and `GetProduto`, built on `FindIndex`
(the first element satisfying a predicate, as `Array.prototype.find`). The
handler's loop over `itens` is the method `PriceItems`.

Money is integer cents: product 1 costs 12050, product 2 costs 7000. With
cents, every subtotal and total is exact and `Number(total.toFixed(2))` leaves
the total unchanged, so the model stores the sum itself.

Request fields are modelled by their effect on the handler: `clienteId` and
`quantidade` are `Option<int>` (`None` for absent or null; `Some(0)` is
falsy like `None`), `produtoId` is `Option<int>` where `None` is a reference
that `Number(...)` turns into NaN, which matches no product, and `itens` is
`Option<seq<ItemRequest>>` where `None` is "not an array".

The module `Scenarios` replays, from the contracts alone, Alice's order for
two keyboards and one mouse (subtotals 241.00 and 70.00, total 311.00, id 1),
a second order taking id 2, and the failure paths (400 for a missing or falsy
`clienteId` and a missing or empty `itens`, 404 for customer 999, 404 naming
product 999, 500 when the customer service or the product service is down),
each with the store and counter unchanged.

The model keeps three behaviours of the code:

- `clienteId` is only checked for falsiness (servico-pedidos/index.js:57); a
  negative id passes that check and ends in 404 "Cliente não encontrado".
- A lookup fetch that throws gets the same 500 as any other failure inside the
  handler's `try` (servico-pedidos/index.js:99-102).
- The product service does not check the sign of a price
  (servico-produtos/index.js:41), so a negative price, and with it a negative
  order total, can occur; `PricedTotalNonNegative` states the total is
  non-negative when no catalogue price is negative.

## Model

| member | source | states |
|---|---|---|
| `Common.FindIndex` | servico-pedidos/index.js:35 | the result is the index of the first element satisfying the predicate, and is `None` exactly when no element does |
| `Common.AppendNextId` | servico-clientes/index.js:44-45 | appending a record whose id is the counter, then advancing the counter by 1, keeps ids at least 1, below the counter and strictly increasing |
| `Common.AscendingIdsDistinct` | servico-clientes/index.js:26-30 | under that id discipline no two records share an id and the counter's value is not yet used |
| `Clientes.CustomerService.constructor` | servico-clientes/index.js:26-30 | the store starts as Alice (1) and Bruno (2) with the counter at 3, and satisfies the id invariant |
| `Clientes.CustomerService.List` | servico-clientes/index.js:37-39 | GET returns exactly the stored customers in insertion order and changes nothing |
| `Clientes.CustomerService.Create` | servico-clientes/index.js:41-47 | a missing or empty name is refused (400) with list and counter unchanged; otherwise the new customer gets the old counter as id, is appended at the end, earlier records are kept and the counter rises by 1; the invariant is preserved |
| `Produtos.ProductService.constructor` | servico-produtos/index.js:23-27 | the catalogue starts as Teclado (1, 120.50) and Mouse (2, 70.00) with the counter at 3, and satisfies the id invariant |
| `Produtos.ProductService.List` | servico-produtos/index.js:34-36 | GET returns exactly the stored products in insertion order and changes nothing |
| `Produtos.ProductService.Create` | servico-produtos/index.js:39-46 | refused (400), changing nothing, exactly when the name is missing or empty or the price is absent; a price of 0 is accepted; otherwise the product gets the old counter as id, is appended at the end and the counter rises by 1 |
| `Pedidos.GetCliente` | servico-pedidos/index.js:33-36 | returns the first customer in list order whose id equals the reference, and nothing exactly when no customer has that id |
| `Pedidos.GetProduto` | servico-pedidos/index.js:37-40 | returns the first product whose id equals the reference, nothing when no product has it, and nothing for a reference that converts to NaN |
| `Pedidos.GetClienteFindsStored` | servico-pedidos/index.js:33-36 | in a customer list with the service's id discipline, looking up a stored customer's id returns that customer |
| `Pedidos.GetProdutoFindsStored` | servico-pedidos/index.js:37-40 | in a catalogue with the service's id discipline, looking up a stored product's id returns that product |
| `Pedidos.NormalizeQuantity` | servico-pedidos/index.js:78 | the stored quantity is at least 1, equals the requested quantity when that is positive, and is 1 when it is missing, zero or negative |
| `Pedidos.TotalAppend` | servico-pedidos/index.js:68-80 | adding a line's subtotal to the running total gives the sum of subtotals of the extended line list |
| `Pedidos.TotalNonNegative` | servico-pedidos/index.js:80 | a sum of non-negative subtotals is non-negative |
| `Pedidos.FirstUnresolved` | servico-pedidos/index.js:72-77 | names the first item, in request order, whose product does not resolve, all earlier items resolving; `None` exactly when every item resolves |
| `Pedidos.FirstUnresolvedIsUnique` | servico-pedidos/index.js:72-77 | an unresolved item preceded only by resolving items is the first unresolved one |
| `Pedidos.PricedAsExtend` | servico-pedidos/index.js:79-87 | pricing one more resolved item appends its line (product id, name, price, normalised quantity, price times quantity) to the lines of the items before it |
| `Pedidos.PricedTotalNonNegative` | servico-pedidos/index.js:79-80 | when no catalogue price is negative, the total of any priced request is non-negative |
| `Pedidos.PricedOrderWellFormed` | servico-pedidos/index.js:91-96 | an order built from a non-empty priced request has a line, a total equal to the sum of subtotals, quantities at least 1 and subtotals equal to price times quantity |
| `Pedidos.PriceLine` | servico-pedidos/index.js:78-87 | the line carries the resolved product's id, name and price, the normalised requested quantity (`NormalizeQuantity`), and a subtotal equal to price times that quantity |
| `Pedidos.PriceItems` | servico-pedidos/index.js:68-88 | the loop stops at exactly the first item whose product does not resolve; otherwise it returns one line per item in request order, each carrying the resolved product's id, name and price with subtotal price times normalised quantity, and a total equal to the sum of subtotals |
| `Pedidos.OrderService.constructor` | servico-pedidos/index.js:26-27 | the order store starts empty with the counter at 1 |
| `Pedidos.OrderService.List` | servico-pedidos/index.js:48-50 | GET returns exactly the stored orders in insertion order and changes nothing |
| `Pedidos.OrderService.Create` | servico-pedidos/index.js:53-103 | a falsy `clienteId` or a missing or empty `itens` gives 400 (the 400 condition is `ValidRequest`, servico-pedidos/index.js:57); a failed customer fetch gives 500; an unknown customer gives 404; a failed product fetch gives 500; otherwise the first unresolved item gives 404 naming its `produtoId`; in every failure the store and counter are unchanged; on success the order has the old counter as id, the customer snapshot, the priced lines of the items in request order and their summed total, it is appended at the end and the counter rises by exactly 1; the store invariant is preserved |
| `Scenarios.FetchSeeds` | servico-produtos/index.js:23-27 | freshly started customer and product services list Alice and Bruno, and Teclado at 120.50 and Mouse at 70.00, with ids 1 and 2 under a counter of 3 |

## Left out

- HTTP and Express: routing, middleware (cors, helmet, compression, morgan), health endpoints, the 404 and error handlers, `app.listen`, environment configuration, the gateway service and the React front end.
- The axios calls and their 3000 ms timeout: a lookup is a search over the list the collaborator service returns, passed in as a parameter; a fetch that throws or times out is `None`.
- Pedidos.OrderService.Create: takes one product list for the whole request, whereas the handler fetches the catalogue again for each item; with requests running one at a time to completion the lists are the same, and a product service that fails only part-way through a request is not modelled.
- Concurrent requests and their interleaving at `await` points: each call runs sequentially to completion.
- JavaScript numbers: prices, subtotals and totals are integer cents, quantities and ids are integers; fractional quantities, floating-point rounding error and the `toFixed(2)` rounding of non-cent amounts are not modelled.
- `Number(...)` and `String(...)` coercion of arbitrary JSON values: non-numeric strings for `clienteId` or `quantidade` (which give NaN in the source) and non-string names are not modelled. Numeric strings are modelled by their numeric value, but their truthiness differs: the string `"0"` as `clienteId` is truthy, passes the check at servico-pedidos/index.js:57 and ends in 404, whereas the model's `Some(0)` gives 400.
- A `null` entry of `itens`: reading `item.produtoId` throws at servico-pedidos/index.js:73 and the handler answers 500; `ItemRequest` is always a record, so this path is not modelled. Other entries that are not objects (a number, string, boolean or array) have no `produtoId`, so they behave like an item without one: 404 "Produto undefined não encontrado", modelled as `ItemRequest(None, _)` giving `ProductNotFound(None)`.
- The text of the error bodies (`erro` messages); replies are distinguished by constructor, each annotated with its HTTP status.
