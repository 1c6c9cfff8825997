/** The order service (servico-pedidos): the order-creation workflow of
    POST /pedidos and the in-memory order store it owns.

    The customer and product lists the handler fetches from the two other
    services are parameters here; `None` stands for a fetch that threw (the
    service was down or timed out). Prices, subtotals and totals are integer
    cents, so rounding the total to two decimals changes nothing. */
module Pedidos {
  import opened Common
  import opened Clientes
  import opened Produtos

  /** One entry of the request's `itens`. `None` stands for an absent field:
      an absent `produtoId` converts to NaN and matches no product, an absent
      `quantidade` counts as 1. */
  datatype ItemRequest = ItemRequest(produtoId: Option<int>, quantidade: Option<int>)

  /** A priced line item: the product as it was at creation time, the
      normalised quantity and their product. */
  datatype LineItem = LineItem(produtoId: int, nome: string, preco: int, quantidade: int, subtotal: int)

  /** A stored order; `cliente` is the snapshot `{id, nome}` of the customer. */
  datatype Order = Order(id: int, cliente: Customer, itens: seq<LineItem>, total: int)

  function OrderId(o: Order): int { o.id }

  /** Reply of POST /pedidos. */
  datatype Reply =
    | Created(order: Order)                  // 201
    | InvalidRequest                         // 400, clienteId or itens missing
    | CustomerNotFound                       // 404, "Cliente não encontrado"
    | ProductNotFound(produtoId: Option<int>) // 404, "Produto <id> não encontrado"
    | InternalError                          // 500, a fetch threw

  /** Outcome of pricing the request's items: every line, or the index of the
      first item whose product does not resolve. */
  datatype Pricing = Priced(lines: seq<LineItem>, total: int) | Unresolved(at: nat)

  /** getCliente: the first customer whose id is `clienteId`. */
  function GetCliente(clientes: seq<Customer>, clienteId: int): (r: Option<Customer>)
    ensures r.None? <==> forall i :: 0 <= i < |clientes| ==> clientes[i].id != clienteId
    ensures r.Some? ==> exists i :: 0 <= i < |clientes| && clientes[i] == r.value && r.value.id == clienteId
                                    && forall j :: 0 <= j < i ==> clientes[j].id != clienteId
  {
    match FindIndex(clientes, (c: Customer) => c.id == clienteId)
    case None => None
    case Some(i) => Some(clientes[i])
  }

  /** getProduto: the first product whose id is `produtoId`; a reference that
      converts to NaN matches nothing. */
  function GetProduto(produtos: seq<Product>, produtoId: Option<int>): (r: Option<Product>)
    ensures produtoId.None? ==> r.None?
    ensures produtoId.Some? ==> (r.None? <==> forall i :: 0 <= i < |produtos| ==> produtos[i].id != produtoId.value)
    ensures r.Some? ==> exists i :: 0 <= i < |produtos| && produtos[i] == r.value && r.value.id == produtoId.value
                                    && forall j :: 0 <= j < i ==> produtos[j].id != produtoId.value
  {
    if produtoId.None? then None
    else match FindIndex(produtos, (p: Product) => p.id == produtoId.value)
      case None => None
      case Some(i) => Some(produtos[i])
  }

  /** In a list whose ids are unique (the services' own discipline), looking
      up a stored record's id yields exactly that record. */
  lemma GetClienteFindsStored(clientes: seq<Customer>, next: int, k: nat)
    requires IdsAscending(clientes, CustomerId, next)
    requires k < |clientes|
    ensures GetCliente(clientes, clientes[k].id) == Some(clientes[k])
  {
    AscendingIdsDistinct(clientes, CustomerId, next);
  }

  /** The same for products. */
  lemma GetProdutoFindsStored(produtos: seq<Product>, next: int, k: nat)
    requires IdsAscending(produtos, ProductId, next)
    requires k < |produtos|
    ensures GetProduto(produtos, Some(produtos[k].id)) == Some(produtos[k])
  {
    AscendingIdsDistinct(produtos, ProductId, next);
  }

  /** The stored quantity `Math.max(1, Number(quantidade || 1))`: a positive
      quantity is kept, a missing, zero or negative one becomes 1. */
  function NormalizeQuantity(q: Option<int>): (n: int)
    ensures n >= 1
    ensures q.Some? && q.value >= 1 ==> n == q.value
    ensures q.None? || q.value < 1 ==> n == 1
  {
    var requested := if q.None? || q.value == 0 then 1 else q.value;
    if requested < 1 then 1 else requested
  }

  /** The line item for one resolved product. */
  function PriceLine(p: Product, q: Option<int>): (line: LineItem)
    ensures line.produtoId == p.id && line.nome == p.nome && line.preco == p.preco
    ensures line.quantidade == NormalizeQuantity(q) && line.quantidade >= 1
    ensures line.subtotal == line.preco * line.quantidade
  {
    var n := NormalizeQuantity(q);
    LineItem(p.id, p.nome, p.preco, n, p.preco * n)
  }

  /** Sum of the subtotals of `lines`. */
  function Total(lines: seq<LineItem>): int
  {
    if lines == [] then 0 else lines[0].subtotal + Total(lines[1..])
  }

  lemma {:induction false} TotalAppend(lines: seq<LineItem>, l: LineItem)
    ensures Total(lines + [l]) == Total(lines) + l.subtotal
  {
    if lines != [] {
      assert (lines + [l])[1..] == lines[1..] + [l];
      TotalAppend(lines[1..], l);
    }
  }

  lemma {:induction false} TotalNonNegative(lines: seq<LineItem>)
    requires forall k :: 0 <= k < |lines| ==> lines[k].subtotal >= 0
    ensures Total(lines) >= 0
  {
    if lines != [] {
      TotalNonNegative(lines[1..]);
    }
  }

  /** A product reference of the request resolves in the catalogue. */
  predicate Resolves(produtos: seq<Product>, item: ItemRequest)
  {
    GetProduto(produtos, item.produtoId).Some?
  }

  /** The index of the first item, in request order, whose product does not
      resolve. */
  function FirstUnresolved(produtos: seq<Product>, itens: seq<ItemRequest>): (r: Option<nat>)
    ensures r.Some? ==> r.value < |itens| && !Resolves(produtos, itens[r.value])
    ensures r.Some? ==> forall k :: 0 <= k < r.value ==> Resolves(produtos, itens[k])
    ensures r.None? <==> forall k :: 0 <= k < |itens| ==> Resolves(produtos, itens[k])
  {
    FindIndex(itens, (item: ItemRequest) => !Resolves(produtos, item))
  }

  /** An item that does not resolve, preceded only by items that do, is the
      first unresolved one. */
  lemma FirstUnresolvedIsUnique(produtos: seq<Product>, itens: seq<ItemRequest>, i: nat)
    requires i < |itens| && !Resolves(produtos, itens[i])
    requires forall k :: 0 <= k < i ==> Resolves(produtos, itens[k])
    ensures FirstUnresolved(produtos, itens) == Some(i)
  {
  }

  /** `lines` prices `itens` one to one and in order, each line from the
      product its item resolves to. */
  ghost predicate PricedAs(produtos: seq<Product>, itens: seq<ItemRequest>, lines: seq<LineItem>)
  {
    && |lines| == |itens|
    && forall k :: 0 <= k < |itens| ==>
         && Resolves(produtos, itens[k])
         && lines[k] == PriceLine(GetProduto(produtos, itens[k].produtoId).value, itens[k].quantidade)
  }

  /** Pricing one more resolved item extends the priced prefix by its line. */
  lemma PricedAsExtend(produtos: seq<Product>, itens: seq<ItemRequest>, i: nat, lines: seq<LineItem>)
    requires i < |itens| && Resolves(produtos, itens[i])
    requires PricedAs(produtos, itens[..i], lines)
    ensures PricedAs(produtos, itens[..i + 1],
                     lines + [PriceLine(GetProduto(produtos, itens[i].produtoId).value, itens[i].quantidade)])
  {
    assert itens[..i + 1] == itens[..i] + [itens[i]];
  }

  /** When no catalogue price is negative, neither is any priced total. */
  lemma PricedTotalNonNegative(produtos: seq<Product>, itens: seq<ItemRequest>, lines: seq<LineItem>)
    requires forall j :: 0 <= j < |produtos| ==> produtos[j].preco >= 0
    requires PricedAs(produtos, itens, lines)
    ensures Total(lines) >= 0
  {
    forall k | 0 <= k < |lines|
      ensures lines[k].subtotal >= 0
    {
      var p := GetProduto(produtos, itens[k].produtoId).value;
      assert p.preco >= 0;
      assert lines[k].subtotal == p.preco * lines[k].quantidade;
    }
    TotalNonNegative(lines);
  }

  /** Every order in the store has a line, a total equal to the sum of its
      subtotals, and lines whose quantity is at least 1 and whose subtotal is
      price times quantity. */
  ghost predicate WellFormed(o: Order)
  {
    && |o.itens| >= 1
    && o.total == Total(o.itens)
    && forall k :: 0 <= k < |o.itens| ==>
         o.itens[k].quantidade >= 1 && o.itens[k].subtotal == o.itens[k].preco * o.itens[k].quantidade
  }

  /** Pricing a non-empty request yields the lines of a well-formed order. */
  lemma PricedOrderWellFormed(produtos: seq<Product>, itens: seq<ItemRequest>, o: Order)
    requires |itens| >= 1
    requires PricedAs(produtos, itens, o.itens)
    requires o.total == Total(o.itens)
    ensures WellFormed(o)
  {
  }

  /** The `for (const item of itens)` loop of the handler: resolve each item's
      product in request order, stopping at the first that does not resolve,
      and accumulate line items and the running total. */
  method PriceItems(produtos: seq<Product>, itens: seq<ItemRequest>) returns (r: Pricing)
    ensures r.Unresolved? <==> FirstUnresolved(produtos, itens).Some?
    ensures r.Unresolved? ==> FirstUnresolved(produtos, itens) == Some(r.at)
    ensures r.Priced? ==> PricedAs(produtos, itens, r.lines) && r.total == Total(r.lines)
  {
    var total := 0;
    var lines: seq<LineItem> := [];
    var i := 0;
    while i < |itens|
      invariant 0 <= i <= |itens|
      invariant |lines| == i
      invariant PricedAs(produtos, itens[..i], lines)
      invariant total == Total(lines)
    {
      var prod := GetProduto(produtos, itens[i].produtoId);
      if prod.None? {
        FirstUnresolvedIsUnique(produtos, itens, i);
        return Unresolved(i);
      }
      var line := PriceLine(prod.value, itens[i].quantidade);
      PricedAsExtend(produtos, itens, i, lines);
      TotalAppend(lines, line);
      total := total + line.subtotal;
      lines := lines + [line];
      i := i + 1;
    }
    assert itens[..i] == itens;
    return Priced(lines, total);
  }

  /** The handler's input check: a truthy `clienteId` (present and not 0) and
      a non-empty `itens` array. */
  predicate ValidRequest(clienteId: Option<int>, itens: Option<seq<ItemRequest>>)
  {
    clienteId.Some? && clienteId.value != 0 && itens.Some? && |itens.value| > 0
  }

  class OrderService {
    var pedidos: seq<Order>
    var nextId: int

    /** Order ids follow the counter discipline and every order is well formed. */
    ghost predicate Valid()
      reads this
    {
      && IdsAscending(pedidos, OrderId, nextId)
      && forall i :: 0 <= i < |pedidos| ==> WellFormed(pedidos[i])
    }

    /** The store starts empty with the counter at 1. */
    constructor ()
      ensures Valid()
      ensures pedidos == [] && nextId == 1
    {
      pedidos := [];
      nextId := 1;
    }

    /** GET /pedidos: every order, in insertion order. */
    method List() returns (all: seq<Order>)
      ensures all == pedidos
    {
      all := pedidos;
    }

    /** POST /pedidos. Every failure leaves the store and the counter as they
        were; only a fully priced order takes an id and is appended. */
    method Create(clienteId: Option<int>, itens: Option<seq<ItemRequest>>,
                  clientes: Option<seq<Customer>>, produtos: Option<seq<Product>>)
      returns (r: Reply)
      requires Valid()
      modifies this
      ensures Valid()
      ensures !ValidRequest(clienteId, itens) ==> r == InvalidRequest
      ensures ValidRequest(clienteId, itens) && clientes.None? ==> r == InternalError
      ensures ValidRequest(clienteId, itens) && clientes.Some? ==>
                (GetCliente(clientes.value, clienteId.value).None? <==> r == CustomerNotFound)
      ensures ValidRequest(clienteId, itens) && clientes.Some? && GetCliente(clientes.value, clienteId.value).Some? ==>
                && (produtos.None? ==> r == InternalError)
                && (produtos.Some? && FirstUnresolved(produtos.value, itens.value).Some? ==>
                      r == ProductNotFound(itens.value[FirstUnresolved(produtos.value, itens.value).value].produtoId))
      ensures r.Created? <==>
                && ValidRequest(clienteId, itens)
                && clientes.Some? && GetCliente(clientes.value, clienteId.value).Some?
                && produtos.Some? && FirstUnresolved(produtos.value, itens.value).None?
      ensures r.Created? ==>
                && r.order.id == old(nextId)
                && r.order.cliente == GetCliente(clientes.value, clienteId.value).value
                && PricedAs(produtos.value, itens.value, r.order.itens)
                && r.order.total == Total(r.order.itens)
      ensures r.Created? ==> nextId == old(nextId) + 1 && pedidos == old(pedidos) + [r.order]
      ensures !r.Created? ==> nextId == old(nextId) && pedidos == old(pedidos)
    {
      if !ValidRequest(clienteId, itens) {
        return InvalidRequest;
      }
      if clientes.None? {
        return InternalError;
      }
      var cliente := GetCliente(clientes.value, clienteId.value);
      if cliente.None? {
        return CustomerNotFound;
      }
      if produtos.None? {
        return InternalError;
      }
      var pricing := PriceItems(produtos.value, itens.value);
      match pricing
      case Unresolved(at) =>
        return ProductNotFound(itens.value[at].produtoId);
      case Priced(lines, total) =>
        var pedido := Order(nextId, Customer(cliente.value.id, cliente.value.nome), lines, total);
        PricedOrderWellFormed(produtos.value, itens.value, pedido);
        AppendNextId(pedidos, OrderId, nextId, pedido);
        nextId := nextId + 1;
        pedidos := pedidos + [pedido];
        return Reply.Created(pedido);
    }
  }
}
