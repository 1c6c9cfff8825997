/** Client runs of the three services, proved from their contracts alone:
    the worked order of Alice for two keyboards and a mouse, and the failure
    paths of POST /pedidos, /clientes and /produtos. */
module Scenarios {
  import opened Common
  import opened Clientes
  import opened Produtos
  import opened Pedidos

  /** The seed customers as GET /clientes returns them. */
  ghost predicate SeedCustomers(clientes: seq<Customer>)
  {
    && IdsAscending(clientes, CustomerId, 3)
    && |clientes| == 2
    && clientes[0] == Customer(1, "Alice")
    && clientes[1] == Customer(2, "Bruno")
  }

  /** The seed products as GET /produtos returns them. */
  ghost predicate SeedProducts(produtos: seq<Product>)
  {
    && IdsAscending(produtos, ProductId, 3)
    && |produtos| == 2
    && produtos[0] == Product(1, "Teclado", 12050)
    && produtos[1] == Product(2, "Mouse", 7000)
  }

  /** Freshly started customer and product services list their seed data. */
  method FetchSeeds() returns (clientes: seq<Customer>, produtos: seq<Product>)
    ensures SeedCustomers(clientes) && SeedProducts(produtos)
  {
    var customerService := new CustomerService();
    var productService := new ProductService();
    clientes := customerService.List();
    produtos := productService.List();
  }

  /** Alice (customer 1) orders two Teclado at 120.50 and one Mouse at 70.00:
      the order gets id 1, subtotals 241.00 and 70.00 and total 311.00, and
      listing twice gives the same store. */
  method WorkedOrder()
  {
    var clientes, produtos := FetchSeeds();
    var orderService := new OrderService();
    GetClienteFindsStored(clientes, 3, 0);
    GetProdutoFindsStored(produtos, 3, 0);
    GetProdutoFindsStored(produtos, 3, 1);
    var teclados, mouse := ItemRequest(Some(1), Some(2)), ItemRequest(Some(2), Some(1));
    assert Resolves(produtos, teclados) && Resolves(produtos, mouse);

    var r := orderService.Create(Some(1), Some([teclados, mouse]), Some(clientes), Some(produtos));
    assert r.Created?;
    var pedido := r.order;
    assert pedido.id == 1;
    assert pedido.cliente == Customer(1, "Alice");
    assert pedido.itens[0] == LineItem(1, "Teclado", 12050, 2, 24100);
    assert pedido.itens[1] == LineItem(2, "Mouse", 7000, 1, 7000);
    assert pedido.itens[1..][1..] == [];
    assert Total(pedido.itens[1..]) == 7000;
    assert pedido.total == 31100;

    var first := orderService.List();
    var again := orderService.List();
    assert first == again == [pedido];
  }

  /** Ids keep increasing across successful orders: after one stored order
      the next gets id 2, and an omitted quantity is stored as 1. */
  method SecondOrder()
  {
    var clientes, produtos := FetchSeeds();
    var orderService := new OrderService();
    GetClienteFindsStored(clientes, 3, 1);
    GetProdutoFindsStored(produtos, 3, 1);
    var item := ItemRequest(Some(2), None);
    assert Resolves(produtos, item);
    var r1 := orderService.Create(Some(2), Some([item]), Some(clientes), Some(produtos));
    assert r1.Created? && r1.order.id == 1 && orderService.nextId == 2;
    var r2 := orderService.Create(Some(2), Some([item]), Some(clientes), Some(produtos));
    assert r2.Created? && r2.order.id == 2;
    assert r2.order.itens[0].quantidade == 1;
    assert orderService.pedidos == [r1.order, r2.order];
  }

  /** A missing `clienteId`, a falsy one, a missing or an empty `itens` is
      refused before any lookup, and the store is untouched. */
  method InvalidOrders(clientes: seq<Customer>, produtos: seq<Product>)
  {
    var orderService := new OrderService();
    var one := [ItemRequest(Some(1), Some(1))];
    var r := orderService.Create(Some(1), Some([]), Some(clientes), Some(produtos));
    assert r == InvalidRequest;
    r := orderService.Create(None, Some(one), Some(clientes), Some(produtos));
    assert r == InvalidRequest;
    r := orderService.Create(Some(0), Some(one), Some(clientes), Some(produtos));
    assert r == InvalidRequest;
    r := orderService.Create(Some(1), None, None, None);
    assert r == InvalidRequest;
    assert orderService.pedidos == [] && orderService.nextId == 1;
  }

  /** Customer 999 does not exist: 404 and nothing stored. */
  method UnknownCustomer()
  {
    var clientes, _ := FetchSeeds();
    var orderService := new OrderService();
    assert GetCliente(clientes, 999).None?;
    var r := orderService.Create(Some(999), Some([ItemRequest(Some(1), Some(1))]), Some(clientes), None);
    assert r == CustomerNotFound;
    assert orderService.pedidos == [] && orderService.nextId == 1;
  }

  /** The second item names product 999: the reply names 999, and neither an
      order nor an id is consumed. */
  method UnknownProduct()
  {
    var clientes, produtos := FetchSeeds();
    var orderService := new OrderService();
    GetClienteFindsStored(clientes, 3, 0);
    GetProdutoFindsStored(produtos, 3, 0);
    var itens := [ItemRequest(Some(1), Some(1)), ItemRequest(Some(999), Some(1)), ItemRequest(None, Some(1))];
    assert Resolves(produtos, itens[0]) && !Resolves(produtos, itens[1]);
    assert FirstUnresolved(produtos, itens) == Some(1);
    var r := orderService.Create(Some(1), Some(itens), Some(clientes), Some(produtos));
    assert r == ProductNotFound(Some(999));
    assert orderService.pedidos == [] && orderService.nextId == 1;
  }

  /** The product service is down: 500 and nothing stored. */
  method ProductServiceDown()
  {
    var clientes, _ := FetchSeeds();
    var orderService := new OrderService();
    GetClienteFindsStored(clientes, 3, 0);
    var r := orderService.Create(Some(1), Some([ItemRequest(Some(1), Some(1))]), Some(clientes), None);
    assert r == InternalError;
    assert orderService.pedidos == [] && orderService.nextId == 1;
  }

  /** The customer service is down: 500 before any product lookup, and
      nothing stored. */
  method CustomerServiceDown()
  {
    var _, produtos := FetchSeeds();
    var orderService := new OrderService();
    var r := orderService.Create(Some(1), Some([ItemRequest(Some(1), Some(1))]), None, Some(produtos));
    assert r == InternalError;
    assert orderService.pedidos == [] && orderService.nextId == 1;
  }

  /** The collaborator stores: a refused create changes nothing, an accepted
      one takes the next id, starting above the seed records. */
  method CollaboratorCreates()
  {
    var customerService := new CustomerService();
    var c := customerService.Create(Some(""));
    assert c.BadRequest? && customerService.nextId == 3;
    c := customerService.Create(Some("Carla"));
    assert c == Clientes.Created(Customer(3, "Carla"));
    var clientes := customerService.List();
    assert |clientes| == 3 && clientes[2].id == 3;

    var productService := new ProductService();
    var p := productService.Create(Some("Monitor"), None);
    assert p.BadRequest? && productService.nextId == 3;
    p := productService.Create(Some("Brinde"), Some(0));
    assert p == Produtos.Created(Product(3, "Brinde", 0));
    assert productService.produtos[..2] == [Product(1, "Teclado", 12050), Product(2, "Mouse", 7000)];
  }
}
