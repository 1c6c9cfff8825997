/** The product service (servico-produtos): an append-only in-memory
    catalogue and the counter that hands out product ids. Prices are integer
    cents. */
module Produtos {
  import opened Common

  datatype Product = Product(id: int, nome: string, preco: int)

  function ProductId(p: Product): int { p.id }

  /** Reply of POST /produtos: 201 with the new record, or 400. */
  datatype CreateResult = Created(product: Product) | BadRequest

  class ProductService {
    var produtos: seq<Product>
    var nextId: int

    /** Ids follow the counter discipline and every stored name is non-empty. */
    ghost predicate Valid()
      reads this
    {
      && IdsAscending(produtos, ProductId, nextId)
      && forall i :: 0 <= i < |produtos| ==> produtos[i].nome != ""
    }

    /** The catalogue starts with Teclado at 120.50 and Mouse at 70.00, and
        the counter at 3. */
    constructor ()
      ensures Valid()
      ensures produtos == [Product(1, "Teclado", 12050), Product(2, "Mouse", 7000)]
      ensures nextId == 3
    {
      produtos := [Product(1, "Teclado", 12050), Product(2, "Mouse", 7000)];
      nextId := 3;
    }

    /** GET /produtos: every product, in insertion order. */
    method List() returns (all: seq<Product>)
      ensures all == produtos
    {
      all := produtos;
    }

    /** POST /produtos. `None` stands for a field that is absent or null. A
        missing or empty name, or a missing price, is refused and nothing
        changes; a price of 0 is accepted. */
    method Create(nome: Option<string>, preco: Option<int>) returns (r: CreateResult)
      requires Valid()
      modifies this
      ensures Valid()
      ensures r.BadRequest? <==> nome.None? || nome.value == "" || preco.None?
      ensures r.BadRequest? ==> produtos == old(produtos) && nextId == old(nextId)
      ensures r.Created? ==> r.product == Product(old(nextId), nome.value, preco.value)
      ensures r.Created? ==> nextId == old(nextId) + 1 && produtos == old(produtos) + [r.product]
    {
      if nome.None? || nome.value == "" || preco.None? {
        return BadRequest;
      }
      var novo := Product(nextId, nome.value, preco.value);
      AppendNextId(produtos, ProductId, nextId, novo);
      nextId := nextId + 1;
      produtos := produtos + [novo];
      return Created(novo);
    }
  }
}
