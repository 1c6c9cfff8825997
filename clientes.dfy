/** The customer service (servico-clientes): an append-only in-memory list
    of customers and the counter that hands out their ids. */
module Clientes {
  import opened Common

  datatype Customer = Customer(id: int, nome: string)

  function CustomerId(c: Customer): int { c.id }

  /** Reply of POST /clientes: 201 with the new record, or 400. */
  datatype CreateResult = Created(customer: Customer) | BadRequest

  class CustomerService {
    var clientes: seq<Customer>
    var nextId: int

    /** Ids follow the counter discipline and every stored name is non-empty. */
    ghost predicate Valid()
      reads this
    {
      && IdsAscending(clientes, CustomerId, nextId)
      && forall i :: 0 <= i < |clientes| ==> clientes[i].nome != ""
    }

    /** The service starts with its two seed customers and the counter at 3. */
    constructor ()
      ensures Valid()
      ensures clientes == [Customer(1, "Alice"), Customer(2, "Bruno")]
      ensures nextId == 3
    {
      clientes := [Customer(1, "Alice"), Customer(2, "Bruno")];
      nextId := 3;
    }

    /** GET /clientes: every customer, in insertion order. */
    method List() returns (all: seq<Customer>)
      ensures all == clientes
    {
      all := clientes;
    }

    /** POST /clientes. `nome` is `None` when the body has no name (or null);
        a missing or empty name is refused and nothing changes. */
    method Create(nome: Option<string>) returns (r: CreateResult)
      requires Valid()
      modifies this
      ensures Valid()
      ensures r.BadRequest? <==> nome.None? || nome.value == ""
      ensures r.BadRequest? ==> clientes == old(clientes) && nextId == old(nextId)
      ensures r.Created? ==> r.customer == Customer(old(nextId), nome.value)
      ensures r.Created? ==> nextId == old(nextId) + 1 && clientes == old(clientes) + [r.customer]
    {
      if nome.None? || nome.value == "" {
        return BadRequest;
      }
      var novo := Customer(nextId, nome.value);
      AppendNextId(clientes, CustomerId, nextId, novo);
      nextId := nextId + 1;
      clientes := clientes + [novo];
      return Created(novo);
    }
  }
}
