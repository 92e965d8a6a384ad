/** The one backend request whose shape the order flow depends on: the
    table update that books a table for a new order.

    `updateTable` takes two arguments, the table id and the request body
    (src/https/index.js:12), but the order flow hands it to the mutation
    library as its mutation function and calls it with ONE object holding
    the id, the status and the order id (src/components/menu/Bill.jsx:382-386
    and 396-397; the older variant of the panel likewise at lines 138-141
    and 160). The object then stands where the id belongs: the template
    literal renders it as "[object Object]" and no body is sent.
    `TableRequestAsWritten` is that request; `TableRequest` is the intended
    one, which the rest of the model uses.

    (The gateway verification path at src/https/index.js:32 has a doubled
    slash, "/api/payment//verify-payment"; the gateway is not modelled.) */
module Api {
  import opened Common

  /** What the order flow means to send: book `tableId` for `orderId`. */
  datatype TableUpdate = TableUpdate(tableId: string, status: string, orderId: string)

  datatype TableBody = TableBody(status: string, orderId: string)

  datatype HttpPut = HttpPut(path: string, body: Option<TableBody>)

  const TablePath: string := "/api/table/"

  /** `updateTable(id, data)`: PUT to the table's path with `data`. */
  function UpdateTable(id: string, data: Option<TableBody>): HttpPut
  {
    HttpPut(TablePath + id, data)
  }

  /** The request as the order flow issues it. */
  function TableRequestAsWritten(u: TableUpdate): HttpPut
  {
    UpdateTable("[object Object]", None)
  }

  /** The request as intended: the table's own path, with status and order
      id in the body. */
  function TableRequest(u: TableUpdate): (r: HttpPut)
    ensures StartsWith(r.path, TablePath) && r.path[|TablePath|..] == u.tableId
    ensures r.body == Some(TableBody(u.status, u.orderId))
  {
    StartsWithAppend(TablePath, u.tableId);
    UpdateTable(u.tableId, Some(TableBody(u.status, u.orderId)))
  }

  /** As written, every table update is the same request: neither the
      table, nor the status, nor the order reaches the backend. */
  lemma AsWrittenForgetsUpdate(u: TableUpdate, v: TableUpdate)
    ensures TableRequestAsWritten(u) == TableRequestAsWritten(v)
    ensures TableRequestAsWritten(u).body == None
    ensures TableRequestAsWritten(u) != TableRequest(u)
  {
  }

  /** As intended, the request determines the update it carries. */
  lemma TableRequestInjective(u: TableUpdate, v: TableUpdate)
    requires TableRequest(u) == TableRequest(v)
    ensures u == v
  {
    assert u.tableId == TableRequest(u).path[|TablePath|..];
  }
}
