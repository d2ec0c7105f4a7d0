/** Invoice processing with the commission snapshot
    (`procesarFactura` in `src/services/billingService.ts`).

    The store is reached three times: the rates of the employees named on
    the invoice are read, the invoice header is inserted, and the item rows
    are inserted. Each reply is a parameter; the item rows, with the
    commission frozen at the rate read now, are returned as the rows
    written. */
module BillingService {
  import opened Common
  import opened Types

  const DEFAULT_METODO_PAGO: string := "Efectivo"

  /** `FacturaPayload`: the invoice as the checkout submits it. */
  datatype FacturaPayload = FacturaPayload(
    clienteId: Option<Id>,
    subtotal: real,
    descuento: real,
    total: real,
    metodoPago: Option<string>,
    items: seq<InvoiceItem>)

  /** The header row inserted into `facturas`. */
  datatype FacturaRow = FacturaRow(
    clienteId: Option<Id>,
    subtotal: real,
    descuento: real,
    total: real,
    metodoPago: string)

  /** A row inserted into `factura_items`: the line with its commission
      snapshot. */
  datatype ItemRow = ItemRow(
    facturaId: Id,
    empleadoId: Option<Id>,
    descripcion: string,
    cantidad: real,
    precioUnitario: real,
    precioTotal: real,
    comisionMonto: real)

  /** Everything a successful call writes: the header, the id the store gave
      it, and the item rows. */
  datatype Invoice = Invoice(factura: FacturaRow, facturaId: Id, items: seq<ItemRow>)

  /** Employee rates by id, as read from the store (`empleadosDict`). */
  type RateDict = map<Id, Option<real>>

  /** The employee a line names: an absent or empty id names nobody. */
  function EmployeeRef(item: InvoiceItem): Option<Id> {
    if item.empleadoId.Some? && item.empleadoId.value != "" then item.empleadoId else None
  }

  /** The ids whose rates are fetched: every line's employee, in line order,
      skipping lines that name nobody. */
  function EmpleadoIds(items: seq<InvoiceItem>): (ids: seq<Id>)
    ensures |ids| <= |items|
    ensures forall id :: id in ids ==> id != ""
    ensures forall id :: id in ids <==> exists i :: 0 <= i < |items| && EmployeeRef(items[i]) == Some(id)
  {
    if items == [] then []
    else
      var rest := EmpleadoIds(items[1..]);
      assert forall i :: 0 < i < |items| ==> items[i] == items[1..][i - 1];
      match EmployeeRef(items[0])
      case Some(id) => [id] + rest
      case None => rest
  }

  /** Position `i` holds the last row for employee `id`. */
  ghost predicate LastRowFor(rows: seq<Empleado>, id: Id, i: int) {
    0 <= i < |rows| && rows[i].id == id && forall j :: i < j < |rows| ==> rows[j].id != id
  }

  /** `dict` has a key for exactly the employee ids among `rows`. */
  ghost predicate KeysAreFetchedIds(rows: seq<Empleado>, dict: RateDict) {
    forall id :: id in dict <==> exists i :: 0 <= i < |rows| && rows[i].id == id
  }

  /** Each key of `dict` holds the rate of the last row with that id. */
  ghost predicate HoldsLastRates(rows: seq<Empleado>, dict: RateDict) {
    forall id :: id in dict ==> exists i :: LastRowFor(rows, id, i) && dict[id] == rows[i].comisionPorcentaje
  }

  /** The rate dictionary built by folding the fetched rows left to right:
      it holds exactly the fetched ids, and for an id fetched twice the
      later row wins. */
  function BuildRateDict(rows: seq<Empleado>): (dict: RateDict)
    ensures KeysAreFetchedIds(rows, dict)
    ensures HoldsLastRates(rows, dict)
  {
    if rows == [] then map[]
    else
      var n := |rows| - 1;
      var front := BuildRateDict(rows[..n]);
      RateDictKeysExtend(rows, front);
      RateDictRatesExtend(rows, front);
      front[rows[n].id := rows[n].comisionPorcentaje]
  }

  /** Folding in one more row adds its id to the keys. */
  lemma {:induction false} RateDictKeysExtend(rows: seq<Empleado>, front: RateDict)
    requires rows != []
    requires KeysAreFetchedIds(rows[..|rows| - 1], front)
    ensures KeysAreFetchedIds(rows, front[rows[|rows| - 1].id := rows[|rows| - 1].comisionPorcentaje])
  {
    var n := |rows| - 1;
    assert forall i :: 0 <= i < n ==> rows[..n][i] == rows[i];
  }

  /** Folding in one more row makes its rate the one held for its id, and
      keeps the last row of every other id. */
  lemma {:induction false} RateDictRatesExtend(rows: seq<Empleado>, front: RateDict)
    requires rows != []
    requires HoldsLastRates(rows[..|rows| - 1], front)
    ensures HoldsLastRates(rows, front[rows[|rows| - 1].id := rows[|rows| - 1].comisionPorcentaje])
  {
    var n := |rows| - 1;
    var dict := front[rows[n].id := rows[n].comisionPorcentaje];
    forall id | id in dict
      ensures exists i :: LastRowFor(rows, id, i) && dict[id] == rows[i].comisionPorcentaje
    {
      if id == rows[n].id {
        assert LastRowFor(rows, id, n);
      } else {
        var i :| LastRowFor(rows[..n], id, i) && front[id] == rows[..n][i].comisionPorcentaje;
        assert LastRowFor(rows, id, i);
      }
    }
  }

  /** The rate applied to a line (`item.empleado_id ? (empleadosDict[id] || 0) : 0`):
      no employee, an employee the store did not return, and a stored rate
      that is not a number all give 0. */
  function RateFor(dict: RateDict, item: InvoiceItem): real {
    match EmployeeRef(item)
    case None => 0.0
    case Some(id) => if id in dict then dict[id].GetOr(0.0) else 0.0
  }

  /** `price * quantity` */
  function LineTotal(item: InvoiceItem): real {
    item.price * item.quantity
  }

  /** `precioTotal * (comisionPorcentaje / 100)` */
  function Commission(lineTotal: real, rate: real): real {
    lineTotal * (rate / 100.0)
  }

  /** `row` is the item row written for `item`: the line's own data, its
      total `price * quantity`, and its commission at the rate read now. */
  predicate IsRowFor(facturaId: Id, dict: RateDict, item: InvoiceItem, row: ItemRow) {
    && row.facturaId == facturaId
    && row.empleadoId == EmployeeRef(item)
    && row.descripcion == item.description
    && row.cantidad == item.quantity
    && row.precioUnitario == item.price
    && row.precioTotal == LineTotal(item)
    && row.comisionMonto == Commission(row.precioTotal, RateFor(dict, item))
  }

  /** `itemsToInsert`: one row per line, in line order. A line that names no
      employee is stored with no employee and no commission; a line whose
      employee was not fetched earns no commission. */
  function ItemsToInsert(facturaId: Id, dict: RateDict, items: seq<InvoiceItem>): (rows: seq<ItemRow>)
    ensures |rows| == |items|
    ensures forall i :: 0 <= i < |items| ==> IsRowFor(facturaId, dict, items[i], rows[i])
    ensures forall i :: 0 <= i < |items| && EmployeeRef(items[i]).None? ==>
              rows[i].empleadoId.None? && rows[i].comisionMonto == 0.0
    ensures forall i :: 0 <= i < |items| && EmployeeRef(items[i]).Some? && EmployeeRef(items[i]).value !in dict ==>
              rows[i].comisionMonto == 0.0
  {
    if items == [] then []
    else
      var item := items[0];
      var row := ItemRow(facturaId, EmployeeRef(item), item.description, item.quantity, item.price,
                         LineTotal(item), Commission(LineTotal(item), RateFor(dict, item)));
      var rest := ItemsToInsert(facturaId, dict, items[1..]);
      assert forall i :: 0 < i < |items| ==> items[i] == items[1..][i - 1] && ([row] + rest)[i] == rest[i - 1];
      assert Commission(LineTotal(item), 0.0) == 0.0;
      [row] + rest
  }

  /** The header row: `metodo_pago` falls back to 'Efectivo' when absent or empty. */
  function FacturaRowOf(payload: FacturaPayload): (row: FacturaRow)
    ensures payload.metodoPago.None? || payload.metodoPago == Some("") ==> row.metodoPago == DEFAULT_METODO_PAGO
    ensures payload.metodoPago.Some? && payload.metodoPago.value != "" ==> row.metodoPago == payload.metodoPago.value
    ensures row.clienteId == payload.clienteId && row.subtotal == payload.subtotal
    ensures row.descuento == payload.descuento && row.total == payload.total
  {
    var metodo := if payload.metodoPago.Some? && payload.metodoPago.value != "" then payload.metodoPago.value
                  else DEFAULT_METODO_PAGO;
    FacturaRow(payload.clienteId, payload.subtotal, payload.descuento, payload.total, metodo)
  }

  /** The rate dictionary step: the rates are read only when some line names
      an employee, and a failed read aborts the invoice. */
  function FetchRates(ids: seq<Id>, empleados: Query<seq<Empleado>>): (r: Result<RateDict>)
    ensures r.Ok? <==> ids == [] || empleados.Rows?
    ensures ids == [] ==> r == Ok(map[])
    ensures ids != [] && empleados.Rows? ==>
              KeysAreFetchedIds(empleados.data, r.value) && HoldsLastRates(empleados.data, r.value)
    ensures ids != [] && empleados.QueryError? ==>
              r == Threw(ErrorObj("Error al obtener comisiones: " + empleados.message))
  {
    if |ids| == 0 then Ok(map[])
    else match empleados
      case QueryError(m) => Threw(ErrorObj("Error al obtener comisiones: " + m))
      case Rows(rows) => Ok(BuildRateDict(rows))
  }

  /** `procesarFactura` */
  function ProcesarFactura(
    payload: FacturaPayload,
    empleados: Query<seq<Empleado>>,
    facturaInsert: Query<Id>,
    itemsInsert: Query<()>): (r: Result<Invoice>)
    ensures r.Ok? <==>
              (EmpleadoIds(payload.items) == [] || empleados.Rows?)
              && facturaInsert.Rows?
              && (payload.items == [] || itemsInsert.Rows?)
    ensures r.Ok? ==>
              && r.value.factura == FacturaRowOf(payload)
              && r.value.facturaId == facturaInsert.data
              && r.value.items == ItemsToInsert(facturaInsert.data,
                                                if EmpleadoIds(payload.items) == [] then map[] else BuildRateDict(empleados.data),
                                                payload.items)
    ensures r.Ok? ==> |r.value.items| == |payload.items|
    ensures r.Ok? && payload.items == [] ==> r.value.items == []
    ensures r.Threw? ==> r.thrown.ErrorObj?
    ensures EmpleadoIds(payload.items) != [] && empleados.QueryError? ==>
              r == Threw(ErrorObj("Error al obtener comisiones: " + empleados.message))
    ensures (EmpleadoIds(payload.items) == [] || empleados.Rows?) && facturaInsert.QueryError? ==>
              r == Threw(ErrorObj("Error al guardar factura: " + facturaInsert.message))
    ensures (EmpleadoIds(payload.items) == [] || empleados.Rows?) && facturaInsert.Rows?
            && payload.items != [] && itemsInsert.QueryError? ==>
              r == Threw(ErrorObj("Error al guardar items de factura: " + itemsInsert.message))
  {
    match FetchRates(EmpleadoIds(payload.items), empleados)
    case Threw(t) => Threw(t)
    case Ok(dict) =>
      match facturaInsert
      case QueryError(m) => Threw(ErrorObj("Error al guardar factura: " + m))
      case Rows(facturaId) =>
        var rows := ItemsToInsert(facturaId, dict, payload.items);
        if |rows| > 0 && itemsInsert.QueryError? then
          Threw(ErrorObj("Error al guardar items de factura: " + itemsInsert.message))
        else
          Ok(Invoice(FacturaRowOf(payload), facturaId, rows))
  }

  /** A line whose employee was not returned by the store is charged at rate
      0 instead of failing the invoice. */
  lemma UnknownEmployeeEarnsNothing(dict: RateDict, item: InvoiceItem)
    requires EmployeeRef(item).Some? && EmployeeRef(item).value !in dict
    ensures RateFor(dict, item) == 0.0
    ensures Commission(LineTotal(item), RateFor(dict, item)) == 0.0
  {
  }

  /** With a rate in [0, 100] and a non-negative line total, the commission
      lies between 0 and the line total. */
  lemma {:induction false} CommissionWithinLineTotal(lineTotal: real, rate: real)
    requires 0.0 <= rate <= 100.0 && 0.0 <= lineTotal
    ensures 0.0 <= Commission(lineTotal, rate) <= lineTotal
  {
    var f := rate / 100.0;
    assert 0.0 <= f <= 1.0;
    assert lineTotal * f <= lineTotal * 1.0 by {
      assert lineTotal * (1.0 - f) >= 0.0;
    }
  }

  /** The commission of a line is computed on the undiscounted line total:
      two payloads with the same lines produce the same item rows whatever
      their `descuento`, `subtotal` or `total`. */
  lemma DiscountNeverAffectsCommission(
    p1: FacturaPayload, p2: FacturaPayload,
    empleados: Query<seq<Empleado>>, facturaInsert: Query<Id>, itemsInsert: Query<()>)
    requires p1.items == p2.items
    ensures ProcesarFactura(p1, empleados, facturaInsert, itemsInsert).Ok? <==>
            ProcesarFactura(p2, empleados, facturaInsert, itemsInsert).Ok?
    ensures ProcesarFactura(p1, empleados, facturaInsert, itemsInsert).Ok? ==>
            ProcesarFactura(p1, empleados, facturaInsert, itemsInsert).value.items ==
            ProcesarFactura(p2, empleados, facturaInsert, itemsInsert).value.items
  {
  }

  /** The rate of a line is the one the store returned for its employee:
      for a fetched employee it is that row's rate (the last such row when
      the id was returned twice), or 0 when that rate is not a number. */
  lemma {:induction false} RateIsSnapshotOfFetchedRow(rows: seq<Empleado>, item: InvoiceItem)
    requires EmployeeRef(item).Some?
    requires exists i :: 0 <= i < |rows| && rows[i].id == EmployeeRef(item).value
    ensures exists i :: LastRowFor(rows, EmployeeRef(item).value, i) &&
                        RateFor(BuildRateDict(rows), item) == rows[i].comisionPorcentaje.GetOr(0.0)
  {
    var id := EmployeeRef(item).value;
    var dict := BuildRateDict(rows);
    assert id in dict;
    var i :| LastRowFor(rows, id, i) && dict[id] == rows[i].comisionPorcentaje;
  }
}
