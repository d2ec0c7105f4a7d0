/** Settlement of staff commissions (`src/services/staffService.ts`):
    per-employee sales, commission and payment totals aggregated from the
    stored item rows and payment rows, the pending balance floored at 0,
    and the payment rows written by a manual or a bulk payment. */
module StaffService {
  import opened Common
  import opened Types

  const NOTA_PAGO_MANUAL: string := "Pago manual"
  const NOTA_LIQUIDACION: string := "Liquidación masiva"

  /** A `factura_items` row as read back for settlement. Amounts are `None`
      when the stored value is missing or not a number. */
  datatype SaleRow = SaleRow(empleadoId: Option<Id>, precioTotal: Option<real>, comisionMonto: Option<real>)

  /** A `pagos_comisiones` row. */
  datatype PagoRow = PagoRow(empleadoId: Id, montoPagado: Option<real>, notas: string)

  /** One payment asked of `liquidarTodos`. */
  datatype PagoRequest = PagoRequest(empleadoId: Id, monto: real)

  /** `getEmpleadosConSaldos` result for one employee. */
  datatype EmpleadoConSaldo = EmpleadoConSaldo(
    empleado: Empleado,
    ventasTotales: real,
    comisionTotal: real,
    saldoPendiente: real)

  /** `getPendientesEmpleados` result for one employee. */
  datatype EmpleadoPendiente = EmpleadoPendiente(
    empleado: Empleado,
    totalVentas: real,
    totalGanado: real,
    totalPagado: real,
    saldoPendiente: real)

  /** `Number(x) || 0`: a missing or non-numeric amount counts as 0. */
  function Num(x: Option<real>): real {
    x.GetOr(0.0)
  }

  // ---------------------------------------------------------------------
  // Aggregation
  // ---------------------------------------------------------------------

  /** `c => c.empleado_id === emp.id`: a row with no employee matches nobody. */
  function OfEmpleado(id: Id): SaleRow -> bool {
    (r: SaleRow) => r.empleadoId == Some(id)
  }

  /** `p => p.empleado_id === emp.id` */
  function PagoOf(id: Id): PagoRow -> bool {
    (p: PagoRow) => p.empleadoId == id
  }

  /** `reduce((sum, item) => sum + (Number(item.precio_total) || 0), 0)` */
  function SumVentas(rows: seq<SaleRow>): real {
    if rows == [] then 0.0 else SumVentas(rows[..|rows| - 1]) + Num(rows[|rows| - 1].precioTotal)
  }

  /** `reduce((sum, item) => sum + (Number(item.comision_monto) || 0), 0)` */
  function SumComision(rows: seq<SaleRow>): real {
    if rows == [] then 0.0 else SumComision(rows[..|rows| - 1]) + Num(rows[|rows| - 1].comisionMonto)
  }

  /** `reduce((sum, pago) => sum + (Number(pago.monto_pagado) || 0), 0)` */
  function SumPagado(pagos: seq<PagoRow>): real {
    if pagos == [] then 0.0 else SumPagado(pagos[..|pagos| - 1]) + Num(pagos[|pagos| - 1].montoPagado)
  }

  function TotalVentas(rows: seq<SaleRow>, id: Id): real {
    SumVentas(Filter(rows, OfEmpleado(id)))
  }

  function TotalComision(rows: seq<SaleRow>, id: Id): real {
    SumComision(Filter(rows, OfEmpleado(id)))
  }

  function TotalPagado(pagos: seq<PagoRow>, id: Id): real {
    SumPagado(Filter(pagos, PagoOf(id)))
  }

  /** `Math.max(0, totalGanado - totalPagado)` */
  function SaldoPendiente(rows: seq<SaleRow>, pagos: seq<PagoRow>, id: Id): real {
    Max0(TotalComision(rows, id) - TotalPagado(pagos, id))
  }

  lemma {:induction false} SumVentasAppend(a: seq<SaleRow>, b: seq<SaleRow>)
    ensures SumVentas(a + b) == SumVentas(a) + SumVentas(b)
    decreases |b|
  {
    if b == [] {
      assert a + b == a;
    } else {
      assert (a + b)[..|a + b| - 1] == a + b[..|b| - 1];
      SumVentasAppend(a, b[..|b| - 1]);
    }
  }

  lemma {:induction false} SumComisionAppend(a: seq<SaleRow>, b: seq<SaleRow>)
    ensures SumComision(a + b) == SumComision(a) + SumComision(b)
    decreases |b|
  {
    if b == [] {
      assert a + b == a;
    } else {
      assert (a + b)[..|a + b| - 1] == a + b[..|b| - 1];
      SumComisionAppend(a, b[..|b| - 1]);
    }
  }

  lemma {:induction false} SumPagadoAppend(a: seq<PagoRow>, b: seq<PagoRow>)
    ensures SumPagado(a + b) == SumPagado(a) + SumPagado(b)
    decreases |b|
  {
    if b == [] {
      assert a + b == a;
    } else {
      assert (a + b)[..|a + b| - 1] == a + b[..|b| - 1];
      SumPagadoAppend(a, b[..|b| - 1]);
    }
  }

  /** The sales and commission totals of an employee grow, row by row, by
      exactly the amounts of the rows that name that employee; rows naming
      another employee or nobody, and missing amounts, add 0. Together with
      the empty case this pins the totals down for every list of rows. */
  lemma {:induction false} SaleTotalsAppendRow(rows: seq<SaleRow>, r: SaleRow, id: Id)
    ensures TotalVentas([], id) == 0.0 && TotalComision([], id) == 0.0
    ensures TotalVentas(rows + [r], id) ==
            TotalVentas(rows, id) + (if r.empleadoId == Some(id) then Num(r.precioTotal) else 0.0)
    ensures TotalComision(rows + [r], id) ==
            TotalComision(rows, id) + (if r.empleadoId == Some(id) then Num(r.comisionMonto) else 0.0)
  {
    FilterAppend(rows, [r], OfEmpleado(id));
    var f := Filter(rows, OfEmpleado(id));
    var g := Filter([r], OfEmpleado(id));
    assert [r][1..] == [];
    SumVentasAppend(f, g);
    SumComisionAppend(f, g);
    if r.empleadoId == Some(id) {
      assert g == [r];
      assert g[..0] == [];
    } else {
      assert g == [];
    }
  }

  /** Payments to an employee add up the same way. */
  lemma {:induction false} PaidTotalAppend(pagos: seq<PagoRow>, more: seq<PagoRow>, id: Id)
    ensures TotalPagado(pagos + more, id) == TotalPagado(pagos, id) + TotalPagado(more, id)
  {
    FilterAppend(pagos, more, PagoOf(id));
    SumPagadoAppend(Filter(pagos, PagoOf(id)), Filter(more, PagoOf(id)));
  }

  /** The balance of every employee after a settlement: the stored employee
      rows, in order, each with its sales, commission and pending balance. */
  function Saldos(empleados: seq<Empleado>, rows: seq<SaleRow>, pagos: seq<PagoRow>): (r: seq<EmpleadoConSaldo>)
    ensures |r| == |empleados|
    ensures forall i :: 0 <= i < |r| ==>
              && r[i].empleado == empleados[i]
              && r[i].ventasTotales == TotalVentas(rows, empleados[i].id)
              && r[i].comisionTotal == TotalComision(rows, empleados[i].id)
              && r[i].saldoPendiente == SaldoPendiente(rows, pagos, empleados[i].id)
    ensures forall i :: 0 <= i < |r| ==>
              r[i].saldoPendiente >= 0.0 && r[i].saldoPendiente >= r[i].comisionTotal - TotalPagado(pagos, empleados[i].id)
  {
    if empleados == [] then []
    else
      var e := empleados[0];
      var here := EmpleadoConSaldo(e, TotalVentas(rows, e.id), TotalComision(rows, e.id), SaldoPendiente(rows, pagos, e.id));
      var rest := Saldos(empleados[1..], rows, pagos);
      assert forall i :: 0 < i < |empleados| ==> empleados[i] == empleados[1..][i - 1] && ([here] + rest)[i] == rest[i - 1];
      [here] + rest
  }

  /** `getEmpleadosConSaldos`: an empty staff list answers at once without
      reading items or payments; a failed read throws its message. */
  function GetEmpleadosConSaldos(
    empleados: Query<seq<Empleado>>,
    comisiones: Query<seq<SaleRow>>,
    pagos: Query<seq<PagoRow>>): (r: Result<seq<EmpleadoConSaldo>>)
    ensures empleados.Rows? && empleados.data == [] ==> r == Ok([])
    ensures r.Ok? <==> empleados.Rows? && (empleados.data == [] || (comisiones.Rows? && pagos.Rows?))
    ensures r.Ok? && |empleados.data| > 0 ==> r.value == Saldos(empleados.data, comisiones.data, pagos.data)
    ensures empleados.QueryError? ==> r == Threw(ErrorObj(empleados.message))
    ensures empleados.Rows? && empleados.data != [] && comisiones.QueryError? ==> r == Threw(ErrorObj(comisiones.message))
    ensures empleados.Rows? && empleados.data != [] && comisiones.Rows? && pagos.QueryError? ==>
              r == Threw(ErrorObj(pagos.message))
  {
    match empleados
    case QueryError(m) => Threw(ErrorObj(m))
    case Rows(emps) =>
      if emps == [] then Ok([])
      else match comisiones
        case QueryError(m) => Threw(ErrorObj(m))
        case Rows(rows) =>
          match pagos
          case QueryError(m) => Threw(ErrorObj(m))
          case Rows(ps) => Ok(Saldos(emps, rows, ps))
  }

  /** The earlier aggregation of `getPendientesEmpleados`: the same commission,
      payments and balance per employee, with sales always reported as 0. */
  function Pendientes(empleados: seq<Empleado>, rows: seq<SaleRow>, pagos: seq<PagoRow>): (r: seq<EmpleadoPendiente>)
    ensures |r| == |empleados|
    ensures forall i :: 0 <= i < |r| ==>
              && r[i].empleado == empleados[i]
              && r[i].totalVentas == 0.0
              && r[i].totalGanado == TotalComision(rows, empleados[i].id)
              && r[i].totalPagado == TotalPagado(pagos, empleados[i].id)
              && r[i].saldoPendiente == Max0(r[i].totalGanado - r[i].totalPagado)
  {
    if empleados == [] then []
    else
      var e := empleados[0];
      var ganado := TotalComision(rows, e.id);
      var pagado := TotalPagado(pagos, e.id);
      var here := EmpleadoPendiente(e, 0.0, ganado, pagado, Max0(ganado - pagado));
      var rest := Pendientes(empleados[1..], rows, pagos);
      assert forall i :: 0 < i < |empleados| ==> empleados[i] == empleados[1..][i - 1] && ([here] + rest)[i] == rest[i - 1];
      [here] + rest
  }

  /** `getPendientesEmpleados` */
  function GetPendientesEmpleados(
    empleados: Query<seq<Empleado>>,
    comisiones: Query<seq<SaleRow>>,
    pagos: Query<seq<PagoRow>>): (r: Result<seq<EmpleadoPendiente>>)
    ensures empleados.Rows? && empleados.data == [] ==> r == Ok([])
    ensures r.Ok? <==> empleados.Rows? && (empleados.data == [] || (comisiones.Rows? && pagos.Rows?))
    ensures r.Ok? && |empleados.data| > 0 ==> r.value == Pendientes(empleados.data, comisiones.data, pagos.data)
    ensures empleados.QueryError? ==> r == Threw(ErrorObj(empleados.message))
    ensures empleados.Rows? && empleados.data != [] && comisiones.QueryError? ==> r == Threw(ErrorObj(comisiones.message))
    ensures empleados.Rows? && empleados.data != [] && comisiones.Rows? && pagos.QueryError? ==>
              r == Threw(ErrorObj(pagos.message))
  {
    match empleados
    case QueryError(m) => Threw(ErrorObj(m))
    case Rows(emps) =>
      if emps == [] then Ok([])
      else match comisiones
        case QueryError(m) => Threw(ErrorObj(m))
        case Rows(rows) =>
          match pagos
          case QueryError(m) => Threw(ErrorObj(m))
          case Rows(ps) => Ok(Pendientes(emps, rows, ps))
  }

  /** The two aggregations agree on every employee's commission and balance;
      only the later one reports sales. */
  lemma PendientesAgreeWithSaldos(
    empleados: Query<seq<Empleado>>, comisiones: Query<seq<SaleRow>>, pagos: Query<seq<PagoRow>>)
    ensures GetPendientesEmpleados(empleados, comisiones, pagos).Ok? <==>
            GetEmpleadosConSaldos(empleados, comisiones, pagos).Ok?
    ensures GetPendientesEmpleados(empleados, comisiones, pagos).Ok? ==>
            var p := GetPendientesEmpleados(empleados, comisiones, pagos).value;
            var s := GetEmpleadosConSaldos(empleados, comisiones, pagos).value;
            |p| == |s| &&
            forall i :: 0 <= i < |p| ==>
              p[i].empleado == s[i].empleado && p[i].totalVentas == 0.0 &&
              p[i].totalGanado == s[i].comisionTotal && p[i].saldoPendiente == s[i].saldoPendiente
  {
  }

  // ---------------------------------------------------------------------
  // Payments
  // ---------------------------------------------------------------------

  /** `registrarPagoComision`: one row with the exact amount, whatever the
      employee's balance; an absent or empty note becomes 'Pago manual'. */
  function RegistrarPagoComision(empleadoId: Id, monto: real, notas: Option<string>): (row: PagoRow)
    ensures row.empleadoId == empleadoId && row.montoPagado == Some(monto)
    ensures notas.None? || notas == Some("") ==> row.notas == NOTA_PAGO_MANUAL
    ensures notas.Some? && notas.value != "" ==> row.notas == notas.value
  {
    PagoRow(empleadoId, Some(monto), if notas.Some? && notas.value != "" then notas.value else NOTA_PAGO_MANUAL)
  }

  /** `liquidarTodos`: one row per requested payment, in request order, with
      the amount preserved and the bulk-settlement note. */
  function LiquidarTodos(pagos: seq<PagoRequest>): (rows: seq<PagoRow>)
    ensures |rows| == |pagos|
    ensures forall i :: 0 <= i < |pagos| ==>
              rows[i] == PagoRow(pagos[i].empleadoId, Some(pagos[i].monto), NOTA_LIQUIDACION)
  {
    if pagos == [] then []
    else
      var rest := LiquidarTodos(pagos[1..]);
      var here := PagoRow(pagos[0].empleadoId, Some(pagos[0].monto), NOTA_LIQUIDACION);
      assert forall i :: 0 < i < |pagos| ==> pagos[i] == pagos[1..][i - 1] && ([here] + rest)[i] == rest[i - 1];
      [here] + rest
  }

  /** The total requested for one employee. */
  function RequestedFor(pagos: seq<PagoRequest>, id: Id): real {
    if pagos == [] then 0.0
    else (if pagos[0].empleadoId == id then pagos[0].monto else 0.0) + RequestedFor(pagos[1..], id)
  }

  /** A single payment row counts for its own employee only. */
  lemma PaidSingle(p: PagoRow, id: Id)
    ensures TotalPagado([p], id) == if p.empleadoId == id then Num(p.montoPagado) else 0.0
  {
    var f := Filter([p], PagoOf(id));
    assert [p][1..] == [];
    if p.empleadoId == id {
      assert f == [p];
      assert f[..0] == [];
      assert SumPagado(f) == SumPagado([]) + Num(p.montoPagado);
    } else {
      assert f == [];
    }
  }

  /** The rows written by `liquidarTodos` pay each employee exactly the sum
      requested for them. */
  lemma {:induction false} LiquidarTodosPaysRequested(pagos: seq<PagoRequest>, id: Id)
    ensures TotalPagado(LiquidarTodos(pagos), id) == RequestedFor(pagos, id)
  {
    if pagos != [] {
      var rows := LiquidarTodos(pagos);
      var rest := LiquidarTodos(pagos[1..]);
      assert rows == [rows[0]] + rest;
      PaidTotalAppend([rows[0]], rest, id);
      PaidSingle(rows[0], id);
      LiquidarTodosPaysRequested(pagos[1..], id);
    }
  }

  /** A non-negative payment to one employee never raises that employee's
      balance, and leaves every other employee's balance as it was. An
      overpayment drives the balance to 0 and is not carried as credit. */
  lemma PaymentNeverRaisesBalance(rows: seq<SaleRow>, pagos: seq<PagoRow>, p: PagoRow, id: Id)
    requires Num(p.montoPagado) >= 0.0
    ensures id == p.empleadoId ==> SaldoPendiente(rows, pagos + [p], id) <= SaldoPendiente(rows, pagos, id)
    ensures id != p.empleadoId ==> SaldoPendiente(rows, pagos + [p], id) == SaldoPendiente(rows, pagos, id)
    ensures id == p.empleadoId && Num(p.montoPagado) >= SaldoPendiente(rows, pagos, id) ==>
              SaldoPendiente(rows, pagos + [p], id) == 0.0
  {
    PaidTotalAppend(pagos, [p], id);
    PaidSingle(p, id);
  }

  /** Commission is frozen in the item rows when the invoice is written: the
      balances do not depend on the employees' current rates, so changing a
      rate afterwards changes no reported total. */
  lemma BalancesIgnoreCurrentRates(
    before: seq<Empleado>, after: seq<Empleado>, rows: seq<SaleRow>, pagos: seq<PagoRow>)
    requires |before| == |after|
    requires forall i :: 0 <= i < |before| ==> before[i].id == after[i].id
    ensures var s1 := Saldos(before, rows, pagos);
            var s2 := Saldos(after, rows, pagos);
            forall i :: 0 <= i < |s1| ==>
              s1[i].ventasTotales == s2[i].ventasTotales &&
              s1[i].comisionTotal == s2[i].comisionTotal &&
              s1[i].saldoPendiente == s2[i].saldoPendiente
  {
  }
}
