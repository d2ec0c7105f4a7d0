/** The staff settlement hook (`src/hooks/useStaff.ts`): the balances on
    screen, a single payment, and "pay everyone what they are owed".

    The store is a `Ledger` value: a payment step returns the ledger after
    its insert together with the hook's new state and its reply. A refresh
    reads the ledger back through `GetEmpleadosConSaldos`. */
module UseStaff {
  import opened Common
  import opened Types
  import opened StaffService

  const NO_PENDING: string := "No hay pagos pendientes"
  const FETCH_ERROR_DEFAULT: string := "Error desconocido al cargar empleados"

  /** The settlement tables as stored. */
  datatype Ledger = Ledger(empleados: seq<Empleado>, items: seq<SaleRow>, pagos: seq<PagoRow>)

  /** The hook's state: the balances shown and the last load error. */
  datatype StaffState = StaffState(staff: seq<EmpleadoConSaldo>, error: Option<string>)

  /** `{ success, error?, message? }` */
  datatype PayReply = PayReply(success: bool, error: Option<string>, message: Option<string>)

  /** One hook call: the store after it, the hook's state after it, and its reply. */
  datatype StaffStep = StaffStep(ledger: Ledger, state: StaffState, reply: PayReply)

  /** The balances as the store holds them now. */
  function CurrentSaldos(l: Ledger): seq<EmpleadoConSaldo> {
    Saldos(l.empleados, l.items, l.pagos)
  }

  /** Reading the balances back from the ledger, every read succeeding. */
  function ReadBack(l: Ledger): (r: Result<seq<EmpleadoConSaldo>>)
    ensures r == Ok(CurrentSaldos(l))
  {
    GetEmpleadosConSaldos(Rows(l.empleados), Rows(l.items), Rows(l.pagos))
  }

  /** `fetchStaffData`: a successful read replaces the balances and clears
      the error; a failed one keeps the balances and records the message. */
  function FetchStaffData(s: StaffState, read: Result<seq<EmpleadoConSaldo>>): (s2: StaffState)
    ensures read.Ok? ==> s2 == StaffState(read.value, None)
    ensures read.Threw? ==>
              && s2.staff == s.staff
              && s2.error == Some(MessageOrIfEmpty(read.thrown, FETCH_ERROR_DEFAULT))
              && s2.error.value != ""
  {
    match read
    case Ok(data) => StaffState(data, None)
    case Threw(t) => StaffState(s.staff, Some(MessageOrIfEmpty(t, FETCH_ERROR_DEFAULT)))
  }

  /** `emp => emp.saldo_pendiente > 0` */
  predicate HasBalance(e: EmpleadoConSaldo) {
    e.saldoPendiente > 0.0
  }

  /** `emp => ({ empleado_id: emp.id, monto: emp.saldo_pendiente })` */
  function ToRequest(e: EmpleadoConSaldo): PagoRequest {
    PagoRequest(e.empleado.id, e.saldoPendiente)
  }

  function ToRequests(staff: seq<EmpleadoConSaldo>): (reqs: seq<PagoRequest>)
    ensures |reqs| == |staff|
    ensures forall i :: 0 <= i < |staff| ==> reqs[i] == ToRequest(staff[i])
  {
    if staff == [] then []
    else
      var rest := ToRequests(staff[1..]);
      assert forall i :: 0 < i < |staff| ==> staff[i] == staff[1..][i - 1] && ([ToRequest(staff[0])] + rest)[i] == rest[i - 1];
      [ToRequest(staff[0])] + rest
  }

  /** The requests for the owed entries of the list, in list order. */
  function OwedRequests(staff: seq<EmpleadoConSaldo>): seq<PagoRequest> {
    ToRequests(Filter(staff, HasBalance))
  }

  /** The payments `payAllPending` asks for: one for each employee on screen
      with a positive balance, for that full balance, in list order. */
  function PendingPayments(staff: seq<EmpleadoConSaldo>): (reqs: seq<PagoRequest>)
    ensures |reqs| <= |staff|
    ensures forall q :: q in reqs ==> q.monto > 0.0
    ensures forall q :: q in reqs <==> exists e :: e in staff && HasBalance(e) && q == ToRequest(e)
    ensures reqs == [] <==> forall e :: e in staff ==> !HasBalance(e)
    ensures IsSubsequence(reqs, ToRequests(staff))
  {
    RequestsOfOwed(staff);
    OwedRequestsInOrder(staff);
    OwedRequests(staff)
  }

  /** The first entry of the staff list decides the first request: it is
      asked for when that employee is owed something, skipped otherwise. */
  lemma {:induction false} OwedRequestsCons(staff: seq<EmpleadoConSaldo>)
    requires staff != []
    ensures OwedRequests(staff) ==
            (if HasBalance(staff[0]) then [ToRequest(staff[0])] else []) + OwedRequests(staff[1..])
  {
    var rest := Filter(staff[1..], HasBalance);
    if HasBalance(staff[0]) {
      assert Filter(staff, HasBalance) == [staff[0]] + rest;
      assert ([staff[0]] + rest)[1..] == rest;
    } else {
      assert Filter(staff, HasBalance) == rest;
      assert [] + ToRequests(rest) == ToRequests(rest);
    }
  }

  /** The requests follow the staff list: they are the requests of all
      entries with those of the unowed entries dropped. */
  lemma {:induction false} OwedRequestsInOrder(staff: seq<EmpleadoConSaldo>)
    ensures IsSubsequence(OwedRequests(staff), ToRequests(staff))
    decreases |staff|
  {
    if staff != [] {
      OwedRequestsInOrder(staff[1..]);
      OwedRequestsCons(staff);
      var all := ToRequests(staff);
      var rest := OwedRequests(staff[1..]);
      assert all[1..] == ToRequests(staff[1..]);
      if HasBalance(staff[0]) {
        assert ([ToRequest(staff[0])] + rest)[1..] == rest;
      } else {
        assert [] + rest == rest;
      }
    }
  }

  /** The sum asked for an employee, split at the head of the list: the
      first entry contributes its positive balance when it is that
      employee, and nothing otherwise. */
  lemma {:induction false} RequestedForCons(staff: seq<EmpleadoConSaldo>, id: Id)
    requires staff != []
    ensures RequestedFor(OwedRequests(staff), id) ==
            (if staff[0].empleado.id == id then Max0(staff[0].saldoPendiente) else 0.0)
            + RequestedFor(OwedRequests(staff[1..]), id)
  {
    OwedRequestsCons(staff);
    var rest := OwedRequests(staff[1..]);
    if HasBalance(staff[0]) {
      assert ([ToRequest(staff[0])] + rest)[1..] == rest;
    } else {
      assert [] + rest == rest;
    }
  }

  /** An employee not on the list is asked for nothing. */
  lemma {:induction false} NothingRequestedForAbsent(staff: seq<EmpleadoConSaldo>, id: Id)
    requires forall j :: 0 <= j < |staff| ==> staff[j].empleado.id != id
    ensures RequestedFor(OwedRequests(staff), id) == 0.0
    decreases |staff|
  {
    if staff != [] {
      RequestedForCons(staff, id);
      assert forall j :: 0 <= j < |staff[1..]| ==> staff[1..][j] == staff[j + 1];
      NothingRequestedForAbsent(staff[1..], id);
    }
  }

  /** No employee id is carried by two entries of the list. */
  predicate DistinctIds(staff: seq<EmpleadoConSaldo>) {
    forall i, j :: 0 <= i < j < |staff| ==> staff[i].empleado.id != staff[j].empleado.id
  }

  /** Dropping the first entry keeps the ids distinct, and none of the
      remaining entries carries the first entry's id. */
  lemma DistinctIdsTail(staff: seq<EmpleadoConSaldo>)
    requires staff != [] && DistinctIds(staff)
    ensures DistinctIds(staff[1..])
    ensures forall j :: 0 <= j < |staff[1..]| ==> staff[1..][j].empleado.id != staff[0].empleado.id
  {
    assert forall j :: 0 <= j < |staff[1..]| ==> staff[1..][j] == staff[j + 1];
  }

  /** The induction behind `PendingPaysBalanceOnce`. */
  lemma {:induction false} OwedRequestedOnce(staff: seq<EmpleadoConSaldo>, i: int)
    requires DistinctIds(staff)
    requires 0 <= i < |staff|
    ensures RequestedFor(OwedRequests(staff), staff[i].empleado.id) == Max0(staff[i].saldoPendiente)
    decreases |staff|
  {
    var id := staff[i].empleado.id;
    RequestedForCons(staff, id);
    DistinctIdsTail(staff);
    if i == 0 {
      NothingRequestedForAbsent(staff[1..], id);
    } else {
      assert staff[1..][i - 1] == staff[i];
      OwedRequestedOnce(staff[1..], i - 1);
    }
  }

  /** With one entry per employee, pay-all asks each employee for exactly
      the balance shown (for nothing when that is not positive): no one is
      paid twice. */
  lemma PendingPaysBalanceOnce(staff: seq<EmpleadoConSaldo>, i: int)
    requires DistinctIds(staff)
    requires 0 <= i < |staff|
    ensures RequestedFor(PendingPayments(staff), staff[i].empleado.id) == Max0(staff[i].saldoPendiente)
  {
    OwedRequestedOnce(staff, i);
  }

  /** The facts `PendingPayments` promises, about the requests built from the
      employees that are owed something. */
  lemma RequestsOfOwed(staff: seq<EmpleadoConSaldo>)
    ensures var reqs := OwedRequests(staff);
            && (forall q :: q in reqs ==> q.monto > 0.0 && exists e :: e in staff && HasBalance(e) && q == ToRequest(e))
            && (forall e :: e in staff && HasBalance(e) ==> ToRequest(e) in reqs)
            && (reqs == [] <==> forall e :: e in staff ==> !HasBalance(e))
  {
    var owed := Filter(staff, HasBalance);
    var reqs := ToRequests(owed);
    forall q | q in reqs
      ensures q.monto > 0.0 && exists e :: e in staff && HasBalance(e) && q == ToRequest(e)
    {
      var i :| 0 <= i < |reqs| && reqs[i] == q;
      assert owed[i] in owed;
    }
    forall e | e in staff && HasBalance(e)
      ensures ToRequest(e) in reqs
    {
      assert e in owed;
      var i :| 0 <= i < |owed| && owed[i] == e;
      assert reqs[i] == ToRequest(e);
    }
    if owed != [] {
      assert owed[0] in owed;
    }
  }

  /** The sum asked for an employee covers that employee's balance: every
      request is positive, and an employee with a positive balance gets a
      request for all of it. */
  lemma {:induction false} PendingCoversBalance(staff: seq<EmpleadoConSaldo>, i: int)
    requires 0 <= i < |staff|
    ensures RequestedFor(PendingPayments(staff), staff[i].empleado.id) >= staff[i].saldoPendiente
  {
    var id := staff[i].empleado.id;
    var owed := Filter(staff, HasBalance);
    var reqs := PendingPayments(staff);
    assert reqs == ToRequests(owed);
    RequestedNonNegative(reqs, id);
    if HasBalance(staff[i]) {
      assert staff[i] in owed;
      var k :| 0 <= k < |owed| && owed[k] == staff[i];
      RequestedCoversOne(reqs, k, id);
    }
  }

  /** A sum of positive requests is never negative. */
  lemma {:induction false} RequestedNonNegative(reqs: seq<PagoRequest>, id: Id)
    requires forall q :: q in reqs ==> q.monto > 0.0
    ensures RequestedFor(reqs, id) >= 0.0
  {
    if reqs != [] {
      assert forall q :: q in reqs[1..] ==> q in reqs;
      RequestedNonNegative(reqs[1..], id);
    }
  }

  /** A sum of positive requests is at least any one of its terms. */
  lemma {:induction false} RequestedCoversOne(reqs: seq<PagoRequest>, k: int, id: Id)
    requires forall q :: q in reqs ==> q.monto > 0.0
    requires 0 <= k < |reqs| && reqs[k].empleadoId == id
    ensures RequestedFor(reqs, id) >= reqs[k].monto
  {
    assert forall q :: q in reqs[1..] ==> q in reqs;
    if k == 0 {
      RequestedNonNegative(reqs[1..], id);
    } else {
      RequestedCoversOne(reqs[1..], k - 1, id);
    }
  }

  /** `payEmployee`: the amount goes to the store unchanged, with no check
      against the balance; on success the balances are read back, on a
      failed insert nothing is written and the failure is returned. */
  function PayEmployee(l: Ledger, s: StaffState, empleadoId: Id, monto: real, insert: Query<()>): (step: StaffStep)
    ensures insert.Rows? ==>
              && step.ledger == l.(pagos := l.pagos + [PagoRow(empleadoId, Some(monto), NOTA_PAGO_MANUAL)])
              && step.state == StaffState(CurrentSaldos(step.ledger), None)
              && step.reply == PayReply(true, None, None)
    ensures insert.QueryError? ==>
              step.ledger == l && step.state == s && step.reply == PayReply(false, Some(insert.message), None)
  {
    match insert
    case QueryError(m) => StaffStep(l, s, PayReply(false, Some(m), None))
    case Rows(_) =>
      var l2 := l.(pagos := l.pagos + [RegistrarPagoComision(empleadoId, monto, None)]);
      StaffStep(l2, FetchStaffData(s, ReadBack(l2)), PayReply(true, None, None))
  }

  /** `payAllPending`: the payments are chosen from the balances on screen.
      With none owed nothing is written; otherwise one bulk insert, then the
      balances are read back. */
  function PayAllPending(l: Ledger, s: StaffState, insert: Query<()>): (step: StaffStep)
    ensures PendingPayments(s.staff) == [] ==>
              step == StaffStep(l, s, PayReply(true, None, Some(NO_PENDING)))
    ensures PendingPayments(s.staff) != [] && insert.Rows? ==>
              && step.ledger == l.(pagos := l.pagos + LiquidarTodos(PendingPayments(s.staff)))
              && step.state == StaffState(CurrentSaldos(step.ledger), None)
              && step.reply == PayReply(true, None, None)
    ensures PendingPayments(s.staff) != [] && insert.QueryError? ==>
              step.ledger == l && step.state == s && step.reply == PayReply(false, Some(insert.message), None)
  {
    var pending := PendingPayments(s.staff);
    if pending == [] then StaffStep(l, s, PayReply(true, None, Some(NO_PENDING)))
    else match insert
      case QueryError(m) => StaffStep(l, s, PayReply(false, Some(m), None))
      case Rows(_) =>
        var l2 := l.(pagos := l.pagos + LiquidarTodos(pending));
        StaffStep(l2, FetchStaffData(s, ReadBack(l2)), PayReply(true, None, None))
  }

  /** One employee after the bulk payment: what was requested for them
      covers their balance, so it falls to 0. */
  lemma {:induction false} SettledAfterBulkPayment(l: Ledger, s: StaffState, i: int)
    requires s.staff == CurrentSaldos(l)
    requires 0 <= i < |l.empleados|
    ensures SaldoPendiente(l.items, l.pagos + LiquidarTodos(PendingPayments(s.staff)), l.empleados[i].id) == 0.0
  {
    var id := l.empleados[i].id;
    var reqs := PendingPayments(s.staff);
    PaidTotalAppend(l.pagos, LiquidarTodos(reqs), id);
    LiquidarTodosPaysRequested(reqs, id);
    PendingCoversBalance(s.staff, i);
    var c := TotalComision(l.items, id);
    var p := TotalPagado(l.pagos, id);
    assert s.staff[i].saldoPendiente == Max0(c - p);
    assert TotalPagado(l.pagos + LiquidarTodos(reqs), id) >= p + Max0(c - p);
  }

  /** After a successful pay-all over balances that were up to date, every
      recomputed balance is 0, and the screen shows those balances. */
  lemma {:induction false} PayAllSettlesEveryone(l: Ledger, s: StaffState, insert: Query<()>)
    requires s.staff == CurrentSaldos(l)
    requires insert.Rows?
    ensures var step := PayAllPending(l, s, insert);
            step.reply.success &&
            step.state.staff == CurrentSaldos(step.ledger) &&
            forall e :: e in CurrentSaldos(step.ledger) ==> e.saldoPendiente == 0.0
  {
    var step := PayAllPending(l, s, insert);
    var after := CurrentSaldos(step.ledger);
    assert step.ledger.empleados == l.empleados && step.ledger.items == l.items;
    assert PendingPayments(s.staff) != [] ==> step.ledger.pagos == l.pagos + LiquidarTodos(PendingPayments(s.staff));
    forall e | e in after
      ensures e.saldoPendiente == 0.0
    {
      var i :| 0 <= i < |after| && after[i] == e;
      if PendingPayments(s.staff) == [] {
        assert !HasBalance(s.staff[i]);
      } else {
        SettledAfterBulkPayment(l, s, i);
      }
    }
  }

  /** Paying everyone twice in a row writes nothing the second time: with no
      new commission in between, the second call finds no balance owed. */
  lemma SecondPayAllIsNoop(l: Ledger, s: StaffState, first: Query<()>, second: Query<()>)
    requires s.staff == CurrentSaldos(l)
    requires first.Rows?
    ensures var step1 := PayAllPending(l, s, first);
            var step2 := PayAllPending(step1.ledger, step1.state, second);
            step2.ledger == step1.ledger && step2.reply == PayReply(true, None, Some(NO_PENDING))
  {
    PayAllSettlesEveryone(l, s, first);
  }

  /** A failed pay-all or single payment is reported, never thrown, and
      leaves both the store and the screen as they were. */
  lemma FailuresAreReported(l: Ledger, s: StaffState, id: Id, monto: real, m: string)
    ensures PayEmployee(l, s, id, monto, QueryError(m)) == StaffStep(l, s, PayReply(false, Some(m), None))
    ensures PendingPayments(s.staff) != [] ==>
              PayAllPending(l, s, QueryError(m)) == StaffStep(l, s, PayReply(false, Some(m), None))
  {
  }
}
