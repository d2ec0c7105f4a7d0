/** The appointment list kept by `useAppointments`
    (`src/hooks/useAppointments.ts`): how each service reply changes the
    list and the reply the hook returns. The service calls themselves are
    parameters: the value they return, or what they throw. */
module UseAppointments {
  import opened Common
  import opened Types
  import opened ListState

  const FETCH_DEFAULT: string := "Error al cargar citas"
  const CREATE_DEFAULT: string := "Error al crear cita"
  const UPDATE_DEFAULT: string := "Error al actualizar cita"
  const DELETE_DEFAULT: string := "Error al eliminar cita"

  function HasId(id: Id): Appointment -> bool {
    (a: Appointment) => a.id == id
  }

  function NotId(id: Id): Appointment -> bool {
    (a: Appointment) => a.id != id
  }

  /** `fetchAppointments`: a successful read of the month replaces the list
      and clears the error; a failed one keeps the list and shows the
      message. */
  function FetchAppointments(s: HookState<Appointment>, read: Result<seq<Appointment>>): (r: HookState<Appointment>)
    ensures read.Ok? ==> r.items == read.value && r.error.None?
    ensures read.Threw? ==> r.items == s.items && r.error == Some(MessageOr(read.thrown, FETCH_DEFAULT))
  {
    Fetch(s, read, FETCH_DEFAULT)
  }

  /** `addAppointment`: the created appointment goes at the end of the list. */
  function AddAppointment(s: HookState<Appointment>, created: Result<Appointment>): (r: Outcome<Appointment>)
    ensures r.state.error == s.error
    ensures created.Ok? ==> r.state.items == s.items + [created.value] && r.reply == Success(Some(created.value))
    ensures created.Threw? ==> r.state == s && r.reply == Failure(MessageOr(created.thrown, CREATE_DEFAULT))
  {
    match created
    case Ok(data) => Outcome(HookState(s.items + [data], s.error), Success(Some(data)))
    case Threw(t) => Outcome(s, Failure(MessageOr(t, CREATE_DEFAULT)))
  }

  /** `editAppointment`: every entry with the id becomes the returned
      appointment; the others keep their place. */
  function EditAppointment(s: HookState<Appointment>, id: Id, updated: Result<Appointment>): (r: Outcome<Appointment>)
    ensures r.state.error == s.error
    ensures |r.state.items| == |s.items|
    ensures updated.Ok? ==>
              && r.reply == Success(Some(updated.value))
              && forall i :: 0 <= i < |s.items| ==>
                   r.state.items[i] == (if s.items[i].id == id then updated.value else s.items[i])
    ensures updated.Threw? ==> r.state == s && r.reply == Failure(MessageOr(updated.thrown, UPDATE_DEFAULT))
  {
    Update(s, HasId(id), updated, UPDATE_DEFAULT)
  }

  /** `removeAppointment`: the entries with the id go, the rest stay in
      order, each as often as before. */
  function RemoveAppointment(s: HookState<Appointment>, id: Id, deleted: Result<()>): (r: Outcome<Appointment>)
    ensures r.state.error == s.error
    ensures deleted.Ok? ==>
              && r.reply == Success(None)
              && IsSubsequence(r.state.items, s.items)
              && (forall a :: a in r.state.items <==> a in s.items && a.id != id)
              && forall a: Appointment :: a.id != id ==> multiset(r.state.items)[a] == multiset(s.items)[a]
    ensures deleted.Threw? ==> r.state == s && r.reply == Failure(MessageOr(deleted.thrown, DELETE_DEFAULT))
  {
    Remove(s, NotId(id), deleted, DELETE_DEFAULT)
  }

  /** A failed call of any kind leaves the list and the error state as they
      were, and reports a failure. */
  lemma FailureLeavesListAlone(s: HookState<Appointment>, id: Id, t: Thrown)
    ensures AddAppointment(s, Threw(t)).state == s && AddAppointment(s, Threw(t)).reply.Failure?
    ensures EditAppointment(s, id, Threw(t)).state == s && EditAppointment(s, id, Threw(t)).reply.Failure?
    ensures RemoveAppointment(s, id, Threw(t)).state == s && RemoveAppointment(s, id, Threw(t)).reply.Failure?
  {
  }

  /** Removing a just-added appointment whose id was new restores the list. */
  lemma {:induction false} RemoveUndoesAdd(s: HookState<Appointment>, a: Appointment)
    requires forall x :: x in s.items ==> x.id != a.id
    ensures RemoveAppointment(AddAppointment(s, Ok(a)).state, a.id, Ok(())).state == s
  {
    FilterAppend(s.items, [a], NotId(a.id));
    FilterKeepsAll(s.items, NotId(a.id));
    assert [a][1..] == [];
  }

  /** An edit that keeps the id is idempotent, and an edit of an id no entry
      carries changes nothing. */
  lemma EditTwiceOrMissing(s: HookState<Appointment>, id: Id, a: Appointment)
    ensures a.id == id ==>
              EditAppointment(EditAppointment(s, id, Ok(a)).state, id, Ok(a)).state == EditAppointment(s, id, Ok(a)).state
    ensures (forall i :: 0 <= i < |s.items| ==> s.items[i].id != id) ==> EditAppointment(s, id, Ok(a)).state == s
  {
    if a.id == id {
      ReplaceWhereIdempotent(s.items, HasId(id), a);
    }
    if forall i :: 0 <= i < |s.items| ==> s.items[i].id != id {
      ReplaceWhereMiss(s.items, HasId(id), a);
    }
  }
}
