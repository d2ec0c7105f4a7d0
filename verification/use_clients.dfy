/** The client list kept by `useClients` (`src/hooks/useClients.ts`): how
    each service reply changes the list and the reply the hook returns. The
    service calls themselves are parameters: the value they return, or what
    they throw. */
module UseClients {
  import opened Common
  import opened Types
  import opened ListState

  const FETCH_DEFAULT: string := "Error desconocido al cargar clientes"
  const CREATE_DEFAULT: string := "Error desconocido al crear cliente"
  const UPDATE_DEFAULT: string := "Error desconocido al actualizar cliente"
  const DELETE_DEFAULT: string := "Error desconocido al eliminar cliente"

  function HasId(id: Id): Client -> bool {
    (c: Client) => c.id == id
  }

  function NotId(id: Id): Client -> bool {
    (c: Client) => c.id != id
  }

  /** `fetchClients`: a successful read replaces the list and clears the
      error; a failed one keeps the list and shows the message. */
  function FetchClients(s: HookState<Client>, read: Result<seq<Client>>): (r: HookState<Client>)
    ensures read.Ok? ==> r.items == read.value && r.error.None?
    ensures read.Threw? ==> r.items == s.items && r.error == Some(MessageOr(read.thrown, FETCH_DEFAULT))
  {
    Fetch(s, read, FETCH_DEFAULT)
  }

  /** `addClient`: the created client goes in front of the list. */
  function AddClient(s: HookState<Client>, created: Result<Client>): (r: Outcome<Client>)
    ensures r.state.error == s.error
    ensures created.Ok? ==> r.state.items == [created.value] + s.items && r.reply == Success(Some(created.value))
    ensures created.Threw? ==> r.state == s && r.reply == Failure(MessageOr(created.thrown, CREATE_DEFAULT))
  {
    match created
    case Ok(data) => Outcome(HookState([data] + s.items, s.error), Success(Some(data)))
    case Threw(t) => Outcome(s, Failure(MessageOr(t, CREATE_DEFAULT)))
  }

  /** `updateClient`: every entry with the id becomes the returned client;
      the others keep their place. */
  function UpdateClient(s: HookState<Client>, id: Id, updated: Result<Client>): (r: Outcome<Client>)
    ensures r.state.error == s.error
    ensures |r.state.items| == |s.items|
    ensures updated.Ok? ==>
              && r.reply == Success(Some(updated.value))
              && forall i :: 0 <= i < |s.items| ==>
                   r.state.items[i] == (if s.items[i].id == id then updated.value else s.items[i])
    ensures updated.Threw? ==> r.state == s && r.reply == Failure(MessageOr(updated.thrown, UPDATE_DEFAULT))
  {
    Update(s, HasId(id), updated, UPDATE_DEFAULT)
  }

  /** `deleteClient`: the entries with the id go, the rest stay in order,
      each as often as before. */
  function DeleteClient(s: HookState<Client>, id: Id, deleted: Result<()>): (r: Outcome<Client>)
    ensures r.state.error == s.error
    ensures deleted.Ok? ==>
              && r.reply == Success(None)
              && IsSubsequence(r.state.items, s.items)
              && (forall c :: c in r.state.items <==> c in s.items && c.id != id)
              && forall c: Client :: c.id != id ==> multiset(r.state.items)[c] == multiset(s.items)[c]
    ensures deleted.Threw? ==> r.state == s && r.reply == Failure(MessageOr(deleted.thrown, DELETE_DEFAULT))
  {
    Remove(s, NotId(id), deleted, DELETE_DEFAULT)
  }

  /** A failed call of any kind leaves the list and the error state as they
      were, and reports a failure. */
  lemma FailureLeavesListAlone(s: HookState<Client>, id: Id, t: Thrown)
    ensures AddClient(s, Threw(t)).state == s && AddClient(s, Threw(t)).reply.Failure?
    ensures UpdateClient(s, id, Threw(t)).state == s && UpdateClient(s, id, Threw(t)).reply.Failure?
    ensures DeleteClient(s, id, Threw(t)).state == s && DeleteClient(s, id, Threw(t)).reply.Failure?
  {
  }

  /** Deleting a just-added client whose id was new restores the list. */
  lemma {:induction false} DeleteUndoesAdd(s: HookState<Client>, c: Client)
    requires forall x :: x in s.items ==> x.id != c.id
    ensures DeleteClient(AddClient(s, Ok(c)).state, c.id, Ok(())).state == s
  {
    assert ([c] + s.items)[1..] == s.items;
    FilterKeepsAll(s.items, NotId(c.id));
  }

  /** An update that keeps the id is idempotent, and an update of an id no
      entry carries changes nothing. */
  lemma UpdateTwiceOrMissing(s: HookState<Client>, id: Id, c: Client)
    ensures c.id == id ==>
              UpdateClient(UpdateClient(s, id, Ok(c)).state, id, Ok(c)).state == UpdateClient(s, id, Ok(c)).state
    ensures (forall i :: 0 <= i < |s.items| ==> s.items[i].id != id) ==> UpdateClient(s, id, Ok(c)).state == s
  {
    if c.id == id {
      ReplaceWhereIdempotent(s.items, HasId(id), c);
    }
    if forall i :: 0 <= i < |s.items| ==> s.items[i].id != id {
      ReplaceWhereMiss(s.items, HasId(id), c);
    }
  }
}
