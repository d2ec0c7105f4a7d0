/** The list updates shared by the client and appointment hooks
    (`src/hooks/useClients.ts`, `src/hooks/useAppointments.ts`): a fetch
    replaces the list, an update replaces the entries with an id, a delete
    filters them out, and a failed service call changes nothing and is
    reported with its message or the hook's fallback. */
module ListState {
  import opened Common

  /** `prev.map(x => hit(x) ? v : x)`: every hit is replaced by `v`, every
      other entry stays where it was. */
  function ReplaceWhere<T>(xs: seq<T>, hit: T -> bool, v: T): (r: seq<T>)
    ensures |r| == |xs|
    ensures forall i :: 0 <= i < |xs| ==> r[i] == (if hit(xs[i]) then v else xs[i])
  {
    if xs == [] then [] else [if hit(xs[0]) then v else xs[0]] + ReplaceWhere(xs[1..], hit, v)
  }

  /** The `{ success, data?, error? }` reply of a hook call. */
  datatype Reply<+T> = Success(data: Option<T>) | Failure(error: string)

  /** The list held by a hook and its `error` state. */
  datatype HookState<+T> = HookState(items: seq<T>, error: Option<string>)

  /** The state after a hook call, and the reply it returns. */
  datatype Outcome<+T> = Outcome(state: HookState<T>, reply: Reply<T>)

  /** A successful read replaces the list and clears the error; a failed
      one keeps the list and shows the message of an `Error`, or the
      fallback for anything else thrown. */
  function Fetch<T>(s: HookState<T>, read: Result<seq<T>>, fallback: string): (r: HookState<T>)
    ensures read.Ok? ==> r.items == read.value && r.error.None?
    ensures read.Threw? ==> r.items == s.items && r.error == Some(MessageOr(read.thrown, fallback))
  {
    match read
    case Ok(data) => HookState(data, None)
    case Threw(t) => HookState(s.items, Some(MessageOr(t, fallback)))
  }

  /** `setItems(prev => prev.map(x => hit(x) ? data : x))` after a successful
      update; on a failure the state is kept and the failure returned. */
  function Update<T>(s: HookState<T>, hit: T -> bool, updated: Result<T>, fallback: string): (r: Outcome<T>)
    ensures r.state.error == s.error
    ensures |r.state.items| == |s.items|
    ensures updated.Ok? ==>
              && r.reply == Success(Some(updated.value))
              && forall i :: 0 <= i < |s.items| ==>
                   r.state.items[i] == (if hit(s.items[i]) then updated.value else s.items[i])
    ensures updated.Threw? ==> r.state == s && r.reply == Failure(MessageOr(updated.thrown, fallback))
  {
    match updated
    case Ok(data) => Outcome(HookState(ReplaceWhere(s.items, hit, data), s.error), Success(Some(data)))
    case Threw(t) => Outcome(s, Failure(MessageOr(t, fallback)))
  }

  /** `setItems(prev => prev.filter(keep))` after a successful delete; on a
      failure the state is kept and the failure returned. */
  function Remove<T(==,!new)>(s: HookState<T>, keep: T -> bool, deleted: Result<()>, fallback: string): (r: Outcome<T>)
    ensures r.state.error == s.error
    ensures deleted.Ok? ==>
              && r.reply == Success(None)
              && IsSubsequence(r.state.items, s.items)
              && (forall x :: x in r.state.items <==> x in s.items && keep(x))
              && forall x :: keep(x) ==> multiset(r.state.items)[x] == multiset(s.items)[x]
    ensures deleted.Threw? ==> r.state == s && r.reply == Failure(MessageOr(deleted.thrown, fallback))
  {
    match deleted
    case Ok(_) => Outcome(HookState(Filter(s.items, keep), s.error), Success(None))
    case Threw(t) => Outcome(s, Failure(MessageOr(t, fallback)))
  }

  /** A second replacement by the same value changes nothing more, when
      that value is itself a hit (an update that keeps the id). */
  lemma {:induction false} ReplaceWhereIdempotent<T>(xs: seq<T>, hit: T -> bool, v: T)
    requires hit(v)
    ensures ReplaceWhere(ReplaceWhere(xs, hit, v), hit, v) == ReplaceWhere(xs, hit, v)
  {
    var once := ReplaceWhere(xs, hit, v);
    var twice := ReplaceWhere(once, hit, v);
    assert forall i :: 0 <= i < |xs| ==> twice[i] == once[i];
  }

  /** Where nothing hits, replacement leaves the list as it is. */
  lemma {:induction false} ReplaceWhereMiss<T>(xs: seq<T>, hit: T -> bool, v: T)
    requires forall i :: 0 <= i < |xs| ==> !hit(xs[i])
    ensures ReplaceWhere(xs, hit, v) == xs
  {
    var r := ReplaceWhere(xs, hit, v);
    assert forall i :: 0 <= i < |xs| ==> r[i] == xs[i];
  }
}
