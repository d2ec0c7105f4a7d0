/** The client list filter (`src/pages/Clients.tsx`): a case-insensitive
    search on name or email, combined with a bonus-state tab. */
module ClientsPage {
  import opened Common
  import opened Types

  /** The tabs `'all' | 'Activo' | 'Vencido'`. */
  datatype StatusFilter = All | Activo | Vencido

  /** `statusMap`: the stored state a tab stands for. */
  function StatusMap(f: StatusFilter): Option<string> {
    match f
    case All => None
    case Activo => Some(PENDIENTE)
    case Vencido => Some(VENCIDO)
  }

  /** `matchesSearch`: the lower-cased term occurs in the lower-cased name, or
      in the lower-cased email when there is one. */
  predicate MatchesSearch(term: string, c: Client) {
    Includes(Lower(c.nombre), Lower(term)) || (c.email != "" && Includes(Lower(c.email), Lower(term)))
  }

  /** The tab test: 'Activo' keeps both states of a live bonus, any other
      tab keeps exactly the state it maps to. */
  predicate MatchesTab(f: StatusFilter, c: Client) {
    match StatusMap(f)
    case None => true
    case Some(db) =>
      if db == PENDIENTE then c.bonoEstado == PENDIENTE || c.bonoEstado == ALERTA_5_MESES
      else c.bonoEstado == db
  }

  predicate Shown(term: string, f: StatusFilter, c: Client) {
    MatchesSearch(term, c) && MatchesTab(f, c)
  }

  function ShownBy(term: string, f: StatusFilter): Client -> bool {
    (c: Client) => Shown(term, f, c)
  }

  /** `filteredClients` */
  function FilteredClients(clients: seq<Client>, term: string, f: StatusFilter): (r: seq<Client>)
    ensures IsSubsequence(r, clients)
    ensures forall c :: c in r <==> c in clients && MatchesSearch(term, c) && MatchesTab(f, c)
    ensures forall c :: Shown(term, f, c) ==> multiset(r)[c] == multiset(clients)[c]
  {
    Filter(clients, ShownBy(term, f))
  }

  /** Each tab in the stored states it admits: 'all' admits every state,
      'Activo' exactly 'pendiente' and 'alerta_5_meses', 'Vencido' exactly
      'vencido'. */
  lemma TabsByState(c: Client)
    ensures MatchesTab(All, c)
    ensures MatchesTab(Activo, c) <==> c.bonoEstado == PENDIENTE || c.bonoEstado == ALERTA_5_MESES
    ensures MatchesTab(Vencido, c) <==> c.bonoEstado == VENCIDO
  {
  }

  /** No client is under both 'Activo' and 'Vencido', and a redeemed bonus
      appears under 'all' only. */
  lemma TabsDisjoint(clients: seq<Client>, term: string, c: Client)
    ensures !(c in FilteredClients(clients, term, Activo) && c in FilteredClients(clients, term, Vencido))
    ensures c.bonoEstado == RECLAMADO ==>
              c !in FilteredClients(clients, term, Activo) && c !in FilteredClients(clients, term, Vencido)
  {
  }

  /** With no search term and the 'all' tab, every client is listed. */
  lemma EmptySearchListsEveryone(clients: seq<Client>)
    ensures FilteredClients(clients, "", All) == clients
  {
    forall c: Client
      ensures ShownBy("", All)(c)
    {
      IncludesEmpty(Lower(c.nombre));
    }
    FilterKeepsAll(clients, ShownBy("", All));
  }

  /** The search is case-insensitive: a term and its lower-cased form show
      the same clients. */
  lemma {:induction false} SearchIgnoresCase(clients: seq<Client>, term: string, f: StatusFilter)
    ensures FilteredClients(clients, term, f) == FilteredClients(clients, Lower(term), f)
  {
    LowerIdempotent(term);
    assert forall c :: ShownBy(term, f)(c) == ShownBy(Lower(term), f)(c);
    FilterSamePredicate(clients, ShownBy(term, f), ShownBy(Lower(term), f));
  }

  lemma {:induction false} LowerIdempotent(s: string)
    ensures Lower(Lower(s)) == Lower(s)
  {
    assert forall i :: 0 <= i < |s| ==> LowerChar(LowerChar(s[i])) == LowerChar(s[i]);
  }
}
