/**
 * The search of the invoices list screen, the client name it shows on each
 * invoice, and when it offers "mark as paid". The screen looks each
 * invoice's client up among the clients it loaded.
 */
module FacturesList {
  import opened Wrappers
  import opened Time
  import opened Text
  import opened Store
  import opened Factures
  import opened ClientsList
  import FactureRepository

  function HasId(clientId: string): (p: ClientView -> bool)
    ensures forall c :: p(c) <==> c.id == clientId
  {
    (c: ClientView) => c.id == clientId
  }

  /** `clients.find((c) => c.id === clientId)`. */
  function ClientOf(clients: seq<ClientView>, clientId: string): (r: Option<ClientView>)
    ensures r.Some? ==> r.value in clients && r.value.id == clientId
    ensures r.None? <==> forall i :: 0 <= i < |clients| ==> clients[i].id != clientId
  {
    Find(clients, HasId(clientId))
  }

  /**
   * The filter callback: an invoice whose client is not loaded is dropped;
   * otherwise it is kept when its client matches or its number contains the
   * lower-cased query.
   */
  predicate Kept(f: Facture, clients: seq<ClientView>, query: string)
  {
    match ClientOf(clients, f.clientId)
    case None => false
    case Some(c) => Matches(c, query) || Contains(Lower(f.numero), Lower(query))
  }

  function KeptBy(clients: seq<ClientView>, query: string): (p: Facture -> bool)
    ensures forall f :: p(f) <==> Kept(f, clients, query)
  {
    (f: Facture) => Kept(f, clients, query)
  }

  /** `filteredFactures`. */
  function FilterFactures(factures: seq<Facture>, clients: seq<ClientView>, query: string): (r: seq<Facture>)
    ensures IsBlank(query) ==> r == factures
    ensures !IsBlank(query) ==> forall f :: f in r <==> f in factures && Kept(f, clients, query)
    ensures SubsequenceOf(r, factures)
  {
    if IsBlank(query) then
      SubsequenceOfSelf(factures);
      factures
    else
      FilterSubsequence(factures, KeptBy(clients, query));
      Filter(factures, KeptBy(clients, query))
  }

  /** A search never shows an invoice whose client is not among the loaded clients, even when its number matches. */
  lemma UnknownClientHidden(factures: seq<Facture>, clients: seq<ClientView>, query: string, f: Facture)
    requires !IsBlank(query)
    requires forall i :: 0 <= i < |clients| ==> clients[i].id != f.clientId
    ensures f !in FilterFactures(factures, clients, query)
  {
  }

  /** Typing an invoice's number finds it, provided its client is loaded. */
  lemma NumeroFindsFacture(factures: seq<Facture>, clients: seq<ClientView>, f: Facture)
    requires f in factures && !IsBlank(f.numero)
    requires exists i :: 0 <= i < |clients| && clients[i].id == f.clientId
    ensures f in FilterFactures(factures, clients, f.numero)
  {
    ContainsSelf(Lower(f.numero));
  }

  /** `getClientName(clientId)`. */
  function GetClientName(clients: seq<ClientView>, clientId: string): (r: string)
    ensures ClientOf(clients, clientId).None? ==> r == "Client inconnu"
    ensures ClientOf(clients, clientId).Some? ==> r == FullName(ClientOf(clients, clientId).value)
  {
    match ClientOf(clients, clientId)
    case None => "Client inconnu"
    case Some(c) => FullName(c)
  }

  /** Every invoice a search shows is labelled with the full name of a loaded client of that id. */
  lemma SearchedFacturesNamed(factures: seq<Facture>, clients: seq<ClientView>, query: string, f: Facture)
    requires !IsBlank(query) && f in FilterFactures(factures, clients, query)
    ensures exists c :: c in clients && c.id == f.clientId && GetClientName(clients, f.clientId) == FullName(c)
  {
    var c := ClientOf(clients, f.clientId).value;
    assert c in clients && c.id == f.clientId;
  }

  /** `facture.status !== FactureStatus.PAID`: the action menu offers "mark as paid". */
  predicate ShowMarkAsPaid(f: Facture)
  {
    f.status != PAID
  }

  /**
   * The action is offered exactly on the stored invoices whose status
   * marking them paid would change.
   */
  lemma MarkAsPaidOfferedIffItChanges(factures: Table<Facture>, id: string, now: Date)
    requires id in factures.rows
    ensures FactureRepository.UpdateResult(factures, id, FactureRepository.StatusOnly(PAID), now).Success?
    ensures ShowMarkAsPaid(factures.rows[id]) <==>
      FactureRepository.UpdateResult(factures, id, FactureRepository.StatusOnly(PAID), now).value.status
        != factures.rows[id].status
  {
  }
}
