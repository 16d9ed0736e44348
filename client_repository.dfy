/**
 * `ClientRepositoryMemory`: the client queries over the shared clients map,
 * and the writes. Creation validates and normalises the email. An update
 * re-validates the email only when it carries a non-empty one. A client
 * that some stored invoice refers to cannot be deleted.
 */
module ClientRepository {
  import opened Wrappers
  import opened Errors
  import opened Time
  import opened Text
  import opened Store
  import opened Factures
  import opened Clients
  import opened InMemory
  import Emails

  /** `Omit<Client, 'id' | 'createdAt' | 'updatedAt'>` as the use case passes it (`CreateClientDTO`). */
  datatype NewClient = NewClient(
    userId: string,
    name: string,
    email: string,
    phone: string,
    address: string,
    siret: Option<string>)

  /** The `Partial<Client>` that `update` receives, with the fields of `UpdateClientDTO`. */
  datatype ClientChanges = ClientChanges(
    name: Option<string>,
    email: Option<string>,
    phone: Option<string>,
    address: Option<string>,
    siret: Option<string>)

  function OwnedBy(userId: string): (p: Client -> bool)
    ensures forall c :: p(c) <==> c.userId == userId
  {
    (c: Client) => c.userId == userId
  }

  /** `findByUserId`: the stored clients of that user, in insertion order. */
  function FindByUserId(clients: Table<Client>, userId: string): (r: seq<Client>)
    requires Store.Valid(clients)
    ensures forall c :: c in r <==> c in Values(clients) && c.userId == userId
  {
    Filter(Values(clients), OwnedBy(userId))
  }

  /** `findById`: the entry under that id, or `null`. */
  function FindById(clients: Table<Client>, id: string): (r: Option<Client>)
    ensures r.Some? <==> id in clients.rows
    ensures r.Some? ==> r.value == clients.rows[id]
  {
    Get(clients, id)
  }

  /**
   * What `create` returns: the email's own error, or the new client with
   * the normalised email under `id`, stamped with the clock.
   */
  function CreateResult(data: NewClient, id: string, now: Date): (r: Result<Client, Error>)
    ensures r.Failure? <==> Emails.Create(data.email).Failure?
    ensures r.Failure? ==> r.error == Emails.Create(data.email).error
    ensures r.Success? ==> r.value.email == Lower(Trim(data.email)) && Emails.Valid(Emails.Email(r.value.email))
    ensures r.Success? ==> r.value.id == id && r.value.userId == data.userId && r.value.name == data.name
    ensures r.Success? ==> r.value.phone == data.phone && r.value.address == data.address && r.value.siret == data.siret
    ensures r.Success? ==> r.value.createdAt == now && r.value.updatedAt == now
  {
    match Emails.Create(data.email)
    case Failure(e) => Failure(e)
    case Success(email) =>
      Success(Client(id, data.userId, data.name, email.value, data.phone, data.address, data.siret, now, now))
  }

  /**
   * `if (updates.email)`: an absent or empty email goes through untouched;
   * any other one must be a valid email and is replaced by its normalised form.
   */
  function CheckedEmail(email: Option<string>): (r: Result<Option<string>, Error>)
    ensures email.None? || email == Some("") ==> r == Success(email)
    ensures email.Some? && email.value != "" ==>
      && (r.Success? <==> Emails.Create(email.value).Success?)
      && (r.Success? ==> r.value == Some(Lower(Trim(email.value))))
      && (r.Failure? ==> r.error == Emails.Create(email.value).error)
  {
    if email.None? || email.value == "" then Success(email)
    else match Emails.Create(email.value)
      case Failure(e) => Failure(e)
      case Success(v) => Success(Some(v.value))
  }

  /** The changes as a spread: nothing outside `UpdateClientDTO` is carried. */
  function AsPatch(c: ClientChanges, email: Option<string>): (p: ClientPatch)
    ensures p.id.None? && p.userId.None? && p.createdAt.None? && p.updatedAt.None?
    ensures p.name == c.name && p.email == email && p.phone == c.phone && p.address == c.address && p.siret == c.siret
  {
    ClientPatch(None, None, c.name, email, c.phone, c.address, c.siret, None, None)
  }

  /**
   * What `update` returns: "Client introuvable" for an unknown id, the
   * email's error for a bad non-empty email, otherwise the stored client with
   * the changes spread over it and `updatedAt` moved to now.
   */
  function UpdateResult(clients: Table<Client>, id: string, c: ClientChanges, now: Date): (r: Result<Client, Error>)
    ensures id !in clients.rows ==> r == Failure(ClientNotFound)
    ensures id in clients.rows ==> (r.Failure? <==> CheckedEmail(c.email).Failure?)
    ensures id in clients.rows && r.Failure? ==> r.error == CheckedEmail(c.email).error
    ensures r.Success? ==> r.value == Clients.Update(clients.rows[id], AsPatch(c, CheckedEmail(c.email).value), now)
  {
    if id !in clients.rows then Failure(ClientNotFound)
    else match CheckedEmail(c.email)
      case Failure(e) => Failure(e)
      case Success(email) => Success(Clients.Update(clients.rows[id], AsPatch(c, email), now))
  }

  /** An update keeps the client's id, owner and creation date, and an empty email is stored as is. */
  lemma UpdateKeepsIdentity(clients: Table<Client>, id: string, c: ClientChanges, now: Date)
    requires UpdateResult(clients, id, c, now).Success?
    ensures var r := UpdateResult(clients, id, c, now).value;
      && r.id == clients.rows[id].id && r.userId == clients.rows[id].userId
      && r.createdAt == clients.rows[id].createdAt && r.updatedAt == now
      && (c.email == Some("") ==> r.email == "")
      && (c.email.None? ==> r.email == clients.rows[id].email)
  {
  }

  /** `hasFactures(clientId)`: `Array.from(factures.values()).some(...)`. */
  predicate HasFactures(factures: Table<Facture>, clientId: string)
    requires Store.Valid(factures)
  {
    exists f :: f in Values(factures) && f.clientId == clientId
  }

  /** Some stored invoice, under whatever key, is billed to that client. */
  lemma HasFacturesIff(factures: Table<Facture>, clientId: string)
    requires Store.Valid(factures)
    ensures HasFactures(factures, clientId) <==> exists k :: k in factures.rows && factures.rows[k].clientId == clientId
  {
    if HasFactures(factures, clientId) {
      var f :| f in Values(factures) && f.clientId == clientId;
      InValues(factures, f);
    }
    if exists k :: k in factures.rows && factures.rows[k].clientId == clientId {
      var k :| k in factures.rows && factures.rows[k].clientId == clientId;
      InValues(factures, factures.rows[k]);
    }
  }

  /** What `delete` completes with: refused exactly when the client has invoices. */
  function DeleteResult(factures: Table<Facture>, id: string): (r: Outcome<Error>)
    requires Store.Valid(factures)
    ensures r.Fail? <==> HasFactures(factures, id)
    ensures r.Fail? ==> r.error == ClientHasFactures
  {
    if HasFactures(factures, id) then Fail(ClientHasFactures) else Pass
  }

  /** Deleting an unknown client with no invoices succeeds and leaves the clients as they were. */
  lemma DeleteUnknownIsSilent(clients: Table<Client>, factures: Table<Facture>, id: string)
    requires Store.Valid(clients) && Store.Valid(factures)
    requires id !in clients.rows && forall k :: k in factures.rows ==> factures.rows[k].clientId != id
    ensures DeleteResult(factures, id) == Pass
    ensures Store.Delete(clients, id) == clients
  {
    HasFacturesIff(factures, id);
    DeleteMissing(clients, id);
  }

  /** In the seeded database client-1 and client-2 both have an invoice, so neither can be deleted. */
  lemma SeedClientsWithInvoices()
    ensures Store.Valid(SeedFactureTable())
    ensures DeleteResult(SeedFactureTable(), "client-1") == Fail(ClientHasFactures)
    ensures DeleteResult(SeedFactureTable(), "client-2") == Fail(ClientHasFactures)
  {
    SeedFacturesValid();
    var fs := SeedFactures();
    assert fs[0] in Values(SeedFactureTable()) && fs[0].clientId == "client-1";
    assert fs[1] in Values(SeedFactureTable()) && fs[1].clientId == "client-2";
  }

  class ClientRepositoryMemory {
    const db: InMemoryDB

    constructor(db: InMemoryDB)
      ensures this.db == db
    {
      this.db := db;
    }

    /** `create(clientData)`, with the clock and the generated id passed in. */
    method Create(data: NewClient, id: string, now: Date) returns (r: Result<Client, Error>)
      requires db.Valid() && id !in db.clients.rows
      modifies db`clients
      ensures db.Valid()
      ensures r == CreateResult(data, id, now)
      ensures r.Failure? ==> db.clients == old(db.clients)
      ensures r.Success? ==> db.clients == Put(old(db.clients), id, r.value)
    {
      var email := Emails.Create(data.email);
      if email.Failure? {
        return Failure(email.error);
      }
      var c := Client(id, data.userId, data.name, email.value.value, data.phone, data.address, data.siret, now, now);
      assert CreateResult(data, id, now) == Success(c);
      PutClientConsistent(db.users, db.clients, db.factures, c);
      db.clients := Put(db.clients, id, c);
      r := Success(c);
    }

    /** `update(id, updates)`, with the clock passed in; on failure nothing changes. */
    method Update(id: string, c: ClientChanges, now: Date) returns (r: Result<Client, Error>)
      requires db.Valid()
      modifies db`clients
      ensures db.Valid()
      ensures r == UpdateResult(old(db.clients), id, c, now)
      ensures r.Failure? ==> db.clients == old(db.clients)
      ensures r.Success? ==> db.clients == Put(old(db.clients), id, r.value)
    {
      var found := Get(db.clients, id);
      if found.None? {
        return Failure(ClientNotFound);
      }
      var email := CheckedEmail(c.email);
      if email.Failure? {
        return Failure(email.error);
      }
      var updated := Clients.Update(found.value, AsPatch(c, email.value), now);
      assert updated.id == id;
      PutClientConsistent(db.users, db.clients, db.factures, updated);
      db.clients := Put(db.clients, id, updated);
      r := Success(updated);
    }

    /** `delete(id)`: refused when the client has invoices; an unknown id is deleted silently. */
    method Delete(id: string) returns (r: Outcome<Error>)
      requires db.Valid()
      modifies db`clients
      ensures db.Valid()
      ensures r == DeleteResult(db.factures, id)
      ensures r.Fail? ==> db.clients == old(db.clients)
      ensures r.Pass? ==> db.clients == Store.Delete(old(db.clients), id)
    {
      if HasFactures(db.factures, id) {
        return Fail(ClientHasFactures);
      }
      DeleteClientConsistent(db.users, db.clients, db.factures, id);
      db.clients := Store.Delete(db.clients, id);
      r := Pass;
    }
  }
}
