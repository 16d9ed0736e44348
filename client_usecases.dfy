/**
 * `ClientUseCases`: the client rules on top of the client repository. A new
 * client needs a name and a phone number that are not blank; an update may
 * leave the name out but may not blank it. The email rules and the refusal
 * to delete a client with invoices are the repository's.
 */
module ClientUseCases {
  import opened Wrappers
  import opened Errors
  import opened Time
  import opened Text
  import opened Store
  import opened Factures
  import opened Clients
  import opened InMemory
  import ClientRepository
  import Emails

  /** `getById(id)`: "Client introuvable" for an unknown id. */
  function Lookup(clients: Table<Client>, id: string): (r: Result<Client, Error>)
    ensures r.Failure? <==> id !in clients.rows
    ensures r.Failure? ==> r.error == ClientNotFound
    ensures r.Success? ==> r.value == clients.rows[id]
  {
    match ClientRepository.FindById(clients, id)
    case None => Failure(ClientNotFound)
    case Some(c) => Success(c)
  }

  /**
   * What `create` returns: a blank name, then a blank phone, are refused;
   * otherwise the repository's result, which validates the email.
   */
  function CreateChecked(data: ClientRepository.NewClient, id: string, now: Date): (r: Result<Client, Error>)
    ensures IsBlank(data.name) ==> r == Failure(ClientNameRequired)
    ensures !IsBlank(data.name) && IsBlank(data.phone) ==> r == Failure(ClientPhoneRequired)
    ensures !IsBlank(data.name) && !IsBlank(data.phone) ==> r == ClientRepository.CreateResult(data, id, now)
    ensures r.Success? <==> !IsBlank(data.name) && !IsBlank(data.phone) && Emails.Create(data.email).Success?
    ensures r.Success? ==> r.value.name == data.name && r.value.phone == data.phone && r.value.email == Lower(Trim(data.email))
  {
    if IsBlank(data.name) then Failure(ClientNameRequired)
    else if IsBlank(data.phone) then Failure(ClientPhoneRequired)
    else ClientRepository.CreateResult(data, id, now)
  }

  /** A name of spaces only is refused as blank, whatever the rest of the data. */
  lemma SpacesAreNoName(data: ClientRepository.NewClient, id: string, now: Date)
    requires forall i :: 0 <= i < |data.name| ==> IsSpace(data.name[i])
    ensures CreateChecked(data, id, now) == Failure(ClientNameRequired)
  {
    BlankIffAllSpace(data.name);
  }

  /**
   * What `update` returns: a present but blank name is refused before the
   * client is even looked up; otherwise the repository's result.
   */
  function UpdateChecked(clients: Table<Client>, id: string, c: ClientRepository.ClientChanges, now: Date)
    : (r: Result<Client, Error>)
    ensures c.name.Some? && IsBlank(c.name.value) ==> r == Failure(ClientNameEmpty)
    ensures !(c.name.Some? && IsBlank(c.name.value)) ==> r == ClientRepository.UpdateResult(clients, id, c, now)
  {
    if c.name.Some? && IsBlank(c.name.value) then Failure(ClientNameEmpty)
    else ClientRepository.UpdateResult(clients, id, c, now)
  }

  /** The name check comes first: an unknown id with a blank name reports the name. */
  lemma BlankNameBeforeLookup(clients: Table<Client>, id: string, c: ClientRepository.ClientChanges, now: Date)
    requires id !in clients.rows && c.name == Some("")
    ensures UpdateChecked(clients, id, c, now) == Failure(ClientNameEmpty)
    ensures ClientRepository.UpdateResult(clients, id, c, now) == Failure(ClientNotFound)
  {
    assert Trim("") == [];
  }

  /**
   * Clients created and updated through the use cases keep a name that is
   * not blank: an update either leaves the name or replaces it with a
   * non-blank one.
   */
  lemma NameNeverBlank(clients: Table<Client>, id: string, c: ClientRepository.ClientChanges, now: Date)
    requires id in clients.rows && !IsBlank(clients.rows[id].name)
    requires UpdateChecked(clients, id, c, now).Success?
    ensures !IsBlank(UpdateChecked(clients, id, c, now).value.name)
  {
  }

  /** The phone is only checked on creation: an update can still blank it. */
  lemma UpdateCanBlankThePhone(clients: Table<Client>, id: string, now: Date)
    requires id in clients.rows
    ensures var c := ClientRepository.ClientChanges(None, None, Some(" "), None, None);
      && UpdateChecked(clients, id, c, now).Success?
      && IsBlank(UpdateChecked(clients, id, c, now).value.phone)
  {
    BlankIffAllSpace(" ");
  }

  class ClientUseCases {
    const clientRepository: ClientRepository.ClientRepositoryMemory

    constructor(clientRepository: ClientRepository.ClientRepositoryMemory)
      ensures this.clientRepository == clientRepository
    {
      this.clientRepository := clientRepository;
    }

    /** `list(userId)`. */
    method List(userId: string) returns (r: seq<Client>)
      requires clientRepository.db.Valid()
      ensures forall c :: c in r <==> c in Values(clientRepository.db.clients) && c.userId == userId
    {
      r := ClientRepository.FindByUserId(clientRepository.db.clients, userId);
    }

    /** `getById(id)`. */
    method GetById(id: string) returns (r: Result<Client, Error>)
      ensures r == Lookup(clientRepository.db.clients, id)
    {
      var found := ClientRepository.FindById(clientRepository.db.clients, id);
      if found.None? {
        return Failure(ClientNotFound);
      }
      r := Success(found.value);
    }

    /** `create(data)`, with the clock and the generated id passed in. */
    method Create(data: ClientRepository.NewClient, id: string, now: Date) returns (r: Result<Client, Error>)
      requires clientRepository.db.Valid() && id !in clientRepository.db.clients.rows
      modifies clientRepository.db`clients
      ensures clientRepository.db.Valid()
      ensures r == CreateChecked(data, id, now)
      ensures r.Failure? ==> clientRepository.db.clients == old(clientRepository.db.clients)
      ensures r.Success? ==> clientRepository.db.clients == Put(old(clientRepository.db.clients), id, r.value)
    {
      if IsBlank(data.name) {
        return Failure(ClientNameRequired);
      }
      if IsBlank(data.phone) {
        return Failure(ClientPhoneRequired);
      }
      r := clientRepository.Create(data, id, now);
    }

    /** `update(id, data)`, with the clock passed in. */
    method Update(id: string, c: ClientRepository.ClientChanges, now: Date) returns (r: Result<Client, Error>)
      requires clientRepository.db.Valid()
      modifies clientRepository.db`clients
      ensures clientRepository.db.Valid()
      ensures r == UpdateChecked(old(clientRepository.db.clients), id, c, now)
      ensures r.Failure? ==> clientRepository.db.clients == old(clientRepository.db.clients)
      ensures r.Success? ==> clientRepository.db.clients == Put(old(clientRepository.db.clients), id, r.value)
    {
      if c.name.Some? && IsBlank(c.name.value) {
        return Failure(ClientNameEmpty);
      }
      r := clientRepository.Update(id, c, now);
    }

    /** `delete(id)`: the repository refuses a client that has invoices. */
    method Delete(id: string) returns (r: Outcome<Error>)
      requires clientRepository.db.Valid()
      modifies clientRepository.db`clients
      ensures clientRepository.db.Valid()
      ensures r == ClientRepository.DeleteResult(clientRepository.db.factures, id)
      ensures r.Fail? ==> clientRepository.db.clients == old(clientRepository.db.clients)
      ensures r.Pass? ==> clientRepository.db.clients == Store.Delete(old(clientRepository.db.clients), id)
    {
      r := clientRepository.Delete(id);
    }
  }
}
