/**
 * The client a user invoices. `update` builds a new client from
 * `{ ...this, ...updates, updatedAt: now }`: every field the update carries
 * wins, including `id`, `userId` and `createdAt`, and `updatedAt` is always
 * the clock's.
 */
module Clients {
  import opened Wrappers
  import opened Time

  datatype Client = Client(
    id: string,
    userId: string,
    name: string,
    email: string,
    phone: string,
    address: string,
    siret: Option<string>,
    createdAt: Date,
    updatedAt: Date)

  /** `Partial<Client>`: a field is `Some` exactly when the update carries it. */
  datatype ClientPatch = ClientPatch(
    id: Option<string>,
    userId: Option<string>,
    name: Option<string>,
    email: Option<string>,
    phone: Option<string>,
    address: Option<string>,
    siret: Option<string>,
    createdAt: Option<Date>,
    updatedAt: Option<Date>)

  const NoChange: ClientPatch := ClientPatch(None, None, None, None, None, None, None, None, None)

  /** `ClientEntity.update(updates)`, with the clock passed in. */
  function Update(c: Client, u: ClientPatch, now: Date): (r: Client)
    ensures u.id.Some? ==> r.id == u.id.value
    ensures u.id.None? ==> r.id == c.id
    ensures u.userId.Some? ==> r.userId == u.userId.value
    ensures u.userId.None? ==> r.userId == c.userId
    ensures u.name.Some? ==> r.name == u.name.value
    ensures u.name.None? ==> r.name == c.name
    ensures u.email.Some? ==> r.email == u.email.value
    ensures u.email.None? ==> r.email == c.email
    ensures u.phone.Some? ==> r.phone == u.phone.value
    ensures u.phone.None? ==> r.phone == c.phone
    ensures u.address.Some? ==> r.address == u.address.value
    ensures u.address.None? ==> r.address == c.address
    ensures u.siret.Some? ==> r.siret == u.siret
    ensures u.siret.None? ==> r.siret == c.siret
    ensures u.createdAt.Some? ==> r.createdAt == u.createdAt.value
    ensures u.createdAt.None? ==> r.createdAt == c.createdAt
    ensures r.updatedAt == now
  {
    Client(
      Override(u.id, c.id),
      Override(u.userId, c.userId),
      Override(u.name, c.name),
      Override(u.email, c.email),
      Override(u.phone, c.phone),
      Override(u.address, c.address),
      Later(u.siret, c.siret),
      Override(u.createdAt, c.createdAt),
      now)
  }

  /** One update carrying what two successive updates carry, the second winning. */
  function Merge(first: ClientPatch, second: ClientPatch): ClientPatch
  {
    ClientPatch(
      Later(second.id, first.id),
      Later(second.userId, first.userId),
      Later(second.name, first.name),
      Later(second.email, first.email),
      Later(second.phone, first.phone),
      Later(second.address, first.address),
      Later(second.siret, first.siret),
      Later(second.createdAt, first.createdAt),
      Later(second.updatedAt, first.updatedAt))
  }

  /** An update that carries nothing only moves `updatedAt`. */
  lemma UpdateNothing(c: Client, now: Date)
    ensures Update(c, NoChange, now) == c.(updatedAt := now)
  {
  }

  /** Two successive updates are the single update that merges them, at the later time. */
  lemma UpdateTwice(c: Client, first: ClientPatch, second: ClientPatch, t1: Date, t2: Date)
    ensures Update(Update(c, first, t1), second, t2) == Update(c, Merge(first, second), t2)
  {
  }

  /** Repeating an update at the same time changes nothing more. */
  lemma UpdateIdempotent(c: Client, u: ClientPatch, now: Date)
    ensures Update(Update(c, u, now), u, now) == Update(c, u, now)
  {
    UpdateTwice(c, u, u, now, now);
  }
}
