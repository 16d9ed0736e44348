/**
 * `FactureRepositoryMemory`: the invoice queries over the shared invoices
 * map, and the writes that enforce the invoice rules. An invoice can only
 * be created for a stored client. Its totals are always recomputed from its
 * lines. It is numbered `FAC-<year>-<counter>`. A PAID invoice can neither be
 * changed (unless the change keeps it PAID) nor deleted.
 *
 * The queries are functions of the invoices map as it stands. The writes
 * are methods of a repository object over the one shared database; each is
 * specified by a function of the maps before the call.
 */
module FactureRepository {
  import opened Wrappers
  import opened Errors
  import opened Time
  import opened Text
  import opened Store
  import opened Documents
  import opened Factures
  import opened Clients
  import opened Users
  import opened InMemory

  /**
   * `Omit<Facture, 'id' | 'createdAt' | 'updatedAt'>`, what `create`
   * receives. The numero and the totals a caller passes are overwritten.
   */
  datatype NewFacture = NewFacture(
    userId: string,
    clientId: string,
    numero: Option<string>,
    dateEmission: Date,
    dateEcheance: Date,
    status: FactureStatus,
    statusPaiement: Option<string>,
    datePayee: Option<Date>,
    fraisRetard: Option<real>,
    lines: seq<Line>,
    montantHT: real,
    montantTVA: real,
    montantTTC: real)

  /** The `Partial<Facture>` that `update` receives, with the fields the use cases send. */
  datatype FactureChanges = FactureChanges(
    clientId: Option<string>,
    dateEmission: Option<Date>,
    dateEcheance: Option<Date>,
    lines: Option<seq<Line>>,
    status: Option<FactureStatus>)

  /** The `{ status }` that `updateStatus` passes to `update`. */
  function StatusOnly(status: FactureStatus): (c: FactureChanges)
    ensures c.status == Some(status)
    ensures c.clientId.None? && c.dateEmission.None? && c.dateEcheance.None? && c.lines.None?
  {
    FactureChanges(None, None, None, None, Some(status))
  }

  function OfUser(userId: string): (p: Facture -> bool)
    ensures forall f :: p(f) <==> f.userId == userId
  {
    (f: Facture) => f.userId == userId
  }

  function OfClient(clientId: string): (p: Facture -> bool)
    ensures forall f :: p(f) <==> f.clientId == clientId
  {
    (f: Facture) => f.clientId == clientId
  }

  function IssuedIn(year: nat): (p: Facture -> bool)
    ensures forall f :: p(f) <==> f.dateEmission.year == year
  {
    (f: Facture) => f.dateEmission.year == year
  }

  /** A filter keeps exactly the elements that satisfy its predicate. */
  lemma FilterMembers<T>(xs: seq<T>, p: T -> bool, x: T)
    ensures x in Filter(xs, p) <==> x in xs && p(x)
  {
    if x in xs && p(x) {
      var i :| 0 <= i < |xs| && xs[i] == x;
    }
  }

  /** `findByUserId`: the stored invoices of that user, in insertion order. */
  function FindByUserId(factures: Table<Facture>, userId: string): (r: seq<Facture>)
    requires Store.Valid(factures)
    ensures forall f :: f in r <==> f in Values(factures) && f.userId == userId
  {
    Filter(Values(factures), OfUser(userId))
  }

  /** `findByClientId`: the stored invoices billed to that client, in insertion order. */
  function FindByClientId(factures: Table<Facture>, clientId: string): (r: seq<Facture>)
    requires Store.Valid(factures)
    ensures forall f :: f in r <==> f in Values(factures) && f.clientId == clientId
  {
    Filter(Values(factures), OfClient(clientId))
  }

  /** A value is enumerated exactly when it is stored under some key. */
  lemma StoredIffListed(factures: Table<Facture>, f: Facture)
    requires Store.Valid(factures)
    ensures f in Values(factures) <==> exists k :: k in factures.rows && factures.rows[k] == f
  {
    InValues(factures, f);
  }

  /** `findById`: the entry under that id, or `null`. */
  function FindById(factures: Table<Facture>, id: string): (r: Option<Facture>)
    ensures r.Some? <==> id in factures.rows
    ensures r.Some? ==> r.value == factures.rows[id]
  {
    Get(factures, id)
  }

  /** `nextNumber.toString().padStart(3, '0')`: at least three digits that read back as `n`. */
  function Pad3(n: nat): (r: string)
    ensures |r| >= 3
    ensures AllDigits(r) && DecimalValue(r) == n
  {
    var s := NatToString(n);
    var r := PadStart(s, 3, '0');
    var z := r[..|r| - |s|];
    assert r == z + s;
    LeadingZeros(z, s);
    DecimalOfNatToString(n);
    r
  }

  /** `FAC-${year}-${paddedNumber}`: the prefix, the year's digits, a dash and at least three digits. */
  function Numero(year: nat, n: nat): (s: string)
    ensures |s| >= 9 && s[..4] == "FAC-"
  {
    "FAC-" + (NatToString(year) + "-" + Pad3(n))
  }

  /** Two digit strings followed by a dash split the same way. */
  lemma SplitAtDash(a1: string, b1: string, a2: string, b2: string)
    requires AllDigits(a1) && AllDigits(a2)
    requires a1 + "-" + b1 == a2 + "-" + b2
    ensures a1 == a2 && b1 == b2
  {
    var s1, s2 := a1 + "-" + b1, a2 + "-" + b2;
    var m := if |a1| < |a2| then |a1| else |a2|;
    assert s1[m] == s2[m];
    assert a1 == s1[..|a1|] && a2 == s2[..|a2|];
    assert b1 == s1[|a1| + 1..] && b2 == s2[|a2| + 1..];
  }

  /** After the prefix, a number reads as the year's digits, a dash and the padded counter. */
  lemma NumeroTail(year: nat, n: nat)
    ensures Numero(year, n)[4..] == NatToString(year) + "-" + Pad3(n)
  {
    var t := NatToString(year) + "-" + Pad3(n);
    assert ("FAC-" + t)[4..] == t;
  }

  /** The number determines the year and the counter: distinct counters never share a number. */
  lemma NumeroInjective(y1: nat, n1: nat, y2: nat, n2: nat)
    ensures Numero(y1, n1) == Numero(y2, n2) <==> y1 == y2 && n1 == n2
  {
    if Numero(y1, n1) == Numero(y2, n2) {
      NumeroTail(y1, n1);
      NumeroTail(y2, n2);
      var a1, a2 := NatToString(y1), NatToString(y2);
      var b1, b2 := Pad3(n1), Pad3(n2);
      SplitAtDash(a1, b1, a2, b2);
      DecimalOfNatToString(y1);
      DecimalOfNatToString(y2);
    }
  }

  /** How many of the user's invoices were issued in `year`. */
  function YearCount(factures: Table<Facture>, userId: string, year: nat): (n: nat)
    requires Store.Valid(factures)
    ensures n <= |FindByUserId(factures, userId)|
  {
    |Filter(FindByUserId(factures, userId), IssuedIn(year))|
  }

  /**
   * `generateNextNumero(userId)`, with the clock's year passed in: one more
   * than the count of the user's invoices issued that year.
   */
  function GenerateNextNumero(factures: Table<Facture>, userId: string, year: nat): (s: string)
    requires Store.Valid(factures)
    ensures exists n: nat :: 1 <= n <= |FindByUserId(factures, userId)| + 1 && s == Numero(year, n)
  {
    var n := YearCount(factures, userId, year) + 1;
    Numero(year, n)
  }

  /** The invoice `create` stores: the caller's data under `id`, with its number, line sums and clock. */
  function Built(data: NewFacture, id: string, numero: string, now: Date): (f: Facture)
    ensures f.id == id && f.numero == numero && f.userId == data.userId && f.clientId == data.clientId
    ensures f.dateEmission == data.dateEmission && f.dateEcheance == data.dateEcheance
    ensures f.status == data.status && f.statusPaiement == data.statusPaiement
    ensures f.datePayee == data.datePayee && f.fraisRetard == data.fraisRetard
    ensures f.lines == data.lines && TotalsConsistent(f)
    ensures f.createdAt == now && f.updatedAt == now
  {
    Facture(id, data.userId, data.clientId, numero, data.dateEmission, data.dateEcheance, data.status,
      data.statusPaiement, data.datePayee, data.fraisRetard, data.lines,
      SumHT(data.lines), SumTVA(data.lines), SumTTC(data.lines), now, now)
  }

  /**
   * What `create` returns: "Client introuvable" when the client is not
   * stored, otherwise the new invoice, numbered from the invoices before it.
   */
  function CreateResult(clients: Table<Client>, factures: Table<Facture>, data: NewFacture, id: string, now: Date)
    : (r: Result<Facture, Error>)
    requires Store.Valid(factures)
    ensures r.Failure? <==> data.clientId !in clients.rows
    ensures r.Failure? ==> r.error == ClientNotFound
    ensures r.Success? ==> r.value.id == id && r.value.clientId == data.clientId && r.value.userId == data.userId
    ensures r.Success? ==> r.value.numero == GenerateNextNumero(factures, data.userId, now.year)
    ensures r.Success? ==> r.value.lines == data.lines && TotalsConsistent(r.value)
    ensures r.Success? ==> r.value.createdAt == now && r.value.updatedAt == now
  {
    if data.clientId !in clients.rows then Failure(ClientNotFound)
    else Success(Built(data, id, GenerateNextNumero(factures, data.userId, now.year), now))
  }

  /** Whatever totals the caller passes, the stored ones are the line sums. */
  lemma CreateIgnoresCallerTotals(clients: Table<Client>, factures: Table<Facture>, data: NewFacture,
                                  id: string, now: Date, ht: real, tva: real, ttc: real)
    requires Store.Valid(factures)
    ensures CreateResult(clients, factures, data.(montantHT := ht, montantTVA := tva, montantTTC := ttc), id, now)
         == CreateResult(clients, factures, data, id, now)
  {
  }

  /** A filter of a single element keeps it exactly when it satisfies the predicate. */
  lemma FilterSingle<T>(x: T, p: T -> bool)
    ensures Filter([x], p) == if p(x) then [x] else []
  {
    assert [x][1..] == [];
  }

  /**
   * Storing a new invoice issued in `year` for the same user moves that
   * user's counter up by one, so the next invoice gets the next number.
   */
  lemma {:induction false} CountAfterPut(factures: Table<Facture>, f: Facture, year: nat)
    requires Store.Valid(factures) && f.id !in factures.rows
    ensures YearCount(Put(factures, f.id, f), f.userId, year)
         == YearCount(factures, f.userId, year) + (if f.dateEmission.year == year then 1 else 0)
  {
    var vs := Values(factures);
    ValuesPutNew(factures, f.id, f);
    FilterAppend(vs, [f], OfUser(f.userId));
    FilterSingle(f, OfUser(f.userId));
    var mine := Filter(vs, OfUser(f.userId));
    FilterAppend(mine, [f], IssuedIn(year));
    FilterSingle(f, IssuedIn(year));
  }

  /** Another user's invoice leaves the counter alone. */
  lemma {:induction false} CountAfterOtherPut(factures: Table<Facture>, f: Facture, userId: string, year: nat)
    requires Store.Valid(factures) && f.id !in factures.rows && f.userId != userId
    ensures YearCount(Put(factures, f.id, f), userId, year) == YearCount(factures, userId, year)
  {
    var vs := Values(factures);
    ValuesPutNew(factures, f.id, f);
    FilterAppend(vs, [f], OfUser(userId));
    FilterSingle(f, OfUser(userId));
    assert Filter(vs + [f], OfUser(userId)) == Filter(vs, OfUser(userId)) + [];
    assert Filter(vs, OfUser(userId)) + [] == Filter(vs, OfUser(userId));
  }

  /** A created invoice belongs to the caller's user, keeps the issue date, and is stored under the new id. */
  lemma CreatedIssuedIn(clients: Table<Client>, factures: Table<Facture>, data: NewFacture, id: string, now: Date)
    requires Store.Valid(factures) && CreateResult(clients, factures, data, id, now).Success?
    ensures var f := CreateResult(clients, factures, data, id, now).value;
      f.id == id && f.userId == data.userId && f.dateEmission == data.dateEmission
      && f.numero == Numero(now.year, YearCount(factures, data.userId, now.year) + 1)
  {
    assert CreateResult(clients, factures, data, id, now).value
        == Built(data, id, GenerateNextNumero(factures, data.userId, now.year), now);
  }

  /** Once an invoice issued in `year` is stored, its user's next number is two past the count before it. */
  lemma NextNumberAfterPut(factures: Table<Facture>, f: Facture, year: nat)
    requires Store.Valid(factures) && f.id !in factures.rows && f.dateEmission.year == year
    ensures YearCount(Put(factures, f.id, f), f.userId, year) == YearCount(factures, f.userId, year) + 1
    ensures GenerateNextNumero(Put(factures, f.id, f), f.userId, year)
         == Numero(year, YearCount(factures, f.userId, year) + 2)
  {
    CountAfterPut(factures, f, year);
  }

  /**
   * Two creations in a row for one user, in the year of their issue dates,
   * get consecutive counters and therefore different numbers.
   */
  lemma ConsecutiveNumbers(clients: Table<Client>, factures: Table<Facture>,
                           first: NewFacture, id1: string, second: NewFacture, now: Date)
    requires Store.Valid(factures) && id1 !in factures.rows
    requires first.userId == second.userId && first.dateEmission.year == now.year
    requires CreateResult(clients, factures, first, id1, now).Success?
    ensures var after := Put(factures, id1, CreateResult(clients, factures, first, id1, now).value);
      && YearCount(after, second.userId, now.year) == YearCount(factures, first.userId, now.year) + 1
      && GenerateNextNumero(after, second.userId, now.year) != GenerateNextNumero(factures, first.userId, now.year)
  {
    var f := CreateResult(clients, factures, first, id1, now).value;
    CreatedIssuedIn(clients, factures, first, id1, now);
    NextNumberAfterPut(factures, f, now.year);
    NumeroInjective(now.year, YearCount(factures, first.userId, now.year) + 2,
                    now.year, YearCount(factures, first.userId, now.year) + 1);
  }

  /**
   * `{ ...facture, ...updates, updatedAt: now }`, then, only when the update
   * carries lines (an empty list included), the totals recomputed from them.
   */
  function Apply(f: Facture, c: FactureChanges, now: Date): (r: Facture)
    ensures r.id == f.id && r.userId == f.userId && r.numero == f.numero
    ensures r.statusPaiement == f.statusPaiement && r.datePayee == f.datePayee
    ensures r.fraisRetard == f.fraisRetard && r.createdAt == f.createdAt
    ensures r.clientId == Override(c.clientId, f.clientId)
    ensures r.dateEmission == Override(c.dateEmission, f.dateEmission)
    ensures r.dateEcheance == Override(c.dateEcheance, f.dateEcheance)
    ensures r.status == Override(c.status, f.status)
    ensures r.lines == Override(c.lines, f.lines)
    ensures r.updatedAt == now
    ensures c.lines.Some? ==> TotalsConsistent(r)
    ensures c.lines.None? ==> r.montantHT == f.montantHT && r.montantTVA == f.montantTVA && r.montantTTC == f.montantTTC
    ensures TotalsConsistent(f) ==> TotalsConsistent(r)
  {
    var merged := f.(clientId := Override(c.clientId, f.clientId),
                     dateEmission := Override(c.dateEmission, f.dateEmission),
                     dateEcheance := Override(c.dateEcheance, f.dateEcheance),
                     lines := Override(c.lines, f.lines),
                     status := Override(c.status, f.status),
                     updatedAt := now);
    if c.lines.Some? then
      merged.(montantHT := SumHT(merged.lines), montantTVA := SumTVA(merged.lines), montantTTC := SumTTC(merged.lines))
    else merged
  }

  /**
   * What `update` returns: "Facture introuvable" for an unknown id, the
   * refusal for a PAID invoice unless the update sets the status to PAID,
   * otherwise the merged invoice.
   */
  function UpdateResult(factures: Table<Facture>, id: string, c: FactureChanges, now: Date): (r: Result<Facture, Error>)
    ensures id !in factures.rows ==> r == Failure(FactureNotFound)
    ensures id in factures.rows && factures.rows[id].status == PAID && c.status != Some(PAID) ==>
      r == Failure(RepositoryPaidUpdate)
    ensures r.Success? <==> id in factures.rows && (factures.rows[id].status != PAID || c.status == Some(PAID))
    ensures r.Success? ==> r.value == Apply(factures.rows[id], c, now)
  {
    if id !in factures.rows then Failure(FactureNotFound)
    else if factures.rows[id].status == PAID && c.status != Some(PAID) then Failure(RepositoryPaidUpdate)
    else Success(Apply(factures.rows[id], c, now))
  }

  /** `updateStatus(id, SENT)` on a paid invoice is refused, and `updateStatus(id, PAID)` never is. */
  lemma UpdateStatusOnPaid(factures: Table<Facture>, id: string, now: Date)
    requires id in factures.rows && factures.rows[id].status == PAID
    ensures UpdateResult(factures, id, StatusOnly(SENT), now) == Failure(RepositoryPaidUpdate)
    ensures UpdateResult(factures, id, StatusOnly(PAID), now).Success?
    ensures UpdateResult(factures, id, StatusOnly(PAID), now).value.status == PAID
  {
  }

  /** What `delete` completes with: unknown id, then PAID, are refused. */
  function DeleteResult(factures: Table<Facture>, id: string): (r: Outcome<Error>)
    ensures id !in factures.rows ==> r == Fail(FactureNotFound)
    ensures id in factures.rows && factures.rows[id].status == PAID ==> r == Fail(PaidDelete)
    ensures r.Pass? <==> id in factures.rows && factures.rows[id].status != PAID
  {
    if id !in factures.rows then Fail(FactureNotFound)
    else if factures.rows[id].status == PAID then Fail(PaidDelete)
    else Pass
  }

  /** A stored PAID invoice survives every update that would unpay it and every delete. */
  lemma PaidIsFinal(factures: Table<Facture>, id: string, c: FactureChanges, now: Date)
    requires id in factures.rows && factures.rows[id].status == PAID
    ensures UpdateResult(factures, id, c, now).Success? ==> UpdateResult(factures, id, c, now).value.status == PAID
    ensures DeleteResult(factures, id).Fail?
  {
  }

  class FactureRepositoryMemory {
    const db: InMemoryDB

    constructor(db: InMemoryDB)
      ensures this.db == db
    {
      this.db := db;
    }

    /**
     * `create(factureData)`, with the clock and the generated id passed in.
     * On failure nothing is stored; on success exactly the new entry is
     * appended.
     */
    method Create(data: NewFacture, id: string, now: Date) returns (r: Result<Facture, Error>)
      requires db.Valid() && id !in db.factures.rows
      modifies db`factures
      ensures db.Valid()
      ensures r == CreateResult(db.clients, old(db.factures), data, id, now)
      ensures r.Failure? ==> db.factures == old(db.factures)
      ensures r.Success? ==> db.factures == Put(old(db.factures), id, r.value)
    {
      if Get(db.clients, data.clientId).None? {
        return Failure(ClientNotFound);
      }
      var numero := GenerateNextNumero(db.factures, data.userId, now.year);
      var f := Built(data, id, numero, now);
      PutFactureConsistent(db.users, db.clients, db.factures, f);
      db.factures := Put(db.factures, id, f);
      r := Success(f);
    }

    /** `update(id, updates)`, with the clock passed in; on failure nothing changes. */
    method Update(id: string, c: FactureChanges, now: Date) returns (r: Result<Facture, Error>)
      requires db.Valid()
      modifies db`factures
      ensures db.Valid()
      ensures r == UpdateResult(old(db.factures), id, c, now)
      ensures r.Failure? ==> db.factures == old(db.factures)
      ensures r.Success? ==> db.factures == Put(old(db.factures), id, r.value)
    {
      var found := Get(db.factures, id);
      if found.None? {
        return Failure(FactureNotFound);
      }
      var f := found.value;
      if f.status == PAID && c.status != Some(PAID) {
        return Failure(RepositoryPaidUpdate);
      }
      var g := Apply(f, c, now);
      PutFactureConsistent(db.users, db.clients, db.factures, g);
      db.factures := Put(db.factures, id, g);
      r := Success(g);
    }

    /** `delete(id)`: on failure nothing changes; otherwise only that key goes. */
    method Delete(id: string) returns (r: Outcome<Error>)
      requires db.Valid()
      modifies db`factures
      ensures db.Valid()
      ensures r == DeleteResult(old(db.factures), id)
      ensures r.Fail? ==> db.factures == old(db.factures)
      ensures r.Pass? ==> db.factures == Store.Delete(old(db.factures), id)
    {
      var found := Get(db.factures, id);
      if found.None? {
        return Fail(FactureNotFound);
      }
      if found.value.status == PAID {
        return Fail(PaidDelete);
      }
      DeleteFactureConsistent(db.users, db.clients, db.factures, id);
      db.factures := Store.Delete(db.factures, id);
      r := Pass;
    }

    /** `updateStatus(id, status)`: an `update` carrying only the status. */
    method UpdateStatus(id: string, status: FactureStatus, now: Date) returns (r: Result<Facture, Error>)
      requires db.Valid()
      modifies db`factures
      ensures db.Valid()
      ensures r == UpdateResult(old(db.factures), id, StatusOnly(status), now)
      ensures r.Failure? ==> db.factures == old(db.factures)
      ensures r.Success? ==> db.factures == Put(old(db.factures), id, r.value)
    {
      r := Update(id, StatusOnly(status), now);
    }
  }
}
