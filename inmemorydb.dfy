/**
 * `InMemoryDB`: three id-keyed, insertion-ordered maps (users, clients,
 * invoices) and the id of the signed-in user. It is filled with a fixed
 * seed when built and again on `reset`. The repositories read and reassign
 * its fields directly; every repository shares the one database.
 */
module InMemory {
  import opened Wrappers
  import opened Time
  import opened Store
  import opened Documents
  import opened Factures
  import opened Clients
  import opened Users

  function UserKey(u: User): string { u.id }
  function ClientKey(c: Client): string { c.id }
  function FactureKey(f: Facture): string { f.id }

  /** The day-of-year dates of the seed, in whole days since 1 January. */
  function Day(year: nat, dayOfYear: nat): Date { Date(year, dayOfYear) }

  function SeedUser(): User
  {
    User("user-1", "test@factureo.com", "hashed_Test1234!", "Heritsilavina", "RAZAFIARISON",
      "+261 34 12 345 67", "Moocies", "Madagascar",
      Some("BNP Paribas"), Some("FR76 1234 5678 9012 3456 7890 123"), Some("BNPAFRPPXXX"),
      Day(2024, 0), Day(2024, 0))
  }

  /**
   * The five seed clients. The seed writes `prenom`/`nom`/`adress`; here the
   * client's `name` is `"prenom nom"` and its `address` is the `adress` text.
   */
  function SeedClients(): (cs: seq<Client>)
    ensures |cs| == 5
  {
    [ Client("client-1", "user-1", "Jean Dupont", "jean.dupont@entreprise.fr", "+33 6 12 34 56 78",
        "15 Rue de Paris, 75001 Paris", None, Day(2024, 14), Day(2024, 14)),
      Client("client-2", "user-1", "Marie Martin", "marie.martin@agence.fr", "+33 6 98 76 54 32",
        "42 Avenue de Lyon, 69000 Lyon", None, Day(2024, 19), Day(2024, 19)),
      Client("client-3", "user-1", "Pierre Bernard", "p.bernard@techcorp.com", "+33 7 45 67 89 01",
        "8 Boulevard des Champs, 33000 Bordeaux", None, Day(2024, 31), Day(2024, 31)),
      Client("client-4", "user-1", "Sophie Dubois", "sophie.dubois@solutions.fr", "+33 6 23 45 67 89",
        "33 Rue du Commerce, 44000 Nantes", None, Day(2024, 40), Day(2024, 40)),
      Client("client-5", "user-1", "Thomas Petit", "thomas.petit@startup.io", "+33 7 89 01 23 45",
        "127 Avenue de la République, 13000 Marseille", None, Day(2024, 45), Day(2024, 45)) ]
  }

  function SeedFactures(): (fs: seq<Facture>)
    ensures |fs| == 2
  {
    [ Facture("facture-1", "user-1", "client-1", "FAC-2024-001", Day(2024, 31), Day(2024, 60), PAID,
        Some("PAID"), Some(Day(2024, 55)), Some(0.0),
        [Line("line-1", "Développement site web", 1.0, 5000.0, 5000.0, 20.0, 1000.0, 6000.0)],
        5000.0, 1000.0, 6000.0, Day(2024, 31), Day(2024, 55)),
      Facture("facture-2", "user-1", "client-2", "FAC-2024-002", Day(2024, 40), Day(2024, 69), SENT,
        Some("PENDING"), None, Some(0.0),
        [Line("line-2", "Consultation SEO", 5.0, 150.0, 750.0, 20.0, 150.0, 900.0)],
        750.0, 150.0, 900.0, Day(2024, 40), Day(2024, 40)) ]
  }

  /** Two stored users never share an email. */
  predicate UniqueEmails(users: Table<User>)
  {
    forall a, b :: a in users.rows && b in users.rows && users.rows[a].email == users.rows[b].email ==> a == b
  }

  /** Every seeded client belongs to user-1. */
  lemma SeedClientsOwned()
    ensures forall i :: 0 <= i < |SeedClients()| ==> SeedClients()[i].userId == "user-1"
  {
  }

  /** facture-1 is paid and billed to client-1; facture-2 is sent and billed to client-2. */
  lemma SeedFacturesShape()
    ensures SeedFactures()[0].id == "facture-1" && SeedFactures()[0].status == PAID
    ensures SeedFactures()[0].clientId == "client-1"
    ensures SeedFactures()[1].id == "facture-2" && SeedFactures()[1].status == SENT
    ensures SeedFactures()[1].clientId == "client-2"
  {
  }

  /** One-line invoices: the totals are that line's amounts. */
  lemma SingleLineTotals(f: Facture)
    requires |f.lines| == 1
    requires f.montantHT == f.lines[0].montantHT && f.montantTVA == f.lines[0].montantTVA
    requires f.montantTTC == f.lines[0].montantTTC
    ensures TotalsConsistent(f)
  {
    assert f.lines == [f.lines[0]];
    SumSingle(f.lines[0], HT);
    SumSingle(f.lines[0], TVA);
    SumSingle(f.lines[0], TTC);
  }

  /** Each seeded invoice's totals are its line sums, and each seeded line has TTC = HT + TVA. */
  lemma SeedFacturesConsistent()
    ensures forall i :: 0 <= i < |SeedFactures()| ==> TotalsConsistent(SeedFactures()[i])
    ensures forall i, j :: 0 <= i < |SeedFactures()| && 0 <= j < |SeedFactures()[i].lines| ==>
      SeedFactures()[i].lines[j].montantTTC == SeedFactures()[i].lines[j].montantHT + SeedFactures()[i].lines[j].montantTVA
  {
    SingleLineTotals(SeedFactures()[0]);
    SingleLineTotals(SeedFactures()[1]);
  }

  /** The users map once seeded. */
  function SeedUserTable(): Table<User>
  {
    Table(["user-1"], map["user-1" := SeedUser()])
  }

  /** The clients map once seeded, in seeding order. */
  function SeedClientTable(): Table<Client>
  {
    var cs := SeedClients();
    Table(["client-1", "client-2", "client-3", "client-4", "client-5"],
      map["client-1" := cs[0], "client-2" := cs[1], "client-3" := cs[2], "client-4" := cs[3], "client-5" := cs[4]])
  }

  /** The invoices map once seeded, in seeding order. */
  function SeedFactureTable(): Table<Facture>
  {
    var fs := SeedFactures();
    Table(["facture-1", "facture-2"], map["facture-1" := fs[0], "facture-2" := fs[1]])
  }

  lemma SeedUsersValid()
    ensures Store.Valid(SeedUserTable()) && KeyedById(SeedUserTable(), UserKey) && UniqueEmails(SeedUserTable())
    ensures Values(SeedUserTable()) == [SeedUser()]
  {
  }

  lemma SeedClientsValid()
    ensures Store.Valid(SeedClientTable()) && KeyedById(SeedClientTable(), ClientKey)
  {
  }

  lemma SeedClientsValues()
    ensures Values(SeedClientTable()) == SeedClients()
  {
  }

  lemma SeedFacturesValid()
    ensures Store.Valid(SeedFactureTable()) && KeyedById(SeedFactureTable(), FactureKey)
    ensures forall k :: k in SeedFactureTable().rows ==> TotalsConsistent(SeedFactureTable().rows[k])
    ensures Values(SeedFactureTable()) == SeedFactures()
  {
    SeedFacturesConsistent();
  }

  /** The `set` calls of `seedData` on the empty users map. */
  function SeedUsersInto(t: Table<User>): (r: Table<User>)
    requires Store.Valid(t) && t.keys == []
    ensures r == SeedUserTable()
  {
    Put(t, "user-1", SeedUser())
  }

  /** The `set` calls of `seedData` on the empty clients map, client-1 first. */
  function SeedClientsInto(t: Table<Client>): (r: Table<Client>)
    requires Store.Valid(t) && t.keys == []
    ensures r == SeedClientTable()
  {
    var cs := SeedClients();
    SeedClientIdsDiffer();
    PutFive(t, "client-1", "client-2", "client-3", "client-4", "client-5", cs[0], cs[1], cs[2], cs[3], cs[4])
  }

  /** The five client ids are pairwise different. */
  lemma SeedClientIdsDiffer()
    ensures "client-1" != "client-2" && "client-1" != "client-3" && "client-1" != "client-4" && "client-1" != "client-5"
    ensures "client-2" != "client-3" && "client-2" != "client-4" && "client-2" != "client-5"
    ensures "client-3" != "client-4" && "client-3" != "client-5" && "client-4" != "client-5"
  {
    assert "client-1"[7] == '1' && "client-2"[7] == '2' && "client-3"[7] == '3';
    assert "client-4"[7] == '4' && "client-5"[7] == '5';
  }

  /** Five `set`s of different keys into an empty map. */
  function PutFive<V>(t: Table<V>, k1: string, k2: string, k3: string, k4: string, k5: string,
                      v1: V, v2: V, v3: V, v4: V, v5: V): (r: Table<V>)
    requires Store.Valid(t) && t.keys == []
    requires k1 != k2 && k1 != k3 && k1 != k4 && k1 != k5 && k2 != k3 && k2 != k4 && k2 != k5
    requires k3 != k4 && k3 != k5 && k4 != k5
    ensures r == Table([k1, k2, k3, k4, k5], map[k1 := v1, k2 := v2, k3 := v3, k4 := v4, k5 := v5])
  {
    PutNext(PutFour(t, k1, k2, k3, k4, v1, v2, v3, v4), k5, v5)
  }

  /** Four `set`s of different keys into an empty map. */
  function PutFour<V>(t: Table<V>, k1: string, k2: string, k3: string, k4: string,
                      v1: V, v2: V, v3: V, v4: V): (r: Table<V>)
    requires Store.Valid(t) && t.keys == []
    requires k1 != k2 && k1 != k3 && k1 != k4 && k2 != k3 && k2 != k4 && k3 != k4
    ensures r == Table([k1, k2, k3, k4], map[k1 := v1, k2 := v2, k3 := v3, k4 := v4])
  {
    PutNext(PutThree(t, k1, k2, k3, v1, v2, v3), k4, v4)
  }

  /** Three `set`s of different keys into an empty map. */
  function PutThree<V>(t: Table<V>, k1: string, k2: string, k3: string, v1: V, v2: V, v3: V): (r: Table<V>)
    requires Store.Valid(t) && t.keys == []
    requires k1 != k2 && k1 != k3 && k2 != k3
    ensures r == Table([k1, k2, k3], map[k1 := v1, k2 := v2, k3 := v3])
  {
    PutNext(PutTwo(t, k1, k2, v1, v2), k3, v3)
  }

  /** Two `set`s of different keys into an empty map. */
  function PutTwo<V>(t: Table<V>, k1: string, k2: string, v1: V, v2: V): (r: Table<V>)
    requires Store.Valid(t) && t.keys == [] && k1 != k2
    ensures r == Table([k1, k2], map[k1 := v1, k2 := v2])
  {
    Put(Put(t, k1, v1), k2, v2)
  }

  /** A `set` of a key not yet present appends it. */
  function PutNext<V>(t: Table<V>, k: string, v: V): (r: Table<V>)
    requires Store.Valid(t) && k !in t.rows
    ensures r == Table(t.keys + [k], t.rows[k := v])
  {
    Put(t, k, v)
  }

  /** The `set` calls of `seedData` on the empty invoices map. */
  function SeedFacturesInto(t: Table<Facture>): (r: Table<Facture>)
    requires Store.Valid(t) && t.keys == []
    ensures r == SeedFactureTable()
  {
    var fs := SeedFactures();
    Put(Put(t, "facture-1", fs[0]), "facture-2", fs[1])
  }

  /** The three maps are well formed and keyed by id, invoices carry their line sums, emails are unique. */
  ghost predicate Consistent(users: Table<User>, clients: Table<Client>, factures: Table<Facture>)
  {
    && Store.Valid(users) && Store.Valid(clients) && Store.Valid(factures)
    && KeyedById(users, UserKey) && KeyedById(clients, ClientKey) && KeyedById(factures, FactureKey)
    && AllRows(factures, TotalsConsistent)
    && UniqueEmails(users)
  }

  /** Storing an invoice under its own id, with its line sums, keeps the database consistent. */
  lemma PutFactureConsistent(users: Table<User>, clients: Table<Client>, factures: Table<Facture>, f: Facture)
    requires Consistent(users, clients, factures) && TotalsConsistent(f)
    ensures Consistent(users, clients, Put(factures, f.id, f))
  {
    PutKeyedById(factures, f.id, f, FactureKey);
    PutAllRows(factures, f.id, f, TotalsConsistent);
  }

  /** Removing an invoice keeps the database consistent. */
  lemma DeleteFactureConsistent(users: Table<User>, clients: Table<Client>, factures: Table<Facture>, id: string)
    requires Consistent(users, clients, factures)
    ensures Consistent(users, clients, Store.Delete(factures, id))
  {
    DeleteKeyedById(factures, id, FactureKey);
    DeleteAllRows(factures, id, TotalsConsistent);
  }

  /** Storing a client under its own id keeps the database consistent. */
  lemma PutClientConsistent(users: Table<User>, clients: Table<Client>, factures: Table<Facture>, c: Client)
    requires Consistent(users, clients, factures)
    ensures Consistent(users, Put(clients, c.id, c), factures)
  {
    PutKeyedById(clients, c.id, c, ClientKey);
  }

  /** Removing a client keeps the database consistent. */
  lemma DeleteClientConsistent(users: Table<User>, clients: Table<Client>, factures: Table<Facture>, id: string)
    requires Consistent(users, clients, factures)
    ensures Consistent(users, Store.Delete(clients, id), factures)
  {
    DeleteKeyedById(clients, id, ClientKey);
  }

  /**
   * Adding a user under a new id whose email no stored user has keeps the
   * database consistent, emails included.
   */
  lemma PutNewUserConsistent(users: Table<User>, clients: Table<Client>, factures: Table<Facture>, u: User)
    requires Consistent(users, clients, factures)
    requires u.id !in users.rows
    requires forall k :: k in users.rows ==> users.rows[k].email != u.email
    ensures Consistent(Put(users, u.id, u), clients, factures)
  {
    var r := Put(users, u.id, u);
    PutKeyedById(users, u.id, u, UserKey);
    forall a, b | a in r.rows && b in r.rows && r.rows[a].email == r.rows[b].email ensures a == b {
      assert Get(r, a) == (if a == u.id then Some(u) else Get(users, a));
      assert Get(r, b) == (if b == u.id then Some(u) else Get(users, b));
    }
  }

  /** The seed is a consistent database. */
  lemma SeedConsistent()
    ensures Consistent(SeedUserTable(), SeedClientTable(), SeedFactureTable())
  {
    SeedUsersValid();
    SeedClientsValid();
    SeedFacturesValid();
  }

  class InMemoryDB {
    var users: Table<User>
    var clients: Table<Client>
    var factures: Table<Facture>
    var currentUserId: Option<string>

    /**
     * What every operation keeps: the three maps are well formed and keyed
     * by id, stored invoices carry their line sums, and emails are unique.
     */
    ghost predicate Valid()
      reads this
    {
      Consistent(users, clients, factures)
    }

    /** The maps hold exactly the seed, in seeding order. */
    ghost predicate Seeded()
      reads this
    {
      users == SeedUserTable() && clients == SeedClientTable() && factures == SeedFactureTable()
    }

    constructor()
      ensures Valid() && Seeded() && currentUserId == None
    {
      users := Empty();
      clients := Empty();
      factures := Empty();
      currentUserId := None;
      new;
      SeedData();
    }

    /** `seedData`: `set`s the seed entities, one by one, into the empty maps. */
    method SeedData()
      requires users.keys == [] && clients.keys == [] && factures.keys == []
      requires Store.Valid(users) && Store.Valid(clients) && Store.Valid(factures)
      modifies this`users, this`clients, this`factures
      ensures Valid() && Seeded()
    {
      SeedUsers();
      SeedClientsData();
      SeedFacturesData();
      SeedConsistent();
    }

    /** The test user `set` into the empty users map. */
    method SeedUsers()
      requires users.keys == [] && Store.Valid(users)
      modifies this`users
      ensures users == SeedUserTable()
    {
      users := SeedUsersInto(users);
    }

    /** The five clients `set` one by one into the empty clients map. */
    method SeedClientsData()
      requires clients.keys == [] && Store.Valid(clients)
      modifies this`clients
      ensures clients == SeedClientTable()
    {
      clients := SeedClientsInto(clients);
    }

    /** The two invoices `set` one by one into the empty invoices map. */
    method SeedFacturesData()
      requires factures.keys == [] && Store.Valid(factures)
      modifies this`factures
      ensures factures == SeedFactureTable()
    {
      factures := SeedFacturesInto(factures);
    }

    /** `reset`: empties the maps, signs out, then reseeds. */
    method Reset()
      modifies this
      ensures Valid() && Seeded() && currentUserId == None
    {
      users := Empty();
      clients := Empty();
      factures := Empty();
      currentUserId := None;
      SeedData();
    }

    /** `setCurrentUser(userId)`. */
    method SetCurrentUser(userId: Option<string>)
      modifies this`currentUserId
      ensures currentUserId == userId
    {
      currentUserId := userId;
    }

    /** `getCurrentUserId()`: the last value `SetCurrentUser` stored. */
    function GetCurrentUserId(): (r: Option<string>)
      reads this
      ensures r == currentUserId
    {
      currentUserId
    }
  }
}
