/**
 * `FactureUseCases`: the invoice rules on top of the two repositories. A
 * new invoice needs a known client, a due date after its issue date, at
 * least one line, and lines with a positive quantity and a non-negative unit
 * price; it starts as a draft and the repository computes its number and
 * totals. A paid invoice can only be updated to stay paid.
 *
 * The line check in the source reads `line.quantity` and `line.unitPrice`,
 * which a `LigneDocumentCommercial` does not have (its fields are `quantite`
 * and `unitaire`). Both checks are modelled: `LineErrorAsWritten` as the
 * code reads, `LineError` as intended; the use case uses the latter.
 */
module FactureUseCases {
  import opened Wrappers
  import opened Errors
  import opened Time
  import opened Store
  import opened Text
  import opened Documents
  import opened Factures
  import opened Clients
  import opened InMemory
  import opened FactureRepository
  import ClientRepository

  /** `CreateFactureDTO`. */
  datatype CreateFactureData = CreateFactureData(
    userId: string,
    clientId: string,
    dateEmission: Date,
    dateEcheance: Date,
    lines: seq<Line>)

  /** The value of a property read on a line object: a number, or `undefined` when the line has no such property. */
  datatype JsValue = Undefined | Number(n: real)

  /** `line[name]` for the numeric properties of a `LigneDocumentCommercial`. */
  function Property(l: Line, name: string): (v: JsValue)
    ensures v.Number? <==> name in ["quantite", "unitaire", "montant_HT", "taux_TVA", "montant_TVA", "montant_TTC"]
  {
    match name
    case "quantite" => Number(l.quantite)
    case "unitaire" => Number(l.unitaire)
    case "montant_HT" => Number(l.montantHT)
    case "taux_TVA" => Number(l.tauxTVA)
    case "montant_TVA" => Number(l.montantTVA)
    case "montant_TTC" => Number(l.montantTTC)
    case _ => Undefined
  }

  /** `v <= x`: `undefined` converts to `NaN`, and every comparison with `NaN` is false. */
  function AtMost(v: JsValue, x: real): (b: bool)
    ensures b <==> v.Number? && v.n <= x
  {
    v.Number? && v.n <= x
  }

  /** `v < x`, false on `undefined` for the same reason. */
  function Below(v: JsValue, x: real): (b: bool)
    ensures b <==> v.Number? && v.n < x
  {
    v.Number? && v.n < x
  }

  /** One pass of the loop body, reading the quantity and the unit price under the given property names. */
  function LineCheck(l: Line, quantity: string, unitPrice: string): Option<Error>
  {
    if AtMost(Property(l, quantity), 0.0) then Some(BadQuantity)
    else if Below(Property(l, unitPrice), 0.0) then Some(NegativeUnitPrice)
    else None
  }

  /** The check as intended, on `quantite` and `unitaire`: the quantity is checked first. */
  function LineError(l: Line): (r: Option<Error>)
    ensures r == Some(BadQuantity) <==> l.quantite <= 0.0
    ensures r == Some(NegativeUnitPrice) <==> l.quantite > 0.0 && l.unitaire < 0.0
    ensures r.None? <==> l.quantite > 0.0 && l.unitaire >= 0.0
  {
    LineCheck(l, "quantite", "unitaire")
  }

  /** The check as written, on `quantity` and `unitPrice`: both read `undefined`, so it never fails. */
  function LineErrorAsWritten(l: Line): (r: Option<Error>)
    ensures r.None?
  {
    LineCheck(l, "quantity", "unitPrice")
  }

  /** The `for ... of` loop: the error of the first line that fails the check, if any. */
  function FirstError(lines: seq<Line>, check: Line -> Option<Error>): (r: Option<Error>)
    ensures r.None? <==> forall i :: 0 <= i < |lines| ==> check(lines[i]).None?
    ensures r.Some? ==> exists i :: (0 <= i < |lines| && check(lines[i]) == r &&
      forall j :: 0 <= j < i ==> check(lines[j]).None?)
  {
    if lines == [] then None
    else if check(lines[0]).Some? then check(lines[0])
    else
      var rest := FirstError(lines[1..], check);
      assert forall i :: 1 <= i < |lines| ==> lines[1..][i - 1] == lines[i];
      rest
  }

  /** The intended loop. */
  function FirstLineError(lines: seq<Line>): (r: Option<Error>)
    ensures r.None? <==> forall i :: 0 <= i < |lines| ==> lines[i].quantite > 0.0 && lines[i].unitaire >= 0.0
    ensures r.Some? ==> r.value == BadQuantity || r.value == NegativeUnitPrice
  {
    FirstError(lines, LineError)
  }

  /** As written, the loop lets every list of lines through. */
  lemma {:induction false} AsWrittenAcceptsAnyLines(lines: seq<Line>)
    ensures FirstError(lines, LineErrorAsWritten).None?
  {
    if lines != [] {
      AsWrittenAcceptsAnyLines(lines[1..]);
    }
  }

  /**
   * The line of the "quantité négative" case: as written it is accepted, while
   * the intended check refuses it with "La quantité doit être supérieure à 0".
   */
  lemma NegativeQuantityAccepted()
    ensures var l := Line("line-1", "Test", -1.0, 100.0, -100.0, 20.0, -20.0, -120.0);
      && FirstError([l], LineErrorAsWritten) == None
      && FirstLineError([l]) == Some(BadQuantity)
  {
    var l := Line("line-1", "Test", -1.0, 100.0, -100.0, 20.0, -20.0, -120.0);
    assert LineError(l) == Some(BadQuantity);
  }

  /** `{ ...data, status: DRAFT, montantHT: 0, montantTVA: 0, montantTTC: 0 }`. */
  function ToNew(data: CreateFactureData): (n: NewFacture)
    ensures n.userId == data.userId && n.clientId == data.clientId && n.lines == data.lines
    ensures n.dateEmission == data.dateEmission && n.dateEcheance == data.dateEcheance
    ensures n.status == DRAFT && n.numero.None?
    ensures n.statusPaiement.None? && n.datePayee.None? && n.fraisRetard.None?
    ensures n.montantHT == 0.0 && n.montantTVA == 0.0 && n.montantTTC == 0.0
  {
    NewFacture(data.userId, data.clientId, None, data.dateEmission, data.dateEcheance, DRAFT,
               None, None, None, data.lines, 0.0, 0.0, 0.0)
  }

  /** `getById(id)`: "Facture introuvable" for an unknown id. */
  function Lookup(factures: Table<Facture>, id: string): (r: Result<Facture, Error>)
    ensures r.Failure? <==> id !in factures.rows
    ensures r.Failure? ==> r.error == FactureNotFound
    ensures r.Success? ==> r.value == factures.rows[id]
  {
    match FindById(factures, id)
    case None => Failure(FactureNotFound)
    case Some(f) => Success(f)
  }

  /**
   * What `create` returns: the checks in their order (client, dates, lines,
   * each line), then the repository's new draft.
   */
  function CreateChecked(clients: Table<Client>, factures: Table<Facture>, data: CreateFactureData, id: string, now: Date)
    : (r: Result<Facture, Error>)
    requires Store.Valid(factures)
    ensures data.clientId !in clients.rows ==> r == Failure(ClientNotFound)
    ensures data.clientId in clients.rows && !Before(data.dateEmission, data.dateEcheance) ==>
      r == Failure(DueNotAfterIssue)
    ensures data.clientId in clients.rows && Before(data.dateEmission, data.dateEcheance) && data.lines == [] ==>
      r == Failure(NoLines)
    ensures (data.clientId in clients.rows && Before(data.dateEmission, data.dateEcheance) && data.lines != [] &&
      FirstLineError(data.lines).Some?) ==> r == Failure(FirstLineError(data.lines).value)
    ensures r.Success? <==>
      && data.clientId in clients.rows
      && Before(data.dateEmission, data.dateEcheance)
      && data.lines != []
      && forall i :: 0 <= i < |data.lines| ==> data.lines[i].quantite > 0.0 && data.lines[i].unitaire >= 0.0
    ensures r.Success? ==>
      && r.value.id == id && r.value.userId == data.userId && r.value.clientId == data.clientId
      && r.value.dateEmission == data.dateEmission && r.value.dateEcheance == data.dateEcheance
      && r.value.lines == data.lines && r.value.status == DRAFT
      && r.value.statusPaiement.None? && r.value.datePayee.None? && r.value.fraisRetard.None?
      && r.value.numero == GenerateNextNumero(factures, data.userId, now.year)
      && TotalsConsistent(r.value)
  {
    if data.clientId !in clients.rows then Failure(ClientNotFound)
    else if !Before(data.dateEmission, data.dateEcheance) then Failure(DueNotAfterIssue)
    else if data.lines == [] then Failure(NoLines)
    else if FirstLineError(data.lines).Some? then Failure(FirstLineError(data.lines).value)
    else FactureRepository.CreateResult(clients, factures, ToNew(data), id, now)
  }

  /**
   * The valid case of the use-case tests: one line of 2 x 500 at 20% gives an
   * invoice of 1000 before tax and 1200 with tax, numbered in the year of the clock.
   */
  lemma ValidInvoiceTotals(clients: Table<Client>, factures: Table<Facture>, id: string, now: Date)
    requires Store.Valid(factures) && "client-1" in clients.rows
    ensures var data := CreateFactureData("user-1", "client-1", Date(2024, 45), Date(2024, 74),
                                          [Line("line-1", "Service test", 2.0, 500.0, 1000.0, 20.0, 200.0, 1200.0)]);
      var r := CreateChecked(clients, factures, data, id, now);
      && r.Success? && r.value.montantHT == 1000.0 && r.value.montantTTC == 1200.0
      && r.value.status == DRAFT && (now.year == 2024 ==> r.value.numero[..8] == "FAC-2024")
  {
    var l := Line("line-1", "Service test", 2.0, 500.0, 1000.0, 20.0, 200.0, 1200.0);
    SumSingle(l, HT);
    SumSingle(l, TTC);
    if now.year == 2024 {
      var n: nat :| GenerateNextNumero(factures, "user-1", 2024) == Numero(2024, n);
      NumeroIn2024(n);
    }
  }

  /** Every number given in 2024 starts with "FAC-2024". */
  lemma NumeroIn2024(n: nat)
    ensures Numero(2024, n)[..8] == "FAC-2024"
  {
    assert NatToString(2) == "2";
    assert NatToString(20) == "20";
    assert NatToString(202) == "202";
    assert NatToString(2024) == "2024";
    NumeroTail(2024, n);
  }

  /**
   * What `update` returns: "Facture introuvable", then "Impossible de modifier
   * une facture payée" unless the change keeps it paid, then the repository's update.
   */
  function UpdateChecked(factures: Table<Facture>, id: string, c: FactureChanges, now: Date): (r: Result<Facture, Error>)
    ensures id !in factures.rows ==> r == Failure(FactureNotFound)
    ensures id in factures.rows && factures.rows[id].status == PAID && c.status != Some(PAID) ==>
      r == Failure(PaidUpdate)
    ensures r.Success? <==> id in factures.rows && (factures.rows[id].status != PAID || c.status == Some(PAID))
    ensures r.Success? ==> r.value == Apply(factures.rows[id], c, now)
  {
    match Lookup(factures, id)
    case Failure(e) => Failure(e)
    case Success(f) =>
      if f.status == PAID && c.status != Some(PAID) then Failure(PaidUpdate)
      else FactureRepository.UpdateResult(factures, id, c, now)
  }

  /**
   * The use case's guard is the repository's own, so the repository's
   * refusal is never what the caller sees: the two agree on every input
   * except that the use case reports its own message.
   */
  lemma UpdateGuardShadowsRepository(factures: Table<Facture>, id: string, c: FactureChanges, now: Date)
    ensures UpdateChecked(factures, id, c, now).Success? <==> FactureRepository.UpdateResult(factures, id, c, now).Success?
    ensures UpdateChecked(factures, id, c, now).Success? ==>
      UpdateChecked(factures, id, c, now) == FactureRepository.UpdateResult(factures, id, c, now)
    ensures FactureRepository.UpdateResult(factures, id, c, now) == Failure(RepositoryPaidUpdate) <==>
      UpdateChecked(factures, id, c, now) == Failure(PaidUpdate)
  {
  }

  /**
   * `markAsPaid`: any stored invoice, whatever its status, becomes paid with
   * its lines and totals kept; only an unknown id fails.
   */
  lemma MarkAsPaidResult(factures: Table<Facture>, id: string, now: Date)
    ensures var r := FactureRepository.UpdateResult(factures, id, StatusOnly(PAID), now);
      && (r.Success? <==> id in factures.rows)
      && (r.Failure? ==> r.error == FactureNotFound)
      && (r.Success? ==> r.value.status == PAID && r.value.lines == factures.rows[id].lines
                         && r.value.montantTTC == factures.rows[id].montantTTC && r.value.updatedAt == now)
  {
  }

  /** `markAsSent`: refused on a paid invoice with the repository's message; otherwise the invoice becomes sent. */
  lemma MarkAsSentResult(factures: Table<Facture>, id: string, now: Date)
    ensures var r := FactureRepository.UpdateResult(factures, id, StatusOnly(SENT), now);
      && (r.Success? <==> id in factures.rows && factures.rows[id].status != PAID)
      && (id in factures.rows && factures.rows[id].status == PAID ==> r == Failure(RepositoryPaidUpdate))
      && (r.Success? ==> r.value.status == SENT && r.value.lines == factures.rows[id].lines)
  {
  }

  class FactureUseCases {
    const factureRepository: FactureRepositoryMemory
    const clientRepository: ClientRepository.ClientRepositoryMemory

    /** Both repositories work on the one shared database. */
    predicate Wired()
    {
      factureRepository.db == clientRepository.db
    }

    constructor(factureRepository: FactureRepositoryMemory, clientRepository: ClientRepository.ClientRepositoryMemory)
      requires factureRepository.db == clientRepository.db
      ensures this.factureRepository == factureRepository && this.clientRepository == clientRepository
      ensures Wired()
    {
      this.factureRepository := factureRepository;
      this.clientRepository := clientRepository;
    }

    /** `list(userId)`. */
    method List(userId: string) returns (r: seq<Facture>)
      requires factureRepository.db.Valid()
      ensures forall f :: f in r <==> f in Values(factureRepository.db.factures) && f.userId == userId
    {
      r := FindByUserId(factureRepository.db.factures, userId);
    }

    /** `listByClient(clientId)`. */
    method ListByClient(clientId: string) returns (r: seq<Facture>)
      requires factureRepository.db.Valid()
      ensures forall f :: f in r <==> f in Values(factureRepository.db.factures) && f.clientId == clientId
    {
      r := FindByClientId(factureRepository.db.factures, clientId);
    }

    /** `getById(id)`. */
    method GetById(id: string) returns (r: Result<Facture, Error>)
      ensures r == Lookup(factureRepository.db.factures, id)
    {
      var found := FindById(factureRepository.db.factures, id);
      if found.None? {
        return Failure(FactureNotFound);
      }
      r := Success(found.value);
    }

    /** `create(data)`, with the clock and the generated id passed in. */
    method Create(data: CreateFactureData, id: string, now: Date) returns (r: Result<Facture, Error>)
      requires Wired() && factureRepository.db.Valid() && id !in factureRepository.db.factures.rows
      modifies factureRepository.db`factures
      ensures factureRepository.db.Valid()
      ensures r == CreateChecked(factureRepository.db.clients, old(factureRepository.db.factures), data, id, now)
      ensures r.Failure? ==> factureRepository.db.factures == old(factureRepository.db.factures)
      ensures r.Success? ==> factureRepository.db.factures == Put(old(factureRepository.db.factures), id, r.value)
    {
      var client := ClientRepository.FindById(clientRepository.db.clients, data.clientId);
      if client.None? {
        return Failure(ClientNotFound);
      }
      if !Before(data.dateEmission, data.dateEcheance) {
        return Failure(DueNotAfterIssue);
      }
      if |data.lines| == 0 {
        return Failure(NoLines);
      }
      var i := 0;
      while i < |data.lines|
        invariant 0 <= i <= |data.lines|
        invariant forall j :: 0 <= j < i ==> LineError(data.lines[j]).None?
      {
        var line := data.lines[i];
        if line.quantite <= 0.0 {
          assert LineError(data.lines[i]) == Some(BadQuantity);
          return Failure(BadQuantity);
        }
        if line.unitaire < 0.0 {
          assert LineError(data.lines[i]) == Some(NegativeUnitPrice);
          return Failure(NegativeUnitPrice);
        }
        i := i + 1;
      }
      r := factureRepository.Create(ToNew(data), id, now);
    }

    /** `update(id, data)`, with the clock passed in. */
    method Update(id: string, c: FactureChanges, now: Date) returns (r: Result<Facture, Error>)
      requires factureRepository.db.Valid()
      modifies factureRepository.db`factures
      ensures factureRepository.db.Valid()
      ensures r == UpdateChecked(old(factureRepository.db.factures), id, c, now)
      ensures r.Failure? ==> factureRepository.db.factures == old(factureRepository.db.factures)
      ensures r.Success? ==> factureRepository.db.factures == Put(old(factureRepository.db.factures), id, r.value)
    {
      var found := GetById(id);
      if found.Failure? {
        return found;
      }
      if found.value.status == PAID && c.status != Some(PAID) {
        return Failure(PaidUpdate);
      }
      r := factureRepository.Update(id, c, now);
    }

    /** `delete(id)`: the repository refuses unknown and paid invoices. */
    method Delete(id: string) returns (r: Outcome<Error>)
      requires factureRepository.db.Valid()
      modifies factureRepository.db`factures
      ensures factureRepository.db.Valid()
      ensures r == DeleteResult(old(factureRepository.db.factures), id)
      ensures r.Fail? ==> factureRepository.db.factures == old(factureRepository.db.factures)
      ensures r.Pass? ==> factureRepository.db.factures == Store.Delete(old(factureRepository.db.factures), id)
    {
      r := factureRepository.Delete(id);
    }

    /** `markAsPaid(id)`. */
    method MarkAsPaid(id: string, now: Date) returns (r: Result<Facture, Error>)
      requires factureRepository.db.Valid()
      modifies factureRepository.db`factures
      ensures factureRepository.db.Valid()
      ensures r == FactureRepository.UpdateResult(old(factureRepository.db.factures), id, StatusOnly(PAID), now)
      ensures r.Failure? ==> factureRepository.db.factures == old(factureRepository.db.factures)
      ensures r.Success? ==> factureRepository.db.factures == Put(old(factureRepository.db.factures), id, r.value)
    {
      r := factureRepository.UpdateStatus(id, PAID, now);
    }

    /** `markAsSent(id)`. */
    method MarkAsSent(id: string, now: Date) returns (r: Result<Facture, Error>)
      requires factureRepository.db.Valid()
      modifies factureRepository.db`factures
      ensures factureRepository.db.Valid()
      ensures r == FactureRepository.UpdateResult(old(factureRepository.db.factures), id, StatusOnly(SENT), now)
      ensures r.Failure? ==> factureRepository.db.factures == old(factureRepository.db.factures)
      ensures r.Success? ==> factureRepository.db.factures == Put(old(factureRepository.db.factures), id, r.value)
    {
      r := factureRepository.UpdateStatus(id, SENT, now);
    }
  }
}
