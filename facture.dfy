/**
 * The invoice: the `Facture` record the database stores, and `FactureEntity`,
 * the document view of it with the sum queries and the status changes that
 * return a fresh entity (`marquer_payee`, `marquer_annulee`) plus the overdue
 * predicate. The entity's document fields `numero_document`, `date_emmision`
 * and `status_document` are always copies of `numero`, `dateEmission` and
 * `status`, so the entity keeps only the latter.
 */
module Factures {
  import opened Wrappers
  import opened Errors
  import opened Time
  import opened Documents

  datatype FactureStatus = DRAFT | SENT | PAID | OVERDUE | CANCELLED

  /**
   * The stored record. `status_paiement`, `date_payee` and `frais_retard` are
   * absent (`None`) on invoices created through the use case, which never
   * supplies them.
   */
  datatype Facture = Facture(
    id: string,
    userId: string,
    clientId: string,
    numero: string,
    dateEmission: Date,
    dateEcheance: Date,
    status: FactureStatus,
    statusPaiement: Option<string>,
    datePayee: Option<Date>,
    fraisRetard: Option<real>,
    lines: seq<Line>,
    montantHT: real,
    montantTVA: real,
    montantTTC: real,
    createdAt: Date,
    updatedAt: Date)

  /** The stored totals are the line sums. */
  predicate TotalsConsistent(f: Facture)
  {
    f.montantHT == SumHT(f.lines) && f.montantTVA == SumTVA(f.lines) && f.montantTTC == SumTTC(f.lines)
  }

  /**
   * `FactureEntity`. Its totals are `None` when the data it was built from
   * had no `montantHT`/`montantTVA`/`montantTTC`, which is what the copies
   * made by `marquer_payee` and `marquer_annulee` receive.
   */
  datatype FactureEntity = FactureEntity(
    id: string,
    userId: string,
    clientId: string,
    numero: string,
    dateEmission: Date,
    dateEcheance: Date,
    status: FactureStatus,
    statusPaiement: Option<string>,
    datePayee: Option<Date>,
    fraisRetard: Option<real>,
    lines: seq<Line>,
    montantHT: Option<real>,
    montantTVA: Option<real>,
    montantTTC: Option<real>,
    createdAt: Date,
    updatedAt: Date)

  /** `new FactureEntity(f)` for a stored record: every field is carried over. */
  function FromFacture(f: Facture): (e: FactureEntity)
    ensures e.id == f.id && e.userId == f.userId && e.clientId == f.clientId && e.numero == f.numero
    ensures e.dateEmission == f.dateEmission && e.dateEcheance == f.dateEcheance && e.status == f.status
    ensures e.statusPaiement == f.statusPaiement && e.datePayee == f.datePayee && e.fraisRetard == f.fraisRetard
    ensures e.lines == f.lines
    ensures e.montantHT == Some(f.montantHT) && e.montantTVA == Some(f.montantTVA) && e.montantTTC == Some(f.montantTTC)
    ensures e.createdAt == f.createdAt && e.updatedAt == f.updatedAt
  {
    FactureEntity(f.id, f.userId, f.clientId, f.numero, f.dateEmission, f.dateEcheance, f.status,
      f.statusPaiement, f.datePayee, f.fraisRetard, f.lines,
      Some(f.montantHT), Some(f.montantTVA), Some(f.montantTTC), f.createdAt, f.updatedAt)
  }

  /** `calculateMontantHT`: the HT amounts of the lines, summed from 0. */
  function CalculateMontantHT(e: FactureEntity): (r: real)
    ensures e.lines == [] ==> r == 0.0
  {
    SumHT(e.lines)
  }

  /** `calculateMontantTVA`. */
  function CalculateMontantTVA(e: FactureEntity): (r: real)
    ensures e.lines == [] ==> r == 0.0
  {
    SumTVA(e.lines)
  }

  /** `calculateMontantTTC`. */
  function CalculateMontantTTC(e: FactureEntity): (r: real)
    ensures e.lines == [] ==> r == 0.0
  {
    SumTTC(e.lines)
  }

  /** Each total of an invoice is the total of its first lines plus the total of the rest. */
  lemma CalculateSplits(e: FactureEntity, a: seq<Line>, b: seq<Line>)
    requires e.lines == a + b
    ensures CalculateMontantHT(e) == SumHT(a) + SumHT(b)
    ensures CalculateMontantTVA(e) == SumTVA(a) + SumTVA(b)
    ensures CalculateMontantTTC(e) == SumTTC(a) + SumTTC(b)
  {
    SumAppend(a, b, HT);
    SumAppend(a, b, TVA);
    SumAppend(a, b, TTC);
  }

  /** When every line has TTC = HT + TVA, so does the invoice. */
  lemma CalculateTTCIsHTPlusTVA(e: FactureEntity)
    requires forall i :: 0 <= i < |e.lines| ==> e.lines[i].montantTTC == e.lines[i].montantHT + e.lines[i].montantTVA
    ensures CalculateMontantTTC(e) == CalculateMontantHT(e) + CalculateMontantTVA(e)
  {
    SumTTCSplits(e.lines);
  }

  /**
   * `marquer_payee(d)`: a new entity, from any status, marked PAID on `d` and
   * stamped with `now`. The copy keeps the lines, parties, number and dates;
   * its totals are absent.
   */
  function MarquerPayee(e: FactureEntity, datePaiement: Date, now: Date): (r: FactureEntity)
    ensures r.status == PAID && r.statusPaiement == Some("PAID") && r.datePayee == Some(datePaiement)
    ensures r.updatedAt == now
    ensures r.id == e.id && r.userId == e.userId && r.clientId == e.clientId && r.numero == e.numero
    ensures r.dateEmission == e.dateEmission && r.dateEcheance == e.dateEcheance
    ensures r.lines == e.lines && r.fraisRetard == e.fraisRetard && r.createdAt == e.createdAt
    ensures r.montantHT.None? && r.montantTVA.None? && r.montantTTC.None?
  {
    e.(status := PAID, statusPaiement := Some("PAID"), datePayee := Some(datePaiement), updatedAt := now,
       montantHT := None, montantTVA := None, montantTTC := None)
  }

  /** `est_retard()`, with the clock passed in: not paid and past the due date (strictly). */
  predicate EstRetard(e: FactureEntity, now: Date)
  {
    e.status != PAID && Before(e.dateEcheance, now)
  }

  /**
   * `marquer_annulee()`: refused exactly when the invoice is PAID; otherwise
   * (CANCELLED included) a new entity with status CANCELLED and nothing else
   * of substance changed.
   */
  function MarquerAnnulee(e: FactureEntity, now: Date): (r: Result<FactureEntity, Error>)
    ensures r.Failure? <==> e.status == PAID
    ensures r.Failure? ==> r.error == CannotCancelPaid
    ensures r.Success? ==>
      && r.value.status == CANCELLED && r.value.updatedAt == now
      && r.value.id == e.id && r.value.userId == e.userId && r.value.clientId == e.clientId
      && r.value.numero == e.numero && r.value.lines == e.lines
      && r.value.dateEmission == e.dateEmission && r.value.dateEcheance == e.dateEcheance
      && r.value.statusPaiement == e.statusPaiement && r.value.datePayee == e.datePayee
      && r.value.fraisRetard == e.fraisRetard && r.value.createdAt == e.createdAt
      && r.value.montantHT.None? && r.value.montantTVA.None? && r.value.montantTTC.None?
  {
    if e.status == PAID then Failure(CannotCancelPaid)
    else Success(e.(status := CANCELLED, updatedAt := now, montantHT := None, montantTVA := None, montantTTC := None))
  }

  /** A paid invoice is never overdue, whatever the clock says. */
  lemma PaidNeverOverdue(e: FactureEntity, d: Date, now: Date, later: Date)
    ensures !EstRetard(MarquerPayee(e, d, now), later)
  {
  }

  /** Once paid, an invoice can no longer be cancelled. */
  lemma PaidCannotBeCancelled(e: FactureEntity, d: Date, now: Date, later: Date)
    ensures MarquerAnnulee(MarquerPayee(e, d, now), later) == Failure(CannotCancelPaid)
  {
  }

  /** Cancelling twice succeeds twice: a cancelled invoice is not protected. */
  lemma CancelTwice(e: FactureEntity, now: Date, later: Date)
    requires e.status != PAID
    ensures MarquerAnnulee(MarquerAnnulee(e, now).value, later).Success?
    ensures MarquerAnnulee(MarquerAnnulee(e, now).value, later).value.status == CANCELLED
  {
  }

  /** A cancelled, unpaid invoice past its due date still counts as overdue. */
  lemma CancelledCanBeOverdue(e: FactureEntity, now: Date, later: Date)
    requires e.status != PAID && Before(e.dateEcheance, later)
    ensures EstRetard(MarquerAnnulee(e, now).value, later)
  {
  }

  /**
   * The two-line invoice of the entity's own unit tests: 1000 + 300 HT at 20%
   * VAT, issued on 2024-02-01 and due on 2024-03-01 (days 31 and 60 of 2024),
   * created at the clock `now`.
   */
  function TwoLineFixture(now: Date): (e: FactureEntity)
    ensures e.dateEmission == Date(2024, 31) && e.dateEcheance == Date(2024, 60)
    ensures Before(e.dateEmission, e.dateEcheance) && e.status == DRAFT && |e.lines| == 2
  {
    FactureEntity("facture-test", "user-1", "client-1", "FAC-2024-001", Date(2024, 31), Date(2024, 60), DRAFT,
      Some("PENDING"), None, Some(0.0),
      [ Line("line-1", "Service 1", 2.0, 500.0, 1000.0, 20.0, 200.0, 1200.0),
        Line("line-2", "Service 2", 1.0, 300.0, 300.0, 20.0, 60.0, 360.0) ],
      Some(1300.0), Some(260.0), Some(1560.0), now, now)
  }

  /** The computed totals of the test invoice are 1300, 260 and 1560, the totals it stores. */
  lemma FixtureTotals(now: Date)
    ensures CalculateMontantHT(TwoLineFixture(now)) == 1300.0
    ensures CalculateMontantTVA(TwoLineFixture(now)) == 260.0
    ensures CalculateMontantTTC(TwoLineFixture(now)) == 1560.0
    ensures var e := TwoLineFixture(now);
      e.montantHT == Some(CalculateMontantHT(e)) && e.montantTVA == Some(CalculateMontantTVA(e))
      && e.montantTTC == Some(CalculateMontantTTC(e))
  {
    var ls := TwoLineFixture(now).lines;
    SumAppend([ls[0]], [ls[1]], HT);
    SumAppend([ls[0]], [ls[1]], TVA);
    SumAppend([ls[0]], [ls[1]], TTC);
    assert ls == [ls[0]] + [ls[1]];
    assert [ls[0]][..0] == [] && [ls[1]][..0] == [];
  }

  /**
   * The status tests on the test invoice: paying it on 2024-02-20 marks it
   * PAID with that date; with a due date of 2020-01-01 it is overdue when
   * SENT and not when PAID; it can be cancelled unless it is PAID.
   */
  lemma FixtureStatusTests(now: Date, later: Date)
    requires Before(Date(2020, 0), later)
    ensures var p := MarquerPayee(TwoLineFixture(now), Date(2024, 50), later);
      p.status == PAID && p.statusPaiement == Some("PAID") && p.datePayee == Some(Date(2024, 50))
    ensures EstRetard(TwoLineFixture(now).(dateEcheance := Date(2020, 0), status := SENT), later)
    ensures !EstRetard(TwoLineFixture(now).(dateEcheance := Date(2020, 0), status := PAID), later)
    ensures MarquerAnnulee(TwoLineFixture(now), later).Success?
    ensures MarquerAnnulee(TwoLineFixture(now), later).value.status == CANCELLED
    ensures MarquerAnnulee(TwoLineFixture(now).(status := PAID), later) == Failure(CannotCancelPaid)
  {
  }
}
