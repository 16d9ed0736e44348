/**
 * The invoice form: the one line it builds from the typed quantity, unit
 * price and VAT rate, and the checks `handleSubmit` makes before it sends
 * the new invoice. What `parseFloat` and `new Date` make of the typed text
 * is an input: `None` stands for `NaN`.
 */
module FactureForm {
  import opened Wrappers
  import opened Errors
  import opened Time
  import opened Store
  import opened Documents
  import opened Factures
  import opened Clients
  import FactureUseCases

  /** `parseFloat(text) || 0`: `NaN` (and 0) become 0. */
  function OrZero(parsed: Option<real>): (x: real)
    ensures parsed.None? ==> x == 0.0
    ensures parsed.Some? ==> x == parsed.value
  {
    if parsed.Some? then parsed.value else 0.0
  }

  /** `calculateLine()`, with the line id (built from the clock) passed in. */
  function CalculateLine(id: string, description: string, qty: Option<real>, price: Option<real>, rate: Option<real>)
    : (l: Line)
    ensures l.id == id && l.description == description
    ensures l.quantite == OrZero(qty) && l.unitaire == OrZero(price) && l.tauxTVA == OrZero(rate)
    ensures l.montantHT == l.quantite * l.unitaire
    ensures l.montantTVA == l.montantHT * (l.tauxTVA / 100.0)
    ensures l.montantTTC == l.montantHT + l.montantTVA
  {
    var q, u, t := OrZero(qty), OrZero(price), OrZero(rate);
    var ht := q * u;
    var tva := ht * (t / 100.0);
    Line(id, description, q, u, ht, t, tva, ht + tva)
  }

  /**
   * The invoice made of the form's line has the line's amounts as totals,
   * and its total with tax is the amount before tax grown by the rate.
   */
  lemma FormLineTotals(id: string, description: string, qty: Option<real>, price: Option<real>, rate: Option<real>)
    ensures var l := CalculateLine(id, description, qty, price, rate);
      && SumHT([l]) == OrZero(qty) * OrZero(price)
      && SumTTC([l]) == SumHT([l]) + SumTVA([l])
      && SumTTC([l]) == OrZero(qty) * OrZero(price) * (1.0 + OrZero(rate) / 100.0)
  {
    var l := CalculateLine(id, description, qty, price, rate);
    SumSingle(l, HT);
    SumSingle(l, TVA);
    SumSingle(l, TTC);
  }

  /** The two-line fixture's first line comes out of the form as 2 x 500 at 20%: 1000, 200, 1200. */
  lemma FormLineExample()
    ensures CalculateLine("line-1", "Service 1", Some(2.0), Some(500.0), Some(20.0))
         == Line("line-1", "Service 1", 2.0, 500.0, 1000.0, 20.0, 200.0, 1200.0)
  {
  }

  /** What the form holds when "Créer" is pressed. */
  datatype FormState = FormState(
    selectedClientId: string,
    dateEcheance: string,
    description: string,
    quantite: string,
    unitaire: string,
    tva: string)

  /** The alerts `handleSubmit` can stop at. */
  datatype FormAlert = SelectClient | EnterDueDate | FillLine

  /** The outcome of pressing "Créer": an alert, or the data handed to the create mutation. */
  datatype Submission = Alerted(alert: FormAlert) | Sent(data: FactureUseCases.CreateFactureData)

  /**
   * `handleSubmit`: no client, then no due date, then an empty description
   * or unit price stop it, in that order; otherwise it sends one line with
   * the chosen client and the two dates.
   */
  function Submit(form: FormState, userId: string, lineId: string, emission: Date, echeance: Date,
                  qty: Option<real>, price: Option<real>, rate: Option<real>): (s: Submission)
    ensures form.selectedClientId == "" ==> s == Alerted(SelectClient)
    ensures form.selectedClientId != "" && form.dateEcheance == "" ==> s == Alerted(EnterDueDate)
    ensures form.selectedClientId != "" && form.dateEcheance != "" && (form.description == "" || form.unitaire == "") ==>
      s == Alerted(FillLine)
    ensures s.Sent? <==> form.selectedClientId != "" && form.dateEcheance != "" && form.description != "" && form.unitaire != ""
    ensures s.Sent? ==>
      && s.data.userId == userId && s.data.clientId == form.selectedClientId
      && s.data.dateEmission == emission && s.data.dateEcheance == echeance
      && |s.data.lines| == 1
      && s.data.lines[0] == CalculateLine(lineId, form.description, qty, price, rate)
  {
    if form.selectedClientId == "" then Alerted(SelectClient)
    else if form.dateEcheance == "" then Alerted(EnterDueDate)
    else if form.description == "" || form.unitaire == "" then Alerted(FillLine)
    else Sent(FactureUseCases.CreateFactureData(userId, form.selectedClientId, emission, echeance,
                                                [CalculateLine(lineId, form.description, qty, price, rate)]))
  }

  /**
   * The form only checks that the unit price was typed, not what it
   * parses to: a quantity that does not parse becomes 0, the form sends it,
   * and the use case refuses it with "La quantité doit être supérieure à 0".
   */
  lemma UnparsedQuantityRefused(form: FormState, userId: string, lineId: string, emission: Date, echeance: Date,
                                price: Option<real>, rate: Option<real>,
                                clients: Table<Client>, factures: Table<Facture>, id: string, now: Date)
    requires form.selectedClientId != "" && form.dateEcheance != "" && form.description != "" && form.unitaire != ""
    requires Store.Valid(factures) && form.selectedClientId in clients.rows && Before(emission, echeance)
    ensures Submit(form, userId, lineId, emission, echeance, None, price, rate).Sent?
    ensures FactureUseCases.CreateChecked(clients, factures,
      Submit(form, userId, lineId, emission, echeance, None, price, rate).data, id, now) == Failure(BadQuantity)
  {
    var l := CalculateLine(lineId, form.description, None, price, rate);
    assert FactureUseCases.LineError(l) == Some(BadQuantity);
  }
}
