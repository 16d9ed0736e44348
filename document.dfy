/**
 * `DocumentCommercial`, the parent of invoices: a list of lines and three
 * totals (HT, TVA, TTC) that `calculer_totaux` recomputes as the sums of the
 * corresponding line amounts. Adding and removing lines change the object in
 * place and recompute the totals.
 */
module Documents {
  import opened Wrappers
  import opened Time
  import opened Store

  /** `LigneDocumentCommercial`. */
  datatype Line = Line(
    id: string,
    description: string,
    quantite: real,
    unitaire: real,
    montantHT: real,
    tauxTVA: real,
    montantTVA: real,
    montantTTC: real)

  /** `lines.reduce((sum, line) => sum + amount(line), 0)`: a left fold from 0. */
  function Sum(lines: seq<Line>, amount: Line -> real): real
  {
    if lines == [] then 0.0 else Sum(lines[..|lines| - 1], amount) + amount(lines[|lines| - 1])
  }

  function HT(l: Line): real { l.montantHT }
  function TVA(l: Line): real { l.montantTVA }
  function TTC(l: Line): real { l.montantTTC }

  function SumHT(lines: seq<Line>): real { Sum(lines, HT) }
  function SumTVA(lines: seq<Line>): real { Sum(lines, TVA) }
  function SumTTC(lines: seq<Line>): real { Sum(lines, TTC) }

  /** The sum of a concatenation is the sum of the parts. */
  lemma {:induction false} SumAppend(a: seq<Line>, b: seq<Line>, amount: Line -> real)
    ensures Sum(a + b, amount) == Sum(a, amount) + Sum(b, amount)
  {
    if b == [] {
      assert a + b == a;
    } else {
      assert (a + b)[..|a + b| - 1] == a + b[..|b| - 1];
      SumAppend(a, b[..|b| - 1], amount);
    }
  }

  /** Peeling the first line off a sum. */
  lemma SumCons(l: Line, rest: seq<Line>, amount: Line -> real)
    ensures Sum([l] + rest, amount) == amount(l) + Sum(rest, amount)
  {
    SumAppend([l], rest, amount);
    assert [l][..0] == [];
  }

  /** A single line's sum is that line's amount. */
  lemma SumSingle(l: Line, amount: Line -> real)
    ensures Sum([l], amount) == amount(l)
  {
    assert [l][..0] == [];
  }

  /** Whenever every line has TTC = HT + TVA, the totals satisfy TTC = HT + TVA as well. */
  lemma {:induction false} SumTTCSplits(lines: seq<Line>)
    requires forall i :: 0 <= i < |lines| ==> lines[i].montantTTC == lines[i].montantHT + lines[i].montantTVA
    ensures SumTTC(lines) == SumHT(lines) + SumTVA(lines)
  {
    if lines != [] {
      SumTTCSplits(lines[..|lines| - 1]);
    }
  }

  /** The predicate `l.id !== ligneId` that `supprimer_ligne` filters with. */
  function OtherThan(ligneId: string): (p: Line -> bool)
    ensures forall l :: p(l) <==> l.id != ligneId
  {
    (l: Line) => l.id != ligneId
  }

  /** The line with id `ligneId`, complement of `OtherThan`. */
  function HasId(ligneId: string): (p: Line -> bool)
    ensures forall l :: p(l) <==> l.id == ligneId
  {
    (l: Line) => l.id == ligneId
  }

  /** A filter splits a sum into what it keeps and what it drops. */
  lemma {:induction false} SumFilterSplit(lines: seq<Line>, ligneId: string, amount: Line -> real)
    ensures Sum(lines, amount) ==
      Sum(Filter(lines, OtherThan(ligneId)), amount) + Sum(Filter(lines, HasId(ligneId)), amount)
  {
    if lines != [] {
      assert lines == [lines[0]] + lines[1..];
      SumFilterSplit(lines[1..], ligneId, amount);
      SumCons(lines[0], lines[1..], amount);
      if lines[0].id == ligneId {
        SumCons(lines[0], Filter(lines[1..], HasId(ligneId)), amount);
        assert [] + Filter(lines[1..], OtherThan(ligneId)) == Filter(lines[1..], OtherThan(ligneId));
      } else {
        SumCons(lines[0], Filter(lines[1..], OtherThan(ligneId)), amount);
        assert [] + Filter(lines[1..], HasId(ligneId)) == Filter(lines[1..], HasId(ligneId));
      }
    }
  }

  /** Removing an id no line carries keeps the list as it was. */
  lemma {:induction false} FilterMissingId(lines: seq<Line>, ligneId: string)
    requires forall i :: 0 <= i < |lines| ==> lines[i].id != ligneId
    ensures Filter(lines, OtherThan(ligneId)) == lines
  {
    if lines != [] {
      FilterMissingId(lines[1..], ligneId);
      assert [lines[0]] + lines[1..] == lines;
    }
  }

  /** The `data` object the constructor reads; a missing `lines` is `None`. */
  datatype DocumentData = DocumentData(
    id: string,
    numeroDocument: string,
    dateEmmision: Date,
    statusDocument: string,
    montantHT: real,
    montantTVA: real,
    montantTTC: real,
    lines: Option<seq<Line>>,
    createdAt: Date,
    updatedAt: Date)

  class DocumentCommercial {
    var id: string
    var numeroDocument: string
    var dateEmmision: Date
    var statusDocument: string
    var montantHT: real
    var montantTVA: real
    var montantTTC: real
    var lines: seq<Line>
    var createdAt: Date
    var updatedAt: Date

    /** The three totals are the sums of the line amounts. */
    ghost predicate TotalsMatch()
      reads this
    {
      montantHT == SumHT(lines) && montantTVA == SumTVA(lines) && montantTTC == SumTTC(lines)
    }

    /** Copies `data`; absent lines become the empty list. The totals are stored as given. */
    constructor(data: DocumentData)
      ensures id == data.id && numeroDocument == data.numeroDocument
      ensures dateEmmision == data.dateEmmision && statusDocument == data.statusDocument
      ensures montantHT == data.montantHT && montantTVA == data.montantTVA && montantTTC == data.montantTTC
      ensures lines == (if data.lines.Some? then data.lines.value else [])
      ensures createdAt == data.createdAt && updatedAt == data.updatedAt
    {
      id := data.id;
      numeroDocument := data.numeroDocument;
      dateEmmision := data.dateEmmision;
      statusDocument := data.statusDocument;
      montantHT := data.montantHT;
      montantTVA := data.montantTVA;
      montantTTC := data.montantTTC;
      lines := if data.lines.Some? then data.lines.value else [];
      createdAt := data.createdAt;
      updatedAt := data.updatedAt;
    }

    /** `calculer_totaux`: only the three totals change, and they become the line sums. */
    method CalculerTotaux()
      modifies this`montantHT, this`montantTVA, this`montantTTC
      ensures TotalsMatch()
      ensures lines == [] ==> montantHT == 0.0 && montantTVA == 0.0 && montantTTC == 0.0
    {
      montantHT := SumHT(lines);
      montantTVA := SumTVA(lines);
      montantTTC := SumTTC(lines);
    }

    /** `ajouter_ligne`: appends, then each total grows by the new line's amount. */
    method AjouterLigne(ligne: Line)
      modifies this`lines, this`montantHT, this`montantTVA, this`montantTTC
      ensures lines == old(lines) + [ligne]
      ensures TotalsMatch()
      ensures montantHT == old(SumHT(lines)) + ligne.montantHT
      ensures montantTVA == old(SumTVA(lines)) + ligne.montantTVA
      ensures montantTTC == old(SumTTC(lines)) + ligne.montantTTC
    {
      lines := lines + [ligne];
      CalculerTotaux();
    }

    /**
     * `supprimer_ligne`: drops every line with that id, keeps the rest in
     * order, and each total falls by the amounts of the dropped lines.
     */
    method SupprimerLigne(ligneId: string)
      modifies this`lines, this`montantHT, this`montantTVA, this`montantTTC
      ensures lines == Filter(old(lines), OtherThan(ligneId))
      ensures forall i :: 0 <= i < |lines| ==> lines[i].id != ligneId
      ensures TotalsMatch()
      ensures montantHT == old(SumHT(lines)) - SumHT(Filter(old(lines), HasId(ligneId)))
      ensures montantTVA == old(SumTVA(lines)) - SumTVA(Filter(old(lines), HasId(ligneId)))
      ensures montantTTC == old(SumTTC(lines)) - SumTTC(Filter(old(lines), HasId(ligneId)))
    {
      SumFilterSplit(lines, ligneId, HT);
      SumFilterSplit(lines, ligneId, TVA);
      SumFilterSplit(lines, ligneId, TTC);
      lines := Filter(lines, OtherThan(ligneId));
      CalculerTotaux();
    }
  }
}
