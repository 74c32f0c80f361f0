/** The invoice screen: the creation form with its editable line list, the
    line amounts, sub-total, sales taxes and total it derives, the payload
    it posts, the status actions offered for each listed invoice, and the
    regime inferred when an invoice is downloaded again. */
module Factures {
  import opened Common
  import opened Types
  import Lists

  // ---------------------------------------------------------------------
  // Lines

  /** One line of the creation form, as typed: the unit count and the unit
      cost are the text of their inputs. */
  datatype NewLigne = NewLigne(description: string, unite: string, cout_unitaire: string, isHeader: bool)

  const BlankLigne := NewLigne("", "", "", false)

  /** `updateLigne(idx, field, value)` sets one field of one line. */
  datatype LigneEdit =
    | SetDescription(text: string)
    | SetUnite(text: string)
    | SetCoutUnitaire(text: string)
    | SetIsHeader(flag: bool)

  /** `{ ...l, [field]: value }` */
  function ApplyLigneEdit(l: NewLigne, e: LigneEdit): (r: NewLigne)
    ensures e.SetDescription? ==> r == l.(description := e.text)
    ensures e.SetUnite? ==> r == l.(unite := e.text)
    ensures e.SetCoutUnitaire? ==> r == l.(cout_unitaire := e.text)
    ensures e.SetIsHeader? ==> r == l.(isHeader := e.flag)
  {
    match e
    case SetDescription(t) => l.(description := t)
    case SetUnite(t) => l.(unite := t)
    case SetCoutUnitaire(t) => l.(cout_unitaire := t)
    case SetIsHeader(b) => l.(isHeader := b)
  }

  /** The stored form of a line. A header line carries neither unit count
      nor cost and is worth 0. Otherwise a blank, unreadable or zero unit
      count is stored as null and counts as one unit, and a blank,
      unreadable or zero cost is stored as null and counts as 0. */
  function ComputeLigne(l: NewLigne, parseFloat: string -> Num): (c: LigneFacture)
    ensures c.description == l.description && c.isHeader == Some(l.isHeader)
    ensures l.isHeader ==> c.unite == None && c.cout_unitaire == None && c.montant == 0.0
    ensures !l.isHeader ==> c.unite == parseFloat(l.unite).OrNull()
    ensures !l.isHeader ==> c.cout_unitaire == parseFloat(l.cout_unitaire).OrNull()
    ensures !l.isHeader ==> c.montant == c.unite.GetOr(1.0) * c.cout_unitaire.GetOr(0.0)
  {
    if l.isHeader then LigneFacture(l.description, None, None, 0.0, Some(true))
    else
      var u := parseFloat(l.unite);
      var k := parseFloat(l.cout_unitaire);
      LigneFacture(l.description, u.OrNull(), k.OrNull(), u.Or(1.0) * k.Or(0.0), Some(false))
  }

  /** `computedLignes()` */
  function ComputedLignes(ls: seq<NewLigne>, parseFloat: string -> Num): (r: seq<LigneFacture>)
    ensures |r| == |ls| && forall i :: 0 <= i < |ls| ==> r[i] == ComputeLigne(ls[i], parseFloat)
  {
    seq(|ls|, i requires 0 <= i < |ls| => ComputeLigne(ls[i], parseFloat))
  }

  /** `lignes.reduce((sum, l) => sum + l.montant, 0)` */
  function SousTotal(lines: seq<LigneFacture>): real {
    if lines == [] then 0.0 else SousTotal(lines[..|lines| - 1]) + lines[|lines| - 1].montant
  }

  lemma {:induction false} SousTotalAppend(a: seq<LigneFacture>, b: seq<LigneFacture>)
    ensures SousTotal(a + b) == SousTotal(a) + SousTotal(b)
    decreases |b|
  {
    if b != [] {
      var b' := b[..|b| - 1];
      assert (a + b)[..|a + b| - 1] == a + b';
      assert (a + b)[|a + b| - 1] == b[|b| - 1];
      SousTotalAppend(a, b');
    } else {
      assert a + b == a;
    }
  }

  /** The sub-total shown in the creation form. */
  function FormSousTotal(ls: seq<NewLigne>, parseFloat: string -> Num): real {
    SousTotal(ComputedLignes(ls, parseFloat))
  }

  lemma {:induction false} ComputedLignesAppend(a: seq<NewLigne>, b: seq<NewLigne>, parseFloat: string -> Num)
    ensures ComputedLignes(a + b, parseFloat) == ComputedLignes(a, parseFloat) + ComputedLignes(b, parseFloat)
  {
  }

  /** Deleting line i takes exactly that line's amount off the sub-total;
      deleting a header line leaves it unchanged. */
  lemma {:induction false} RemoveLigneSousTotal(ls: seq<NewLigne>, i: int, parseFloat: string -> Num)
    requires 0 <= i < |ls|
    ensures FormSousTotal(Lists.WithoutIndex(ls, i), parseFloat)
         == FormSousTotal(ls, parseFloat) - ComputeLigne(ls[i], parseFloat).montant
    ensures ls[i].isHeader ==> FormSousTotal(Lists.WithoutIndex(ls, i), parseFloat) == FormSousTotal(ls, parseFloat)
  {
    assert ls == ls[..i] + [ls[i]] + ls[i + 1..];
    ComputedLignesAppend(ls[..i] + [ls[i]], ls[i + 1..], parseFloat);
    ComputedLignesAppend(ls[..i], [ls[i]], parseFloat);
    ComputedLignesAppend(ls[..i], ls[i + 1..], parseFloat);
    var c1 := ComputedLignes(ls[..i], parseFloat);
    var c2 := ComputedLignes([ls[i]], parseFloat);
    var c3 := ComputedLignes(ls[i + 1..], parseFloat);
    SousTotalAppend(c1 + c2, c3);
    SousTotalAppend(c1, c2);
    SousTotalAppend(c1, c3);
    assert SousTotal(c2) == c2[0].montant by {
      assert c2[..0] == [];
    }
  }

  /** A freshly added line is blank, and a blank line is worth nothing, so
      adding one leaves the sub-total unchanged (`parseFloat("")` is NaN). */
  lemma {:induction false} AddLigneSousTotal(ls: seq<NewLigne>, parseFloat: string -> Num)
    requires parseFloat("") == NaN
    ensures FormSousTotal(ls + [BlankLigne], parseFloat) == FormSousTotal(ls, parseFloat)
  {
    ComputedLignesAppend(ls, [BlankLigne], parseFloat);
    var c := ComputedLignes([BlankLigne], parseFloat);
    SousTotalAppend(ComputedLignes(ls, parseFloat), c);
    assert c[..0] == [];
    assert c[0].montant == 0.0;
  }

  // ---------------------------------------------------------------------
  // Taxes and total

  /** TPS (GST), or TPS/TVH (HST) when the harmonized rate is chosen. */
  function TpsAmount(st: real, taxable: bool, useTvh: bool): (tps: real)
    ensures !taxable ==> tps == 0.0
    ensures taxable ==> NearestCent(st * (if useTvh then TvhRate else TpsRate), tps)
  {
    if taxable then (if useTvh then Round2(st * TvhRate) else Round2(st * TpsRate)) else 0.0
  }

  /** TVQ (QST): only under the GST + QST regime. */
  function TvqAmount(st: real, taxable: bool, useTvh: bool): (tvq: real)
    ensures !(taxable && !useTvh) ==> tvq == 0.0
    ensures taxable && !useTvh ==> NearestCent(st * TvqRate, tvq)
  {
    if taxable && !useTvh then Round2(st * TvqRate) else 0.0
  }

  /** The total is rounded from the already rounded taxes. */
  function TotalTtc(st: real, tps: real, tvq: real): (total: real)
    ensures NearestCent(st + tps + tvq, total)
  {
    Round2(st + tps + tvq)
  }

  datatype Totals = Totals(sousTotal: real, tps: real, tvq: real, total: real)

  function InvoiceTotals(st: real, taxable: bool, useTvh: bool): (t: Totals)
    ensures t.sousTotal == st
    ensures t.tps == TpsAmount(st, taxable, useTvh) && t.tvq == TvqAmount(st, taxable, useTvh)
    ensures t.total == TotalTtc(st, t.tps, t.tvq)
  {
    var tps := TpsAmount(st, taxable, useTvh);
    var tvq := TvqAmount(st, taxable, useTvh);
    Totals(st, tps, tvq, TotalTtc(st, tps, tvq))
  }

  /** The combined rate each regime applies. */
  function CombinedRate(taxable: bool, useTvh: bool): real {
    if !taxable then 0.0 else if useTvh then TvhRate else TpsRate + TvqRate
  }

  /** Rounding each tax, then the total, keeps the total within a cent and
      a half of the exact taxed amount (half a cent per rounding). */
  lemma {:induction false} TotalNearExact(st: real, taxable: bool, useTvh: bool)
    ensures var t := InvoiceTotals(st, taxable, useTvh);
            st * (1.0 + CombinedRate(taxable, useTvh)) - 3.0 * HalfCent < t.total
            <= st * (1.0 + CombinedRate(taxable, useTvh)) + 3.0 * HalfCent
  {
    var t := InvoiceTotals(st, taxable, useTvh);
    assert st * (1.0 + CombinedRate(taxable, useTvh))
        == st + (if taxable then st * (if useTvh then TvhRate else TpsRate) else 0.0)
              + (if taxable && !useTvh then st * TvqRate else 0.0);
  }

  /** When the sub-total is a whole number of cents, the total is exactly
      sub-total plus taxes: no cent is lost or gained by the final rounding. */
  lemma {:induction false} TotalExactOnCents(st: real, taxable: bool, useTvh: bool)
    requires IsCents(st)
    ensures var t := InvoiceTotals(st, taxable, useTvh);
            t.total == t.sousTotal + t.tps + t.tvq
  {
    var t := InvoiceTotals(st, taxable, useTvh);
    assert IsCents(0.0);
    CentsAdd(st, t.tps);
    CentsAdd(st + t.tps, t.tvq);
    Round2OfCents(st + t.tps + t.tvq);
  }

  // ---------------------------------------------------------------------
  // Creation

  /** The body posted by `handleCreate`. `lignes_facture` is sent
      serialized; the model keeps the lines themselves. */
  datatype InvoicePayload = InvoicePayload(
    date_transaction: string, description: string, categorie_id: int,
    projet_id: Option<int>, contact_id: Option<int>, compte_id: Option<int>,
    mode_paiement: string, montant_ht: real, tps: real, tvq: real, total_ttc: real,
    taxable: bool, statut_facture: string, numero_facture: string,
    lignes_facture: seq<LigneFacture>)

  /** `contacts.find((c) => c.id === id)?.nom` */
  function ClientNom(contacts: seq<Contact>, id: int): (r: Option<string>)
    ensures r.Some? <==> exists c :: c in contacts && c.id == id
    ensures r.Some? ==>
              exists k :: 0 <= k < |contacts| && contacts[k].id == id && contacts[k].nom == r.value
                          && forall j :: 0 <= j < k ==> contacts[j].id != id
  {
    if contacts == [] then None
    else if contacts[0].id == id then Some(contacts[0].nom)
    else
      var r := ClientNom(contacts[1..], id);
      if r.Some? then
        var k :| 0 <= k < |contacts[1..]| && contacts[1..][k].id == id && contacts[1..][k].nom == r.value
                 && forall j :: 0 <= j < k ==> contacts[1..][j].id != id;
        assert contacts[k + 1].id == id && contacts[k + 1].nom == r.value;
        r
      else
        r
  }

  /** The invoice form. Select values are ids, so an unselected select is
      None; the account select starts on account 1. */
  class InvoiceForm {
    var clientId: Option<int>
    var projetId: Option<int>
    var compteId: Option<int>
    var numero: string
    var date: string
    var taxable: bool
    var useTvh: bool
    var notes: string
    var lignes: seq<NewLigne>
    var saving: bool
    var showCreate: bool

    constructor (today: string)
      ensures clientId == None && projetId == None && compteId == Some(1)
      ensures numero == "" && date == today && taxable && !useTvh && notes == ""
      ensures lignes == [BlankLigne] && !saving && !showCreate
    {
      clientId, projetId, compteId := None, None, Some(1);
      numero, date, taxable, useTvh, notes := "", today, true, false, "";
      lignes := [BlankLigne];
      saving, showCreate := false, false;
    }

    /** `addLigne`: one blank line at the end. */
    method AddLigne()
      modifies this`lignes
      ensures lignes == old(lignes) + [BlankLigne]
    {
      lignes := lignes + [BlankLigne];
    }

    /** `removeLigne(idx)`: exactly line idx goes, the rest keep their order. */
    method RemoveLigne(idx: int)
      modifies this`lignes
      ensures 0 <= idx < |old(lignes)| ==> lignes == old(lignes)[..idx] + old(lignes)[idx + 1..]
      ensures !(0 <= idx < |old(lignes)|) ==> lignes == old(lignes)
    {
      lignes := Lists.WithoutIndex(lignes, idx);
    }

    /** `updateLigne(idx, field, value)`: only that field of line idx changes. */
    method UpdateLigne(idx: int, e: LigneEdit)
      modifies this`lignes
      ensures |lignes| == |old(lignes)|
      ensures forall k :: 0 <= k < |lignes| ==>
                lignes[k] == (if k == idx then ApplyLigneEdit(old(lignes)[k], e) else old(lignes)[k])
    {
      lignes := Lists.MapAtIndex(lignes, idx, l => ApplyLigneEdit(l, e));
    }

    function FormTotals(parseFloat: string -> Num): Totals
      reads this
    {
      InvoiceTotals(FormSousTotal(lignes, parseFloat), taxable, useTvh)
    }

    /** The save button is disabled while saving, without a client, without
        a number, or while the sub-total is 0. */
    predicate CanCreate(parseFloat: string -> Num)
      reads this
    {
      !saving && clientId.Some? && numero != "" && FormSousTotal(lignes, parseFloat) != 0.0
    }

    /** The enabled button promises the posted invoice a client, a number
        and a non-zero sub-total, and is enabled exactly when those hold
        and no save is under way. */
    lemma CreateGuard(parseFloat: string -> Num, contacts: seq<Contact>)
      ensures var p := Payload(parseFloat, contacts);
              CanCreate(parseFloat) <==> !saving && p.contact_id.Some? && p.numero_facture != "" && p.montant_ht != 0.0
    {
    }

    /** The payload `handleCreate` posts: a revenue invoice in status
        "Envoyée", category 14, paid by Interac transfer, carrying the
        form's sub-total, taxes and total, described by its number and the
        name of its client (empty when the client is not in the list). */
    function Payload(parseFloat: string -> Num, contacts: seq<Contact>): (p: InvoicePayload)
      reads this
      ensures p.statut_facture == "Envoyée" && p.categorie_id == 14 && p.mode_paiement == "Virement Interac"
      ensures p.numero_facture == numero && p.taxable == taxable && p.date_transaction == date
      ensures p.contact_id == clientId && p.projet_id == projetId && p.compte_id == compteId
      ensures p.description == "Facture " + numero + " — " + ClientNom(contacts, clientId.GetOr(0)).GetOr("")
      ensures p.lignes_facture == ComputedLignes(lignes, parseFloat)
      ensures p.montant_ht == FormSousTotal(lignes, parseFloat)
      ensures InvoiceTotals(p.montant_ht, p.taxable, useTvh) == Totals(p.montant_ht, p.tps, p.tvq, p.total_ttc)
    {
      var t := FormTotals(parseFloat);
      var nom := ClientNom(contacts, clientId.GetOr(0)).GetOr("");
      InvoicePayload(date, "Facture " + numero + " — " + nom, 14, projetId, clientId, compteId,
        "Virement Interac", t.sousTotal, t.tps, t.tvq, t.total, taxable, "Envoyée", numero,
        ComputedLignes(lignes, parseFloat))
    }

    /** `handleCreate`: post the payload; when the post succeeds the dialog
        closes and the lines, number and notes are reset while client,
        project, account, date and tax choices stay. Saving ends either way. */
    method HandleCreate(parseFloat: string -> Num, contacts: seq<Contact>, posted: bool)
      returns (p: InvoicePayload)
      modifies this
      ensures p == old(Payload(parseFloat, contacts))
      ensures !saving
      ensures clientId == old(clientId) && projetId == old(projetId) && compteId == old(compteId)
      ensures date == old(date) && taxable == old(taxable) && useTvh == old(useTvh)
      ensures posted ==> !showCreate && lignes == [BlankLigne] && numero == "" && notes == ""
      ensures !posted ==> showCreate == old(showCreate) && lignes == old(lignes)
                          && numero == old(numero) && notes == old(notes)
    {
      p := Payload(parseFloat, contacts);
      saving := true;
      if posted {
        showCreate := false;
        lignes := [BlankLigne];
        numero := "";
        notes := "";
      }
      saving := false;
    }
  }

  // ---------------------------------------------------------------------
  // Status of listed invoices

  /** The body `handleUpdateStatut` sends. */
  datatype StatusUpdate = StatusUpdate(
    id: int, statut_facture: string, date_paiement: Option<string>,
    numero_facture: Option<string>, lignes_facture: Option<string>)

  function StatusUpdatePayload(tx: Transaction, statut: string, today: string): (p: StatusUpdate)
    ensures p.id == tx.id && p.statut_facture == statut
    ensures p.date_paiement == (if statut == "Payée" then Some(today) else tx.date_paiement)
    ensures p.numero_facture == tx.numero_facture && p.lignes_facture == tx.lignes_facture
  {
    StatusUpdate(tx.id, statut, if statut == "Payée" then Some(today) else tx.date_paiement,
      tx.numero_facture, tx.lignes_facture)
  }

  /** The "mark paid" action is shown for every invoice not yet paid. */
  predicate CanMarkPaid(tx: Transaction) {
    tx.statut_facture != Some("Payée")
  }

  /** The "mark late" action is shown only for a sent invoice. */
  predicate CanMarkLate(tx: Transaction) {
    tx.statut_facture == Some("Envoyée")
  }

  /** The invoice as listed again after the update, when the store keeps the
      fields it was sent (the update handler is not part of this model). */
  function Stored(tx: Transaction, p: StatusUpdate): Transaction
    requires p.id == tx.id
  {
    tx.(statut_facture := Some(p.statut_facture), date_paiement := p.date_paiement,
        numero_facture := p.numero_facture, lignes_facture := p.lignes_facture)
  }

  /** The two actions drive an invoice from "Envoyée" to "En retard" and then
      to "Payée", after which neither action is offered; marking it late keeps
      its payment date, marking it paid stamps today's. */
  lemma {:induction false} StatusActions(tx: Transaction, today: string)
    ensures CanMarkLate(tx) ==> CanMarkPaid(tx)
    ensures var paid := Stored(tx, StatusUpdatePayload(tx, "Payée", today));
            !CanMarkPaid(paid) && !CanMarkLate(paid) && paid.date_paiement == Some(today)
            && paid.numero_facture == tx.numero_facture && paid.lignes_facture == tx.lignes_facture
    ensures var late := Stored(tx, StatusUpdatePayload(tx, "En retard", today));
            CanMarkPaid(late) && !CanMarkLate(late) && late.date_paiement == tx.date_paiement
  {
  }

  // ---------------------------------------------------------------------
  // Downloading a stored invoice again

  /** `Number(x)` of a nullable amount: null reads as 0. */
  function NumberOfNullable(x: Option<real>): real {
    x.GetOr(0.0)
  }

  /** The harmonized regime is inferred when there is no TVQ and the TPS is
      above 6% of the pre-tax amount. */
  predicate UseTvh(tx: Transaction) {
    tx.tvq == 0.0 && tx.tps > 0.0 && tx.tps > NumberOfNullable(tx.montant_ht) * 0.06
  }

  /** The inference recovers the regime an invoice was created with, for any
      sub-total of at least 8 cents: an HST invoice is recognized, a GST + QST
      invoice or an untaxed one is not. */
  lemma {:induction false} UseTvhRecoversRegime(tx: Transaction, st: real, taxable: bool, useTvh: bool)
    requires st >= 0.08
    requires var t := InvoiceTotals(st, taxable, useTvh);
             tx.montant_ht == Some(st) && tx.tps == t.tps && tx.tvq == t.tvq
    ensures UseTvh(tx) <==> taxable && useTvh
  {
    var t := InvoiceTotals(st, taxable, useTvh);
    if taxable && useTvh {
      assert t.tps > st * TvhRate - HalfCent;
      assert t.tps > st * 0.06;
    } else if taxable {
      assert t.tvq > st * TvqRate - HalfCent;
      assert t.tvq > 0.0;
    }
  }

  /** The sub-total printed on a re-downloaded invoice: the pre-tax amount,
      or, when it is null or 0, total minus taxes. */
  function RedownloadSousTotal(tx: Transaction): (st: real)
    ensures NumberOfNullable(tx.montant_ht) != 0.0 ==> st == tx.montant_ht.value
    ensures NumberOfNullable(tx.montant_ht) == 0.0 ==> st + tx.tps + tx.tvq == tx.total_ttc
  {
    if NumberOfNullable(tx.montant_ht) != 0.0 then NumberOfNullable(tx.montant_ht) else tx.total_ttc - tx.tps - tx.tvq
  }

  /** The single line printed for an invoice stored without lines. */
  function FallbackLigne(tx: Transaction): (l: LigneFacture)
    ensures l.unite == Some(1.0) && l.isHeader == None
    ensures l.cout_unitaire == Some(NumberOfNullable(tx.montant_ht))
    ensures l.montant == (if NumberOfNullable(tx.montant_ht) != 0.0 then NumberOfNullable(tx.montant_ht) else tx.total_ttc)
    ensures l.description == (if tx.description.GetOr("") != "" then tx.description.value
                              else if tx.numero_facture.GetOr("") != "" then tx.numero_facture.value
                              else "Services")
  {
    var ht := NumberOfNullable(tx.montant_ht);
    var desc := if tx.description.GetOr("") != "" then tx.description.value
                else if tx.numero_facture.GetOr("") != "" then tx.numero_facture.value
                else "Services";
    LigneFacture(desc, Some(1.0), Some(ht), if ht != 0.0 then ht else tx.total_ttc, None)
  }
}
