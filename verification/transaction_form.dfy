/** The transaction entry form: its initial record, the field update that
    recalculates the sales taxes, the submission with its post-create reset,
    and the category choices offered for the transaction type. */
module TransactionForm {
  import opened Common
  import opened Types
  import Factures

  // ---------------------------------------------------------------------
  // Initial record

  /** The default record: today's date, an expense paid by Mastercard, all
      amounts 0, taxable, not from OCR. */
  function DefaultForm(today: string): (f: TransactionFormData)
    ensures f.date_transaction == today && f.kind == Depense && f.mode_paiement == "Mastercard"
    ensures f.montant_ht == 0.0 && f.tps == 0.0 && f.tvq == 0.0 && f.total_ttc == 0.0
    ensures f.taxable && !f.ocr_source && f.description == ""
    ensures f.categorie_id == None && f.projet_id == None && f.contact_id == None && f.compte_id == None
  {
    TransactionFormData(today, Depense, None, "", None, None, None, None, "Mastercard",
      0.0, 0.0, 0.0, 0.0, true, None, None, None, false, None, None, None)
  }

  /** `{ ...f, ...p }`: every field present in p replaces the field of f. */
  function Override(f: TransactionFormData, p: PartialFormData): TransactionFormData {
    TransactionFormData(
      p.date_transaction.GetOr(f.date_transaction), p.kind.GetOr(f.kind),
      p.numero.GetOr(f.numero), p.description.GetOr(f.description),
      p.categorie_id.GetOr(f.categorie_id), p.projet_id.GetOr(f.projet_id),
      p.contact_id.GetOr(f.contact_id), p.compte_id.GetOr(f.compte_id),
      p.mode_paiement.GetOr(f.mode_paiement),
      p.montant_ht.GetOr(f.montant_ht), p.tps.GetOr(f.tps), p.tvq.GetOr(f.tvq),
      p.total_ttc.GetOr(f.total_ttc), p.taxable.GetOr(f.taxable),
      p.statut_facture.GetOr(f.statut_facture), p.numero_facture.GetOr(f.numero_facture),
      p.piece_jointe_url.GetOr(f.piece_jointe_url), p.ocr_source.GetOr(f.ocr_source),
      p.ocr_confiance.GetOr(f.ocr_confiance), p.notes.GetOr(f.notes), p.projets_ids.GetOr(f.projets_ids))
  }

  /** Overriding with `{}` changes nothing, and overriding again with the same
      data changes nothing either: the effect that re-applies the initial
      data to a form built from it leaves the form as it was. */
  lemma {:induction false} OverrideLaws(f: TransactionFormData, p: PartialFormData)
    ensures Override(f, NoFields) == f
    ensures Override(Override(f, p), p) == Override(f, p)
    ensures p.montant_ht.Some? ==> Override(f, p).montant_ht == p.montant_ht.value
    ensures p.montant_ht.None? ==> Override(f, p).montant_ht == f.montant_ht
    ensures p.description.Some? ==> Override(f, p).description == p.description.value
    ensures p.description.None? ==> Override(f, p).description == f.description
  {
  }

  // ---------------------------------------------------------------------
  // Field updates

  /** The `updateField(key, value)` calls the form makes. The numeric inputs
      pass `Number(input)`; a select passes the chosen id. */
  datatype FormEdit =
    | SetDate(date: string)
    | SetType(kind: TxType)
    | SetCategorie(id: int)
    | SetProjet(id: int)
    | SetDescription(text: string)
    | SetContact(id: int)
    | SetCompte(id: int)
    | SetMode(mode: string)
    | SetNumeroFacture(text: string)
    | SetTaxable(flag: bool)
    | SetMontantHt(amount: real)
    | SetTps(amount: real)
    | SetTvq(amount: real)
    | SetNotes(text: string)

  /** `{ ...prev, [key]: value }` */
  function Assigned(f: TransactionFormData, e: FormEdit): TransactionFormData {
    match e
    case SetDate(d) => f.(date_transaction := d)
    case SetType(k) => f.(kind := k)
    case SetCategorie(id) => f.(categorie_id := Some(id))
    case SetProjet(id) => f.(projet_id := Some(id))
    case SetDescription(t) => f.(description := t)
    case SetContact(id) => f.(contact_id := Some(id))
    case SetCompte(id) => f.(compte_id := Some(id))
    case SetMode(m) => f.(mode_paiement := m)
    case SetNumeroFacture(t) => f.(numero_facture := Some(t))
    case SetTaxable(b) => f.(taxable := b)
    case SetMontantHt(v) => f.(montant_ht := v)
    case SetTps(v) => f.(tps := v)
    case SetTvq(v) => f.(tvq := v)
    case SetNotes(t) => f.(notes := Some(t))
  }

  /** TPS, TVQ and total recomputed from the pre-tax amount ht. */
  function WithTaxes(f: TransactionFormData, ht: real): TransactionFormData {
    var tps := Round2(ht * TpsRate);
    var tvq := Round2(ht * TvqRate);
    f.(tps := tps, tvq := tvq, total_ttc := Round2(ht + tps + tvq))
  }

  /** The record `updateField` produces: the assignment, then the tax
      recalculation when the pre-tax amount changes on a taxable form or when
      the taxable box is toggled. */
  function Edited(f: TransactionFormData, e: FormEdit): TransactionFormData {
    var next := Assigned(f, e);
    match e
    case SetMontantHt(v) => if next.taxable then WithTaxes(next, v) else next
    case SetTaxable(b) =>
      if b then WithTaxes(next, next.montant_ht)
      else next.(tps := 0.0, tvq := 0.0, total_ttc := next.montant_ht)
    case _ => next
  }

  /** What `updateField` promises for each kind of edit. */
  lemma {:induction false} EditedFields(f: TransactionFormData, e: FormEdit)
    ensures var r := Edited(f, e);
            e.SetMontantHt? && f.taxable ==>
              r.montant_ht == e.amount && NearestCent(e.amount * TpsRate, r.tps)
              && NearestCent(e.amount * TvqRate, r.tvq) && NearestCent(e.amount + r.tps + r.tvq, r.total_ttc)
              && r.(tps := f.tps, tvq := f.tvq, total_ttc := f.total_ttc) == f.(montant_ht := e.amount)
    ensures e.SetMontantHt? && !f.taxable ==> Edited(f, e) == f.(montant_ht := e.amount)
    ensures e == SetTaxable(false) ==>
              Edited(f, e) == f.(taxable := false, tps := 0.0, tvq := 0.0, total_ttc := f.montant_ht)
    ensures var r := Edited(f, e);
            e == SetTaxable(true) ==>
              NearestCent(f.montant_ht * TpsRate, r.tps) && NearestCent(f.montant_ht * TvqRate, r.tvq)
              && NearestCent(f.montant_ht + r.tps + r.tvq, r.total_ttc)
              && r.(tps := f.tps, tvq := f.tvq, total_ttc := f.total_ttc) == f.(taxable := true)
    ensures e.SetTps? ==> Edited(f, e) == f.(tps := e.amount)
    ensures e.SetTvq? ==> Edited(f, e) == f.(tvq := e.amount)
    ensures !e.SetMontantHt? && !e.SetTaxable? ==>
              Edited(f, e).montant_ht == f.montant_ht && Edited(f, e).taxable == f.taxable
    ensures !e.SetMontantHt? && !e.SetTaxable? && !e.SetTps? && !e.SetTvq? ==>
              var r := Edited(f, e); r.tps == f.tps && r.tvq == f.tvq && r.total_ttc == f.total_ttc
  {
  }

  /** The amounts agree with the tax rules: a taxable record carries GST and
      QST rounded to the cent and the total built from them; an untaxed one
      carries no tax and a total equal to its pre-tax amount. */
  predicate TaxConsistent(f: TransactionFormData) {
    if f.taxable then
      f.tps == Round2(f.montant_ht * TpsRate) && f.tvq == Round2(f.montant_ht * TvqRate)
      && f.total_ttc == Round2(f.montant_ht + f.tps + f.tvq)
    else
      f.tps == 0.0 && f.tvq == 0.0 && f.total_ttc == f.montant_ht
  }

  /** A taxable record is consistent exactly when its amounts are those the
      invoice screen computes for the same sub-total under GST + QST. */
  lemma {:induction false} TaxConsistentMatchesInvoice(f: TransactionFormData)
    requires f.taxable
    ensures var t := Factures.InvoiceTotals(f.montant_ht, true, false);
            TaxConsistent(f) <==> t.tps == f.tps && t.tvq == f.tvq && t.total == f.total_ttc
  {
  }

  lemma {:induction false} DefaultConsistent(today: string)
    ensures TaxConsistent(DefaultForm(today))
  {
    Round2OfCents(0.0);
  }

  /** Every edit except a manual TPS or TVQ entry, and except a pre-tax
      amount typed while the form is not taxable, keeps the amounts
      consistent. */
  lemma {:induction false} EditKeepsTaxConsistent(f: TransactionFormData, e: FormEdit)
    requires TaxConsistent(f)
    requires !e.SetTps? && !e.SetTvq? && !(e.SetMontantHt? && !f.taxable)
    ensures TaxConsistent(Edited(f, e))
  {
    match e
    case SetMontantHt(v) =>
      WithTaxesConsistent(f.(montant_ht := v), v);
    case SetTaxable(b) =>
      if b {
        WithTaxesConsistent(f.(taxable := true), f.montant_ht);
      }
    case _ =>
      AmountsUntouched(f, e);
  }

  /** The recalculation always yields consistent amounts. */
  lemma WithTaxesConsistent(g: TransactionFormData, ht: real)
    requires g.taxable && g.montant_ht == ht
    ensures TaxConsistent(WithTaxes(g, ht))
  {
  }

  /** An edit of a field other than the amounts and the tax choice leaves
      those five fields as they were. */
  lemma AmountsUntouched(f: TransactionFormData, e: FormEdit)
    requires !e.SetMontantHt? && !e.SetTaxable? && !e.SetTps? && !e.SetTvq?
    ensures var r := Edited(f, e);
            r.taxable == f.taxable && r.montant_ht == f.montant_ht
            && r.tps == f.tps && r.tvq == f.tvq && r.total_ttc == f.total_ttc
  {
    assert Edited(f, e) == Assigned(f, e);
  }

  /** A pre-tax amount typed on an untaxed form leaves the read-only total at
      its old value: 100 typed on an empty untaxed form keeps the total at 0. */
  lemma StaleTotalAsWritten()
    ensures var f := DefaultForm("2025-01-15").(taxable := false);
            TaxConsistent(f) && !TaxConsistent(Edited(f, SetMontantHt(100.0)))
            && Edited(f, SetMontantHt(100.0)).total_ttc == 0.0
  {
  }

  /** The corrected update: an untaxed pre-tax amount also becomes the total,
      as turning the taxable box off already does. */
  function CorrectedEdited(f: TransactionFormData, e: FormEdit): (r: TransactionFormData)
    ensures e.SetMontantHt? && !f.taxable ==> r.total_ttc == e.amount && r.montant_ht == e.amount
    ensures !(e.SetMontantHt? && !f.taxable) ==> r == Edited(f, e)
  {
    if e.SetMontantHt? && !f.taxable then Edited(f, e).(total_ttc := e.amount) else Edited(f, e)
  }

  /** With the correction every edit other than a manual TPS or TVQ entry
      keeps the amounts consistent. Those two inputs are disabled on an untaxed
      form, so an untaxed form always carries no tax and total = pre-tax. */
  lemma {:induction false} CorrectedKeepsTaxConsistent(f: TransactionFormData, e: FormEdit)
    requires TaxConsistent(f)
    requires !e.SetTps? && !e.SetTvq?
    ensures TaxConsistent(CorrectedEdited(f, e))
  {
    if !(e.SetMontantHt? && !f.taxable) {
      EditKeepsTaxConsistent(f, e);
    }
  }

  // ---------------------------------------------------------------------
  // Submission

  /** A new transaction is posted; an edited one is put with its id. */
  datatype SubmitRequest = Post(body: TransactionFormData) | Put(body: TransactionFormData, id: int)

  /** `if (editId)`: an id of 0 is falsy. */
  predicate IsEdit(editId: Option<int>) {
    editId.Some? && editId.value != 0
  }

  /** The record kept after a successful create: the description, amounts,
      invoice number, notes and OCR origin are cleared. */
  function PostCreateReset(f: TransactionFormData): (r: TransactionFormData)
    ensures r.description == "" && r.montant_ht == 0.0 && r.tps == 0.0 && r.tvq == 0.0 && r.total_ttc == 0.0
    ensures r.numero_facture == Some("") && r.notes == Some("") && !r.ocr_source && r.ocr_confiance == None
  {
    f.(description := "", montant_ht := 0.0, tps := 0.0, tvq := 0.0, total_ttc := 0.0,
       numero_facture := Some(""), notes := Some(""), ocr_source := false, ocr_confiance := None)
  }

  /** The reset keeps date, type, category, project, contact, account,
      payment mode and tax choice, and leaves consistent amounts. */
  lemma {:induction false} PostCreateResetKeeps(f: TransactionFormData)
    ensures var r := PostCreateReset(f);
            r.date_transaction == f.date_transaction && r.kind == f.kind
            && r.categorie_id == f.categorie_id && r.projet_id == f.projet_id
            && r.contact_id == f.contact_id && r.compte_id == f.compte_id
            && r.mode_paiement == f.mode_paiement && r.taxable == f.taxable
            && r.numero == f.numero && r.statut_facture == f.statut_facture
    ensures TaxConsistent(PostCreateReset(f))
  {
    Round2OfCents(0.0);
  }

  /** The categories offered for a transaction type. */
  predicate Offered(kind: TxType, c: Category) {
    match kind
    case Depense => c.kind == CategoryDepense
    case Revenu => c.kind == CategoryRevenu
    case Transfert => true
  }

  /** `filteredCategories`: the offered categories, in their order. */
  function FilteredCategories(cats: seq<Category>, kind: TxType): (r: seq<Category>)
    ensures |r| <= |cats|
    ensures forall c :: c in r <==> c in cats && Offered(kind, c)
    ensures forall c :: multiset(r)[c] == if Offered(kind, c) then multiset(cats)[c] else 0
  {
    if cats == [] then []
    else
      assert cats == [cats[0]] + cats[1..];
      var rest := FilteredCategories(cats[1..], kind);
      if Offered(kind, cats[0]) then [cats[0]] + rest else rest
  }

  /** A transfer is offered every category, in order. */
  lemma {:induction false} TransferOffersAll(cats: seq<Category>)
    ensures FilteredCategories(cats, Transfert) == cats
  {
    if cats != [] {
      TransferOffersAll(cats[1..]);
    }
  }

  /** The form's state. */
  class TransactionFormState {
    var form: TransactionFormData
    var saving: bool
    var saved: bool

    constructor (today: string, initialData: Option<PartialFormData>)
      ensures form == Override(DefaultForm(today), initialData.GetOr(NoFields))
      ensures !saving && !saved
    {
      form := Override(DefaultForm(today), initialData.GetOr(NoFields));
      saving, saved := false, false;
    }

    /** The effect run when `initialData` is given. */
    method ApplyInitialData(initialData: Option<PartialFormData>)
      modifies this`form
      ensures initialData.Some? ==> form == Override(old(form), initialData.value)
      ensures initialData.None? ==> form == old(form)
    {
      if initialData.Some? {
        form := Override(form, initialData.value);
      }
    }

    /** `updateField`: assign, recalculate step by step, clear `saved`. */
    method UpdateField(e: FormEdit)
      modifies this`form, this`saved
      ensures form == Edited(old(form), e)
      ensures !saved
    {
      var next := Assigned(form, e);
      if e.SetMontantHt? && next.taxable {
        var ht := e.amount;
        next := next.(tps := Round2(ht * TpsRate));
        next := next.(tvq := Round2(ht * TvqRate));
        next := next.(total_ttc := Round2(ht + next.tps + next.tvq));
      }
      if e.SetTaxable? && !e.flag {
        next := next.(tps := 0.0);
        next := next.(tvq := 0.0);
        next := next.(total_ttc := next.montant_ht);
      }
      if e.SetTaxable? && e.flag {
        var ht := next.montant_ht;
        next := next.(tps := Round2(ht * TpsRate));
        next := next.(tvq := Round2(ht * TvqRate));
        next := next.(total_ttc := Round2(ht + next.tps + next.tvq));
      }
      form := next;
      saved := false;
    }

    /** `handleSubmit`: the request sent, then on success `saved` and, after a
        create, the reset; a failed request changes neither. */
    method HandleSubmit(editId: Option<int>, succeeded: bool) returns (req: SubmitRequest)
      modifies this`form, this`saving, this`saved
      ensures req == (if IsEdit(editId) then Put(old(form), editId.value) else Post(old(form)))
      ensures !saving
      ensures succeeded ==> saved && form == (if IsEdit(editId) then old(form) else PostCreateReset(old(form)))
      ensures !succeeded ==> saved == old(saved) && form == old(form)
    {
      saving := true;
      if IsEdit(editId) {
        req := Put(form, editId.value);
      } else {
        req := Post(form);
      }
      if succeeded {
        saved := true;
        if !IsEdit(editId) {
          form := PostCreateReset(form);
        }
      }
      saving := false;
    }
  }
}
