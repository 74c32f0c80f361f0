/** The record shapes of the bookkeeping application. A field that the
    source declares nullable (`T | null`) or optional (`f?: T`) is an
    Option; the field the source calls `type` is `kind` here, `type` being
    a Dafny keyword. Joined display-only fields of a transaction
    (`categorie_nom`, `contact_nom`, ...) are not carried. */
module Types {
  import opened Common

  /** "dépense" | "revenu" | "transfert" */
  datatype TxType = Depense | Revenu | Transfert

  /** "dépense" | "revenu" | "neutre" */
  datatype CategoryType = CategoryDepense | CategoryRevenu | Neutre

  /** "client" | "fournisseur" | "les deux" */
  datatype ContactType = Client | Fournisseur | LesDeux

  datatype Category = Category(id: int, nom: string, kind: CategoryType)

  datatype Projet = Projet(
    id: int, code: string, nom: string, statut: string,
    compte_dedie: Option<string>, date_debut: Option<string>, date_fin: Option<string>,
    budget: Option<real>, revenus: Option<real>, depenses: Option<real>)

  datatype Contact = Contact(
    id: int, nom: string, kind: ContactType,
    email: Option<string>, telephone: Option<string>, adresse: Option<string>,
    numero_tps: Option<string>, numero_tvq: Option<string>)

  /** An invoice line as stored: a header line carries no unit count and no
      unit cost. */
  datatype LigneFacture = LigneFacture(
    description: string, unite: Option<real>, cout_unitaire: Option<real>,
    montant: real, isHeader: Option<bool>)

  datatype CompteBancaire = CompteBancaire(
    id: int, code: string, nom: string, institution: string,
    solde_initial: real, solde_actuel: Option<real>)

  datatype Transaction = Transaction(
    id: int, date_transaction: string, kind: TxType,
    numero: Option<string>, description: Option<string>,
    categorie_id: Option<int>, projet_id: Option<int>, contact_id: Option<int>, compte_id: Option<int>,
    mode_paiement: Option<string>,
    montant_ht: Option<real>, tps: real, tvq: real, total_ttc: real, taxable: bool,
    statut_facture: Option<string>, date_paiement: Option<string>, numero_facture: Option<string>,
    piece_jointe_url: Option<string>, ocr_source: bool, ocr_confiance: Option<real>,
    notes: Option<string>, created_at: string, updated_at: string,
    lignes_facture: Option<string>)

  /** What the transaction form edits; unlike a stored transaction, its
      pre-tax amount is always present. */
  datatype TransactionFormData = TransactionFormData(
    date_transaction: string, kind: TxType, numero: Option<string>, description: string,
    categorie_id: Option<int>, projet_id: Option<int>, contact_id: Option<int>, compte_id: Option<int>,
    mode_paiement: string,
    montant_ht: real, tps: real, tvq: real, total_ttc: real, taxable: bool,
    statut_facture: Option<string>, numero_facture: Option<string>, piece_jointe_url: Option<string>,
    ocr_source: bool, ocr_confiance: Option<real>, notes: Option<string>,
    projets_ids: Option<seq<int>>)

  /** `Partial<TransactionFormData>`: every field may be absent. A present
      optional field is Some(Some(v)) or, set to undefined, Some(None). */
  datatype PartialFormData = PartialFormData(
    date_transaction: Option<string>, kind: Option<TxType>, numero: Option<Option<string>>,
    description: Option<string>,
    categorie_id: Option<Option<int>>, projet_id: Option<Option<int>>,
    contact_id: Option<Option<int>>, compte_id: Option<Option<int>>,
    mode_paiement: Option<string>,
    montant_ht: Option<real>, tps: Option<real>, tvq: Option<real>, total_ttc: Option<real>,
    taxable: Option<bool>,
    statut_facture: Option<Option<string>>, numero_facture: Option<Option<string>>,
    piece_jointe_url: Option<Option<string>>,
    ocr_source: Option<bool>, ocr_confiance: Option<Option<real>>, notes: Option<Option<string>>,
    projets_ids: Option<Option<seq<int>>>)

  /** The empty partial record `{}`. */
  const NoFields := PartialFormData(None, None, None, None, None, None, None, None, None,
    None, None, None, None, None, None, None, None, None, None, None, None)

  /** What the receipt-reading service returns. */
  datatype OcrResult = OcrResult(
    date: string, fournisseur: string, description: string,
    montant_ht: real, tps: real, tvq: real, total_ttc: real,
    mode_paiement: string, numero_recu: string, confiance: real)

  datatype PeriodeFiscale = PeriodeFiscale(
    id: int, periode: string, date_debut: string, date_fin: string,
    tps_percue: real, tps_payee: real, tvq_percue: real, tvq_payee: real,
    reference: Option<string>)
}
