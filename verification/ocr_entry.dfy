/** Entry from a receipt photo or a dropped document: the file's Base64
    payload is sent to the receipt-reading service, and what it reads back
    pre-fills the transaction form as an expense. */
module OcrEntry {
  import opened Common
  import opened Text
  import opened Types
  import TransactionForm

  /** The separator between supplier and description, " — " (an em dash). */
  const Separator: string := " — "

  /** The partial form record built from a reading. */
  function OcrToFormData(r: OcrResult): PartialFormData {
    NoFields.(
      date_transaction := Some(r.date),
      description := Some(r.fournisseur + Separator + r.description),
      montant_ht := Some(r.montant_ht),
      tps := Some(r.tps),
      tvq := Some(r.tvq),
      total_ttc := Some(r.total_ttc),
      mode_paiement := Some(r.mode_paiement),
      numero_facture := Some(Some(r.numero_recu)),
      taxable := Some(r.tps > 0.0 || r.tvq > 0.0),
      ocr_source := Some(true),
      ocr_confiance := Some(Some(r.confiance)),
      kind := Some(Depense))
  }

  /** The form the reading opens: an expense marked as read from a receipt,
      with the reading's date, amounts, payment mode, receipt number and
      confidence, the supplier ahead of the description, taxable exactly when
      a tax was read, and every other field at its default. */
  lemma PrefilledForm(today: string, r: OcrResult)
    ensures var f := TransactionForm.Override(TransactionForm.DefaultForm(today), OcrToFormData(r));
      && f.kind == Depense && f.ocr_source && f.ocr_confiance == Some(r.confiance)
      && f.date_transaction == r.date && f.mode_paiement == r.mode_paiement
      && f.montant_ht == r.montant_ht && f.tps == r.tps && f.tvq == r.tvq && f.total_ttc == r.total_ttc
      && f.numero_facture == Some(r.numero_recu)
      && (f.taxable <==> r.tps > 0.0 || r.tvq > 0.0)
      && f.description[..|r.fournisseur|] == r.fournisseur
      && f.description[|r.fournisseur|..|r.fournisseur| + 3] == Separator
      && f.description[|r.fournisseur| + 3..] == r.description
      && f.categorie_id == None && f.projet_id == None && f.contact_id == None && f.compte_id == None
      && f.numero == None && f.notes == None && f.statut_facture == None && f.piece_jointe_url == None
  {
    var d := r.fournisseur + Separator + r.description;
    assert d[..|r.fournisseur|] == r.fournisseur;
    assert d[|r.fournisseur|..|r.fournisseur| + 3] == Separator;
    assert d[|r.fournisseur| + 3..] == r.description;
  }

  /** A reading with no tax gives a form that is not taxable. */
  lemma UntaxedReading(today: string, r: OcrResult)
    requires r.tps <= 0.0 && r.tvq <= 0.0
    ensures !TransactionForm.Override(TransactionForm.DefaultForm(today), OcrToFormData(r)).taxable
  {
  }

  // ---------------------------------------------------------------------
  // The request

  /** `dataUrl.split(',')[1]`: the text after the first comma up to the
      next one, or None (`undefined`) when there is no comma. */
  function Base64Part(dataUrl: string): Option<string> {
    var parts := Split(dataUrl, ',');
    if |parts| >= 2 then Some(parts[1]) else None
  }

  /** A data URL `header,payload` yields its payload; text without a comma
      yields nothing. */
  lemma Base64PartLaws(header: string, payload: string, s: string)
    requires ',' !in header && ',' !in payload
    ensures Base64Part(header + "," + payload) == Some(payload)
    ensures Base64Part(s).None? <==> ',' !in s
  {
    SplitAtFirst(header, payload, ',');
    SplitWithoutSeparator(payload, ',');
    if ',' !in s {
      SplitWithoutSeparator(s, ',');
    }
  }

  /** What the file reader hands over: the file's name and type, and its
      content as a data URL. */
  datatype PickedFile = PickedFile(name: string, mimeType: string, dataUrl: string)

  /** The body posted to the receipt-reading service. */
  datatype OcrRequest = OcrRequest(image: Option<string>, mimeType: string)

  function RequestFor(file: PickedFile): OcrRequest {
    OcrRequest(Base64Part(file.dataUrl), file.mimeType)
  }

  const OcrFailed: string := "Erreur OCR"

  // ---------------------------------------------------------------------
  // Screens

  /** The photo screen. */
  class PhotoCapture {
    var preview: Option<string>
    var ocrData: Option<PartialFormData>
    var ocrConfidence: Option<real>
    var loading: bool
    var error: Option<string>

    constructor()
      ensures preview == None && ocrData == None && ocrConfidence == None && !loading && error == None
    {
      preview, ocrData, ocrConfidence, loading, error := None, None, None, false, None;
    }

    /** `handleCapture`: without a file nothing happens; otherwise the
        preview shows the file, its payload is sent and the reading (or the
        failure's message) is kept; loading is off again afterwards. */
    method HandleCapture(file: Option<PickedFile>, answer: Attempt<OcrResult>) returns (sent: Option<OcrRequest>)
      modifies this
      ensures file.None? ==> sent == None && preview == old(preview) && ocrData == old(ocrData)
                             && ocrConfidence == old(ocrConfidence) && loading == old(loading) && error == old(error)
      ensures file.Some? ==> sent == Some(RequestFor(file.value)) && preview == Some(file.value.dataUrl) && !loading
      ensures file.Some? && answer.Done? ==>
                ocrData == Some(OcrToFormData(answer.value)) && ocrConfidence == Some(answer.value.confiance)
                && error == None
      ensures file.Some? && answer.Threw? ==>
                error == Some(MessageOr(answer.thrown, OcrFailed))
                && ocrData == old(ocrData) && ocrConfidence == old(ocrConfidence)
    {
      if file.None? {
        return None;
      }
      preview := Some(file.value.dataUrl);
      sent := Some(RequestFor(file.value));
      loading := true;
      error := None;
      match answer {
        case Done(result) =>
          ocrData := Some(OcrToFormData(result));
          ocrConfidence := Some(result.confiance);
        case Threw(e) =>
          error := Some(MessageOr(e, OcrFailed));
      }
      loading := false;
    }

    /** `reset`: back to the capture card. */
    method Reset()
      modifies this
      ensures preview == None && ocrData == None && ocrConfidence == None && error == None
      ensures loading == old(loading)
    {
      preview, ocrData, ocrConfidence, error := None, None, None, None;
    }
  }

  /** The document screen. */
  class DocumentUpload {
    var fileName: Option<string>
    var ocrData: Option<PartialFormData>
    var ocrConfidence: Option<real>
    var loading: bool
    var error: Option<string>
    var dragOver: bool

    constructor()
      ensures fileName == None && ocrData == None && ocrConfidence == None && !loading && error == None
      ensures !dragOver
    {
      fileName, ocrData, ocrConfidence, loading, error, dragOver := None, None, None, false, None, false;
    }

    /** `processFile`: the file's name is shown, its payload is sent and
        the reading (or the failure's message) is kept; loading is off again
        afterwards. */
    method ProcessFile(file: PickedFile, answer: Attempt<OcrResult>) returns (sent: OcrRequest)
      modifies this
      ensures sent == RequestFor(file) && fileName == Some(file.name) && !loading
      ensures dragOver == old(dragOver)
      ensures answer.Done? ==>
                ocrData == Some(OcrToFormData(answer.value)) && ocrConfidence == Some(answer.value.confiance)
                && error == None
      ensures answer.Threw? ==>
                error == Some(MessageOr(answer.thrown, OcrFailed))
                && ocrData == old(ocrData) && ocrConfidence == old(ocrConfidence)
    {
      fileName := Some(file.name);
      loading := true;
      error := None;
      sent := RequestFor(file);
      match answer {
        case Done(result) =>
          ocrData := Some(OcrToFormData(result));
          ocrConfidence := Some(result.confiance);
        case Threw(e) =>
          error := Some(MessageOr(e, OcrFailed));
      }
      loading := false;
    }

    /** `handleDrop`: the drop highlight goes off and the first dropped
        file, if any, is processed. */
    method HandleDrop(files: seq<PickedFile>, answer: Attempt<OcrResult>) returns (sent: Option<OcrRequest>)
      modifies this
      ensures !dragOver
      ensures files == [] ==> sent == None && fileName == old(fileName) && ocrData == old(ocrData)
                              && ocrConfidence == old(ocrConfidence) && loading == old(loading)
                              && error == old(error)
      ensures files != [] ==> sent == Some(RequestFor(files[0])) && fileName == Some(files[0].name) && !loading
      ensures files != [] && answer.Done? ==>
                ocrData == Some(OcrToFormData(answer.value)) && ocrConfidence == Some(answer.value.confiance)
                && error == None
      ensures files != [] && answer.Threw? ==>
                error == Some(MessageOr(answer.thrown, OcrFailed))
                && ocrData == old(ocrData) && ocrConfidence == old(ocrConfidence)
    {
      dragOver := false;
      sent := None;
      if files != [] {
        var req := ProcessFile(files[0], answer);
        sent := Some(req);
      }
    }

    /** `reset`: back to the drop zone. */
    method Reset()
      modifies this
      ensures fileName == None && ocrData == None && ocrConfidence == None && error == None
      ensures loading == old(loading) && dragOver == old(dragOver)
    {
      fileName, ocrData, ocrConfidence, error := None, None, None, None;
    }
  }
}
