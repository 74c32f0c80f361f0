/** The bank-statement import screen: the parsed rows, the columns detected
    in the header, the rows mapped into candidate transactions, the per-row
    selection and edits, and the transactions sent for the selected rows. */
module ImportCsv {
  import opened Common
  import opened Text
  import opened Types
  import Lists

  /** One parsed line: the cell under each header name. */
  type CsvRow = map<string, string>

  // ---------------------------------------------------------------------
  // Column detection

  /** `/pattern/i.test(h)` for a pattern made of alternatives: some
      alternative occurs in h, letters compared without case. */
  predicate MatchesAny(h: string, alternatives: seq<string>) {
    exists k :: 0 <= k < |alternatives| && Contains(Lower(h), alternatives[k])
  }

  const DateWords: seq<string> := ["date"]
  const DescWords: seq<string> := ["desc", "libell", "memo"]
  const DebitWords: seq<string> := ["debit", "débit", "retrait"]
  const CreditWords: seq<string> := ["credit", "crédit", "dépôt", "depot"]

  /** `headers.filter(c => pattern.test(c))[0]` */
  function FirstMatching(headers: seq<string>, alternatives: seq<string>): (r: Option<nat>)
    ensures r.Some? ==> r.value < |headers| && MatchesAny(headers[r.value], alternatives)
                        && forall j :: 0 <= j < r.value ==> !MatchesAny(headers[j], alternatives)
    ensures r.None? ==> forall j :: 0 <= j < |headers| ==> !MatchesAny(headers[j], alternatives)
  {
    if headers == [] then None
    else if MatchesAny(headers[0], alternatives) then Some(0)
    else
      match FirstMatching(headers[1..], alternatives)
      case None => None
      case Some(j) =>
        assert headers[j + 1] == headers[1..][j];
        Some(j + 1)
  }

  /** `if (cols.length) setCol(cols[0])`: the first matching header, or the
      current choice when none matches. */
  function Detected(headers: seq<string>, alternatives: seq<string>, current: string): (col: string)
  {
    match FirstMatching(headers, alternatives)
    case None => current
    case Some(j) => headers[j]
  }

  /** The detected column is the first header that matches, and the current
      choice stays when no header matches. */
  lemma DetectedFirstMatch(headers: seq<string>, alternatives: seq<string>, current: string)
    ensures (forall j :: 0 <= j < |headers| ==> !MatchesAny(headers[j], alternatives)) ==>
              Detected(headers, alternatives, current) == current
    ensures (exists j :: 0 <= j < |headers| && MatchesAny(headers[j], alternatives)) ==>
              exists j :: 0 <= j < |headers| && Detected(headers, alternatives, current) == headers[j]
                          && MatchesAny(headers[j], alternatives)
                          && forall i :: 0 <= i < j ==> !MatchesAny(headers[i], alternatives)
  {
  }

  // ---------------------------------------------------------------------
  // Mapping

  /** `s.replace(/[^0-9.-]/g, '')` */
  function KeepNumberChars(s: string): (r: string)
    ensures |r| <= |s|
    ensures forall i :: 0 <= i < |r| ==> IsDigit(r[i]) || r[i] == '.' || r[i] == '-'
    ensures (forall i :: 0 <= i < |s| ==> IsDigit(s[i]) || s[i] == '.' || s[i] == '-') ==> r == s
  {
    if s == [] then []
    else
      var rest := KeepNumberChars(s[1..]);
      if IsDigit(s[0]) || s[0] == '.' || s[0] == '-' then [s[0]] + rest else rest
  }

  /** `Math.abs(parseFloat(row[col]?.replace(...) || '0'))`: a missing cell
      and one with nothing numeric left both read "0"; NaN stays NaN. */
  function ReadAmount(rt: JsRuntime, row: CsvRow, col: string): (r: Num)
    ensures col !in row || KeepNumberChars(row[col]) == "" ==> r == rt.parseFloat("0").Abs()
    ensures col in row && KeepNumberChars(row[col]) != "" ==> r == rt.parseFloat(KeepNumberChars(row[col])).Abs()
    ensures r.Finite? ==> r.value >= 0.0
  {
    var cleaned := if col in row then KeepNumberChars(row[col]) else "";
    rt.parseFloat(if cleaned == "" then "0" else cleaned).Abs()
  }

  /** `row[col] || ''` */
  function CellOrEmpty(row: CsvRow, col: string): string {
    if col in row then row[col] else ""
  }

  /** The four chosen columns. */
  datatype Columns = Columns(date: string, desc: string, debit: string, credit: string)

  /** A candidate transaction of the preview. */
  datatype MappedRow = MappedRow(
    date_transaction: string, description: string, debit: Num, credit: Num, kind: TxType,
    categorie_id: Option<int>, projet_id: Option<int>, compte_id: Option<int>, selected: bool)

  /** One parsed line as a candidate: a credit makes it a revenue, anything
      else an expense; no category or project yet, the chosen account, and
      selected. */
  function MapRow(rt: JsRuntime, cols: Columns, compte: Option<int>, row: CsvRow): (m: MappedRow)
    ensures m.kind == Revenu <==> m.credit.IsPositive()
    ensures m.kind == Depense <==> !m.credit.IsPositive()
    ensures m.debit == ReadAmount(rt, row, cols.debit) && m.credit == ReadAmount(rt, row, cols.credit)
    ensures m.date_transaction == CellOrEmpty(row, cols.date) && m.description == CellOrEmpty(row, cols.desc)
    ensures m.categorie_id.None? && m.projet_id.None? && m.compte_id == compte && m.selected
  {
    var debit := ReadAmount(rt, row, cols.debit);
    var credit := ReadAmount(rt, row, cols.credit);
    MappedRow(CellOrEmpty(row, cols.date), CellOrEmpty(row, cols.desc), debit, credit,
      if credit.IsPositive() then Revenu else Depense, None, None, compte, true)
  }

  /** `.filter(r => r.date_transaction && (r.debit > 0 || r.credit > 0))` */
  predicate Kept(m: MappedRow) {
    m.date_transaction != "" && (m.debit.IsPositive() || m.credit.IsPositive())
  }

  /** `applyMapping`'s list: the kept candidates, in the order of the lines.
      Each carries a positive amount under its own type: the debit of an
      expense, the credit of a revenue. */
  function MappedRows(rt: JsRuntime, cols: Columns, compte: Option<int>, data: seq<CsvRow>): (rows: seq<MappedRow>)
    ensures |rows| <= |data|
    ensures forall m :: m in rows ==> Kept(m) && m.selected && m.compte_id == compte && Amount(m).IsPositive()
  {
    if data == [] then []
    else
      var m := MapRow(rt, cols, compte, data[|data| - 1]);
      MappedRows(rt, cols, compte, data[..|data| - 1]) + (if Kept(m) then [m] else [])
  }

  /** Lines without a date in the chosen column are all dropped. */
  lemma {:induction false} DatelessKeepsNothing(rt: JsRuntime, cols: Columns, compte: Option<int>, data: seq<CsvRow>)
    requires forall i :: 0 <= i < |data| ==> CellOrEmpty(data[i], cols.date) == ""
    ensures MappedRows(rt, cols, compte, data) == []
  {
    if data != [] {
      DatelessKeepsNothing(rt, cols, compte, data[..|data| - 1]);
    }
  }

  /** The candidate of every line, kept or not. */
  function Candidates(rt: JsRuntime, cols: Columns, compte: Option<int>, data: seq<CsvRow>): (c: seq<MappedRow>)
    ensures |c| == |data|
    ensures forall i :: 0 <= i < |data| ==> c[i] == MapRow(rt, cols, compte, data[i])
  {
    if data == [] then []
    else Candidates(rt, cols, compte, data[..|data| - 1]) + [MapRow(rt, cols, compte, data[|data| - 1])]
  }

  /** The mapped list holds exactly the kept candidates. */
  lemma {:induction false} MappedRowsMembers(rt: JsRuntime, cols: Columns, compte: Option<int>, data: seq<CsvRow>, m: MappedRow)
    ensures m in MappedRows(rt, cols, compte, data) <==> m in Candidates(rt, cols, compte, data) && Kept(m)
  {
    if data != [] {
      MappedRowsMembers(rt, cols, compte, data[..|data| - 1], m);
    }
  }

  // ---------------------------------------------------------------------
  // Row edits

  /** `{ ...r, selected: !r.selected }` */
  function Toggled(m: MappedRow): MappedRow {
    m.(selected := !m.selected)
  }

  /** The field edits the preview offers: a category or a project. */
  datatype RowEdit = SetCategorie(id: int) | SetProjet(id: int)

  /** `{ ...r, [field]: value }` */
  function Updated(m: MappedRow, e: RowEdit): (r: MappedRow)
    ensures e.SetCategorie? ==> r == m.(categorie_id := Some(e.id))
    ensures e.SetProjet? ==> r == m.(projet_id := Some(e.id))
  {
    match e
    case SetCategorie(id) => m.(categorie_id := Some(id))
    case SetProjet(id) => m.(projet_id := Some(id))
  }

  // ---------------------------------------------------------------------
  // Import

  /** What is sent for one selected row. */
  datatype ImportTx = ImportTx(
    date_transaction: string, kind: TxType, description: string,
    categorie_id: Option<int>, projet_id: Option<int>, compte_id: Option<int>,
    montant_ht: Num, tps: real, tvq: real, total_ttc: Num, taxable: bool, mode_paiement: string)

  /** `r.type === 'dépense' ? r.debit : r.credit` */
  function Amount(m: MappedRow): Num {
    if m.kind == Depense then m.debit else m.credit
  }

  function ToImport(m: MappedRow): ImportTx {
    ImportTx(m.date_transaction, m.kind, m.description, m.categorie_id, m.projet_id, m.compte_id,
      Amount(m), 0.0, 0.0, Amount(m), false, "Virement")
  }

  /** How many rows are selected. */
  function SelectedCount(rows: seq<MappedRow>): (n: nat)
    ensures n <= |rows|
  {
    if rows == [] then 0
    else SelectedCount(rows[..|rows| - 1]) + (if rows[|rows| - 1].selected then 1 else 0)
  }

  /** `handleImport`'s list: the selected rows, in order, as transactions
      without tax. */
  function ImportPayload(rows: seq<MappedRow>): (txs: seq<ImportTx>)
    ensures |txs| == SelectedCount(rows)
    ensures forall t :: t in txs ==>
              t.tps == 0.0 && t.tvq == 0.0 && !t.taxable && t.mode_paiement == "Virement" && t.montant_ht == t.total_ttc
    ensures forall t :: t in txs <==> exists m :: m in rows && m.selected && t == ToImport(m)
  {
    if rows == [] then []
    else
      var init := rows[..|rows| - 1];
      var last := rows[|rows| - 1];
      assert forall m :: m in rows <==> m in init || m == last;
      ImportPayload(init) + (if last.selected then [ToImport(last)] else [])
  }

  /** Toggling row idx adds it to, or removes it from, what is sent. */
  lemma {:induction false} ToggleCount(rows: seq<MappedRow>, idx: int)
    requires 0 <= idx < |rows|
    ensures SelectedCount(Lists.MapAtIndex(rows, idx, Toggled)) == SelectedCount(rows) + (if rows[idx].selected then -1 else 1)
  {
    var t := Lists.MapAtIndex(rows, idx, Toggled);
    var last := |rows| - 1;
    assert t[..last] == Lists.MapAtIndex(rows[..last], idx, Toggled);
    if idx < last {
      ToggleCount(rows[..last], idx);
    } else {
      assert t[..last] == rows[..last];
    }
  }

  /** Toggling the same row twice gives the rows back. */
  lemma ToggleTwice(rows: seq<MappedRow>, idx: int)
    ensures Lists.MapAtIndex(Lists.MapAtIndex(rows, idx, Toggled), idx, Toggled) == rows
  {
  }

  /** A freshly mapped list sends every row, each with a positive amount. */
  lemma {:induction false} FreshPayload(rt: JsRuntime, cols: Columns, compte: Option<int>, data: seq<CsvRow>)
    ensures var rows := MappedRows(rt, cols, compte, data);
            |ImportPayload(rows)| == |rows|
            && forall t :: t in ImportPayload(rows) ==> t.montant_ht.IsPositive() && t.compte_id == compte
  {
    var rows := MappedRows(rt, cols, compte, data);
    AllSelected(rows);
  }

  lemma {:induction false} AllSelected(rows: seq<MappedRow>)
    requires forall m :: m in rows ==> m.selected
    ensures SelectedCount(rows) == |rows|
  {
    if rows != [] {
      AllSelected(rows[..|rows| - 1]);
    }
  }

  // ---------------------------------------------------------------------
  // The screen

  /** What the server answers to an import. */
  datatype ImportResult = ImportResult(imported: int, errors: seq<string>)

  class CsvImport {
    var rawData: seq<CsvRow>
    var headers: seq<string>
    var mappedRows: seq<MappedRow>
    var cols: Columns
    /** The chosen account; the choices are the accounts' ids. */
    var selectedCompte: Option<int>
    var importing: bool
    var result: Option<ImportResult>

    constructor()
      ensures rawData == [] && headers == [] && mappedRows == [] && cols == Columns("", "", "", "")
      ensures selectedCompte.None? && !importing && result.None?
    {
      rawData, headers, mappedRows := [], [], [];
      cols := Columns("", "", "", "");
      selectedCompte, importing, result := None, false, None;
    }

    /** `handleFile`'s completion: keeps the parsed lines and their header,
        and picks each column from the header where one matches. */
    method HandleFile(data: seq<CsvRow>, fields: Option<seq<string>>)
      modifies this
      ensures rawData == data && headers == fields.GetOr([])
      ensures cols == Columns(Detected(headers, DateWords, old(cols.date)), Detected(headers, DescWords, old(cols.desc)),
                              Detected(headers, DebitWords, old(cols.debit)), Detected(headers, CreditWords, old(cols.credit)))
      ensures mappedRows == old(mappedRows) && selectedCompte == old(selectedCompte)
      ensures importing == old(importing) && result == old(result)
    {
      var h := fields.GetOr([]);
      var detected := Columns(Detected(h, DateWords, cols.date), Detected(h, DescWords, cols.desc),
                              Detected(h, DebitWords, cols.debit), Detected(h, CreditWords, cols.credit));
      rawData, headers, cols := data, h, detected;
    }

    /** The mapping button is enabled once the date and description columns
        are chosen. */
    predicate CanApply()
      reads this
    {
      cols.date != "" && cols.desc != ""
    }

    /** Why the button waits for a date column: left unchosen, the column
        is read under the empty name, and when no line has a cell of that
        name no line is kept at all. */
    lemma ApplyGuard(rt: JsRuntime)
      ensures CanApply() ==> cols.date != "" && cols.desc != ""
      ensures !CanApply() && cols.desc != "" && (forall i :: 0 <= i < |rawData| ==> "" !in rawData[i]) ==>
                MappedRows(rt, cols, selectedCompte, rawData) == []
    {
      if cols.date == "" && forall i :: 0 <= i < |rawData| ==> "" !in rawData[i] {
        DatelessKeepsNothing(rt, cols, selectedCompte, rawData);
      }
    }

    method ApplyMapping(rt: JsRuntime)
      modifies this
      ensures mappedRows == MappedRows(rt, cols, selectedCompte, rawData)
      ensures rawData == old(rawData) && headers == old(headers) && cols == old(cols)
      ensures selectedCompte == old(selectedCompte) && importing == old(importing) && result == old(result)
    {
      mappedRows := MappedRows(rt, cols, selectedCompte, rawData);
    }

    /** `toggleRow`: flips the selection of row idx only. */
    method ToggleRow(idx: int)
      modifies this
      ensures mappedRows == Lists.MapAtIndex(old(mappedRows), idx, Toggled)
      ensures rawData == old(rawData) && headers == old(headers) && cols == old(cols)
      ensures selectedCompte == old(selectedCompte) && importing == old(importing) && result == old(result)
    {
      mappedRows := Lists.MapAtIndex(mappedRows, idx, Toggled);
    }

    /** `updateRowField`: changes one field of row idx only. */
    method UpdateRowField(idx: int, e: RowEdit)
      modifies this
      ensures mappedRows == Lists.MapAtIndex(old(mappedRows), idx, m => Updated(m, e))
      ensures rawData == old(rawData) && headers == old(headers) && cols == old(cols)
      ensures selectedCompte == old(selectedCompte) && importing == old(importing) && result == old(result)
    {
      mappedRows := Lists.MapAtIndex(mappedRows, idx, m => Updated(m, e));
    }

    /** `handleImport`: sends the selected rows; the server's answer, when
        there is one, becomes the result, and importing ends false either
        way. */
    method HandleImport(response: Option<ImportResult>) returns (sent: seq<ImportTx>)
      modifies this
      ensures sent == ImportPayload(mappedRows) && |sent| == SelectedCount(mappedRows)
      ensures !importing && result == (if response.Some? then response else old(result))
      ensures mappedRows == old(mappedRows) && rawData == old(rawData) && headers == old(headers)
      ensures cols == old(cols) && selectedCompte == old(selectedCompte)
    {
      importing := true;
      sent := ImportPayload(mappedRows);
      if response.Some? {
        result := response;
      }
      importing := false;
    }
  }
}
