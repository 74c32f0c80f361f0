/** The one-off import of the bookkeeping workbook: cells as the workbook
    reader delivers them, name-to-id lookups through alias tables, number
    cleaning, day serials to dates, the rules that skip or insert each row of
    the expense and revenue sheets, the fiscal-quarter rows of the tax sheet,
    and the counters each sheet's loop keeps. The database is a set of lookup
    tables read before the import and an oracle saying whether an insert
    succeeds. */
module ImportExcel {
  import opened Common
  import opened Text
  import opened Types
  import opened ExcelDates

  // ---------------------------------------------------------------------
  // Cells

  /** A cell of a sheet read row by row: absent, a number, text or a boolean. */
  datatype Cell = Missing | NumCell(n: real) | TextCell(s: string) | BoolCell(b: bool)

  type Row = seq<Cell>

  /** `row[k]`, absent beyond the end of the row. */
  function At(row: Row, k: nat): Cell {
    if k < |row| then row[k] else Missing
  }

  /** JavaScript truthiness of a cell. */
  predicate Truthy(c: Cell) {
    match c
    case Missing => false
    case NumCell(n) => n != 0.0
    case TextCell(s) => s != ""
    case BoolCell(b) => b
  }

  /** `String(cell)`; numbers go through the runtime's conversion. */
  function CellText(rt: JsRuntime, c: Cell): string {
    match c
    case Missing => "undefined"
    case NumCell(n) => rt.numberToString(n)
    case TextCell(s) => s
    case BoolCell(b) => if b then "true" else "false"
  }

  /** `cell ? String(cell) : null` */
  function TextOrNull(rt: JsRuntime, c: Cell): (r: Option<string>)
    ensures r.Some? <==> Truthy(c)
    ensures r.Some? ==> r.value == CellText(rt, c)
  {
    if Truthy(c) then Some(CellText(rt, c)) else None
  }

  /** `cell ? String(cell).trim() : null` */
  function TrimmedOrNull(rt: JsRuntime, c: Cell): (r: Option<string>)
    ensures r.Some? <==> Truthy(c)
    ensures r.Some? ==> r.value == Trim(CellText(rt, c))
  {
    if Truthy(c) then Some(Trim(CellText(rt, c))) else None
  }

  /** `!name` is false: present and not empty. */
  predicate Named(name: Option<string>) {
    name.Some? && name.value != ""
  }

  // ---------------------------------------------------------------------
  // Lookups

  /** A row of a lookup table: an id and the name or code it is found by. */
  datatype Ref = Ref(id: int, key: string)

  datatype Lookups = Lookups(categories: seq<Ref>, projets: seq<Ref>, contacts: seq<Ref>, comptes: seq<Ref>)

  /** Index k holds the first row whose key is `key`. */
  predicate FirstWithKey(refs: seq<Ref>, key: string, k: int) {
    0 <= k < |refs| && refs[k].key == key && forall j :: 0 <= j < k ==> refs[j].key != key
  }

  /** `refs.find((r) => r.key === key)?.id || null`: the id of the first row
      with that key, unless there is none or its id is 0. */
  function LookupId(refs: seq<Ref>, key: string): (r: Option<int>)
    ensures r.Some? <==> exists k :: FirstWithKey(refs, key, k) && refs[k].id != 0
    ensures r.Some? ==> r.value != 0 && exists k :: FirstWithKey(refs, key, k) && refs[k].id == r.value
  {
    if refs == [] then None
    else if refs[0].key == key then
      assert FirstWithKey(refs, key, 0);
      if refs[0].id != 0 then Some(refs[0].id) else None
    else
      var r := LookupId(refs[1..], key);
      assert forall k :: FirstWithKey(refs, key, k) <==> k >= 1 && FirstWithKey(refs[1..], key, k - 1);
      r
  }

  const CategoryMap: map<string, string> := map[
    "Bureau" := "Bureau",
    "Bureau - Logiciel" := "Bureau – Logiciel",
    "Part Actionnaire" := "Part actionnaire",
    "Services Professionnels" := "Services professionnels",
    "Frais bancaires" := "Frais bancaires",
    "Transport" := "Transport",
    "Event" := "Événement",
    "Dépense Actionnaire" := "Dépense actionnaire",
    "Hotel/Logement" := "Hôtel / Logement",
    "Gouv." := "Gouvernement",
    "Équipement" := "Équipement",
    "Remboursement" := "Remboursement",
    "Transfert interne" := "Transfert interne",
    "Revenu client" := "Revenu client"]

  const ProjetMap: map<string, string> := map[
    "Général" := "Général",
    "Tonic" := "Tonic",
    "GTCQM PWA" := "Tonic",
    "WF" := "WF",
    "OAN" := "OAN",
    "CARI" := "CARI",
    "EISL" := "EISL",
    "JR" := "JR",
    "Aqua - FA" := "FA",
    "FA" := "FA",
    "WE ARE" := "WE ARE",
    "CTV" := "CTV",
    "CTV-EVP" := "CTV",
    "CTV-TA" := "CTV"]

  const CompteMap: map<string, string> := map[
    "BN Mastercard" := "MC",
    "Cpte 1-20" := "CPT-20",
    "Cpte 2-24" := "CPT-24",
    "Cpte 2-21" := "CPT-21",
    "Wise Visa" := "WISE"]

  const ContactMap: map<string, string> := map[
    "Vrginie Jaffredo" := "Virginie Jaffredo",
    "Virginie Jaffredo" := "Virginie Jaffredo"]

  const ModeMap: map<string, string> := map[
    "Mastercard" := "Mastercard",
    "Dépôt direct" := "Dépôt direct",
    "Virement interac" := "Virement Interac",
    "Visa - Cpte Wise" := "Visa Wise",
    "Frais bancaires" := "Débit",
    "Transport" := "Débit",
    "Dépense Actionnaire" := "Dépôt direct",
    "Hotel/Logement" := "Mastercard"]

  /** `MAP[name] || name`: every value of the tables is non-empty. */
  function Mapped(m: map<string, string>, name: string): string {
    if name in m then m[name] else name
  }

  /** `findCategoryId` */
  function FindCategoryId(lk: Lookups, name: Option<string>): (r: Option<int>)
    ensures !Named(name) ==> r == None
    ensures Named(name) ==> r == LookupId(lk.categories, Mapped(CategoryMap, name.value))
  {
    if !Named(name) then None else LookupId(lk.categories, Mapped(CategoryMap, name.value))
  }

  /** `findProjetId` */
  function FindProjetId(lk: Lookups, name: Option<string>): (r: Option<int>)
    ensures !Named(name) ==> r == None
    ensures Named(name) ==> r == LookupId(lk.projets, Mapped(ProjetMap, name.value))
  {
    if !Named(name) then None else LookupId(lk.projets, Mapped(ProjetMap, name.value))
  }

  /** The two names match loosely: either lower-cased name contains the other. */
  predicate LooseMatch(nom: string, mapped: string) {
    Contains(Lower(nom), Lower(mapped)) || Contains(Lower(mapped), Lower(nom))
  }

  /** Index k holds the first contact that loosely matches. */
  predicate FirstLoose(refs: seq<Ref>, mapped: string, k: int) {
    0 <= k < |refs| && LooseMatch(refs[k].key, mapped) && forall j :: 0 <= j < k ==> !LooseMatch(refs[j].key, mapped)
  }

  /** `contacts.find(loose match)?.id || null` */
  function LooseLookupId(refs: seq<Ref>, mapped: string): (r: Option<int>)
    ensures r.Some? <==> exists k :: FirstLoose(refs, mapped, k) && refs[k].id != 0
    ensures r.Some? ==> r.value != 0 && exists k :: FirstLoose(refs, mapped, k) && refs[k].id == r.value
  {
    if refs == [] then None
    else if LooseMatch(refs[0].key, mapped) then
      assert FirstLoose(refs, mapped, 0);
      if refs[0].id != 0 then Some(refs[0].id) else None
    else
      var r := LooseLookupId(refs[1..], mapped);
      assert forall k :: FirstLoose(refs, mapped, k) <==> k >= 1 && FirstLoose(refs[1..], mapped, k - 1);
      r
  }

  /** The index of the first row with that key. */
  function FirstIndex(refs: seq<Ref>, key: string): (r: Option<nat>)
    ensures r.Some? ==> FirstWithKey(refs, key, r.value)
    ensures r.None? ==> forall k :: 0 <= k < |refs| ==> refs[k].key != key
  {
    if refs == [] then None
    else if refs[0].key == key then Some(0)
    else
      match FirstIndex(refs[1..], key)
      case None => None
      case Some(j) =>
        assert refs[j + 1] == refs[1..][j];
        Some(j + 1)
  }

  /** `findContactId`: the exact match is returned as found, even with id 0;
      without one, the first loose match, 0 reading as none. */
  function FindContactId(lk: Lookups, name: Option<string>): (r: Option<int>)
    ensures !Named(name) ==> r == None
    ensures Named(name) ==>
              var mapped := Mapped(ContactMap, name.value);
              (forall k :: FirstWithKey(lk.contacts, mapped, k) ==> r == Some(lk.contacts[k].id))
              && ((forall k :: 0 <= k < |lk.contacts| ==> lk.contacts[k].key != mapped) ==>
                    r == LooseLookupId(lk.contacts, mapped))
  {
    if !Named(name) then None
    else
      var mapped := Mapped(ContactMap, name.value);
      match FirstIndex(lk.contacts, mapped)
      case Some(k) => Some(lk.contacts[k].id)
      case None => LooseLookupId(lk.contacts, mapped)
  }

  /** `findCompteId`: a name of the alias table is looked up by its code
      only; any other name by itself. */
  function FindCompteId(lk: Lookups, name: Option<string>): (r: Option<int>)
    ensures !Named(name) ==> r == None
    ensures Named(name) && name.value in CompteMap ==> r == LookupId(lk.comptes, CompteMap[name.value])
    ensures Named(name) && name.value !in CompteMap ==> r == LookupId(lk.comptes, name.value)
  {
    if !Named(name) then None
    else if name.value !in CompteMap then LookupId(lk.comptes, name.value)
    else LookupId(lk.comptes, CompteMap[name.value])
  }

  /** Every alias table sends its targets to themselves, so a name and the
      canonical name it is translated to resolve to the same row. */
  lemma {:induction false} CanonicalNamesResolveAlike(lk: Lookups, name: string)
    requires name != ""
    ensures FindCategoryId(lk, Some(Mapped(CategoryMap, name))) == FindCategoryId(lk, Some(name))
    ensures FindProjetId(lk, Some(Mapped(ProjetMap, name))) == FindProjetId(lk, Some(name))
    ensures FindContactId(lk, Some(Mapped(ContactMap, name))) == FindContactId(lk, Some(name))
    ensures name in CompteMap ==> FindCompteId(lk, Some(CompteMap[name])) == FindCompteId(lk, Some(name))
  {
    CategoryTargetsFixed(name);
    ProjetTargetsFixed(name);
    ContactTargetsFixed(name);
    CompteTargetsAreCodes(name);
  }

  lemma CategoryTargetsFixed(name: string)
    requires name != ""
    ensures Mapped(CategoryMap, name) != "" && Mapped(CategoryMap, Mapped(CategoryMap, name)) == Mapped(CategoryMap, name)
  {
    assert forall v :: v in CategoryMap.Values ==> Mapped(CategoryMap, v) == v;
  }

  lemma ProjetTargetsFixed(name: string)
    requires name != ""
    ensures Mapped(ProjetMap, name) != "" && Mapped(ProjetMap, Mapped(ProjetMap, name)) == Mapped(ProjetMap, name)
  {
    assert forall v :: v in ProjetMap.Values ==> Mapped(ProjetMap, v) == v;
  }

  lemma ContactTargetsFixed(name: string)
    requires name != ""
    ensures Mapped(ContactMap, name) != "" && Mapped(ContactMap, Mapped(ContactMap, name)) == Mapped(ContactMap, name)
  {
    assert forall v :: v in ContactMap.Values ==> Mapped(ContactMap, v) == v;
  }

  lemma CompteTargetsAreCodes(name: string)
    ensures name in CompteMap ==> CompteMap[name] != "" && CompteMap[name] !in CompteMap
  {
  }

  /** An account name that is an alias is never matched against the codes
      directly: with no account carrying the alias's code the result is null,
      even when an account's code equals the alias itself. */
  lemma {:induction false} CompteAliasNoRawFallback(lk: Lookups, name: string)
    requires name in CompteMap
    requires forall c :: c in lk.comptes ==> c.key != CompteMap[name]
    ensures FindCompteId(lk, Some(name)) == None
  {
    assert name != "";
  }

  // ---------------------------------------------------------------------
  // Numbers

  /** `s.replace(/\s/g, "")` */
  function RemoveWhitespace(s: string): (r: string)
    ensures |r| <= |s|
    ensures forall i :: 0 <= i < |r| ==> !IsJsWhitespace(r[i])
    ensures (forall i :: 0 <= i < |s| ==> !IsJsWhitespace(s[i])) ==> r == s
  {
    if s == [] then []
    else if IsJsWhitespace(s[0]) then RemoveWhitespace(s[1..])
    else [s[0]] + RemoveWhitespace(s[1..])
  }

  /** `s.replace(",", ".")`: only the first comma becomes a point. */
  function ReplaceFirstComma(s: string): (r: string)
    ensures |r| == |s|
  {
    if s == [] then []
    else if s[0] == ',' then "." + s[1..]
    else [s[0]] + ReplaceFirstComma(s[1..])
  }

  /** Text without a comma is left as it is. */
  lemma {:induction false} ReplaceNoComma(s: string)
    requires ',' !in s
    ensures ReplaceFirstComma(s) == s
  {
    if s != [] {
      assert ',' !in s[1..] by {
        assert forall c :: c in s[1..] ==> c in s;
      }
      ReplaceNoComma(s[1..]);
    }
  }

  /** The first comma, at k, becomes a point and nothing else changes. */
  lemma {:induction false} ReplaceAtFirst(s: string, k: nat)
    requires k < |s| && s[k] == ',' && ',' !in s[..k]
    ensures ReplaceFirstComma(s) == s[..k] + "." + s[k + 1..]
  {
    if k > 0 {
      assert s[0] == s[..k][0];
      assert s[1..][..k - 1] == s[..k][1..];
      assert ',' !in s[1..][..k - 1] by {
        assert forall c :: c in s[..k][1..] ==> c in s[..k];
      }
      ReplaceAtFirst(s[1..], k - 1);
      assert s[1..][k - 1 + 1..] == s[k + 1..];
      assert s[..k] == [s[0]] + s[1..][..k - 1];
    }
  }

  /** `isNaN(n) ? 0 : n` */
  function NumOrZero(n: Num): real {
    match n
    case NaN => 0.0
    case Finite(v) => v
  }

  /** `parseNum`: blank or absent is 0, a number is itself, text is read by
      `parseFloat` after removing white space and turning the first comma
      into a point, 0 when unreadable. */
  function ParseNum(rt: JsRuntime, c: Cell): (r: real)
    ensures c.Missing? || c == TextCell("") ==> r == 0.0
    ensures c.NumCell? ==> r == c.n
    ensures (c.TextCell? && c.s != "") || c.BoolCell? ==>
              r == NumOrZero(rt.parseFloat(ReplaceFirstComma(RemoveWhitespace(CellText(rt, c)))))
  {
    match c
    case Missing => 0.0
    case NumCell(n) => n
    case _ =>
      if c == TextCell("") then 0.0
      else NumOrZero(rt.parseFloat(ReplaceFirstComma(RemoveWhitespace(CellText(rt, c)))))
  }

  /** `!serial || typeof serial !== "number"` is false: a non-zero number. */
  predicate IsDateSerial(c: Cell) {
    c.NumCell? && c.n != 0.0
  }

  /** `excelDateToISO`: null for anything but a non-zero number. */
  function ExcelDateToIso(c: Cell): (r: IsoResult)
    ensures !IsDateSerial(c) <==> r.NoDate?
    ensures IsDateSerial(c) ==> r == SerialToIso(c.n)
  {
    if IsDateSerial(c) then SerialToIso(c.n) else NoDate
  }

  // ---------------------------------------------------------------------
  // Projects of an expense

  /** The id a trimmed part resolves to, if any. */
  function ResolvePart(lk: Lookups, p: string): (r: Option<int>)
    ensures r.Some? ==> r.value != 0
  {
    FindProjetId(lk, Some(Trim(p)))
  }

  /** What each part resolves to, in order. */
  function Resolutions(lk: Lookups, parts: seq<string>): (rs: seq<Option<int>>)
    ensures |rs| == |parts|
    ensures forall i :: 0 <= i < |parts| ==> rs[i] == ResolvePart(lk, parts[i])
  {
    seq(|parts|, i requires 0 <= i < |parts| => ResolvePart(lk, parts[i]))
  }

  /** The values of the present entries, in order: the ids that
      `if (pid) ids.push(pid)` keeps, the periods whose insert is tried. */
  function Somes<T>(rs: seq<Option<T>>): (vs: seq<T>)
    ensures |vs| <= |rs|
  {
    if rs == [] then []
    else
      var front := Somes(rs[..|rs| - 1]);
      var last := rs[|rs| - 1];
      if last.Some? then front + [last.value] else front
  }

  /** One more entry at the end keeps its value, if present. */
  lemma SomesStep<T>(rs: seq<Option<T>>, n: nat)
    requires n < |rs|
    ensures Somes(rs[..n + 1]) == Somes(rs[..n]) + (if rs[n].Some? then [rs[n].value] else [])
  {
    assert rs[..n + 1][..n] == rs[..n];
  }

  /** A value is kept exactly when some entry holds it. */
  lemma {:induction false} SomesMembers<T>(rs: seq<Option<T>>, v: T)
    ensures v in Somes(rs) <==> Some(v) in rs
  {
    if rs != [] {
      var front := rs[..|rs| - 1];
      SomesMembers(front, v);
      assert rs == front + [rs[|rs| - 1]];
    }
  }

  /** Nothing kept exactly when nothing is present. */
  lemma {:induction false} SomesEmptyIff<T>(rs: seq<Option<T>>)
    ensures Somes(rs) == [] <==> forall i :: 0 <= i < |rs| ==> rs[i].None?
  {
    if rs != [] {
      var front := rs[..|rs| - 1];
      SomesEmptyIff(front);
      assert forall i :: 0 <= i < |front| ==> front[i] == rs[i];
    }
  }

  /** The ids the trimmed parts resolve to, in order, unresolved parts dropped. */
  function ResolveProjets(lk: Lookups, parts: seq<string>): (ids: seq<int>)
    ensures |ids| <= |parts|
    ensures forall k :: 0 <= k < |ids| ==> ids[k] != 0
  {
    var rs := Resolutions(lk, parts);
    var ids := Somes(rs);
    assert forall k :: 0 <= k < |ids| ==> ids[k] != 0 by {
      forall k | 0 <= k < |ids|
        ensures ids[k] != 0
      {
        SomesMembers(rs, ids[k]);
      }
    }
    ids
  }

  /** No id at all exactly when no part resolves. */
  lemma ResolvedNoneIffUnresolved(lk: Lookups, parts: seq<string>)
    ensures ResolveProjets(lk, parts) == [] <==> forall i :: 0 <= i < |parts| ==> ResolvePart(lk, parts[i]).None?
  {
    SomesEmptyIff(Resolutions(lk, parts));
  }

  /** The loop over the parts that pushes each resolved id. */
  method CollectProjetIds(lk: Lookups, parts: seq<string>) returns (ids: seq<int>)
    ensures ids == ResolveProjets(lk, parts)
  {
    ids := [];
    for i := 0 to |parts|
      invariant ids == Somes(Resolutions(lk, parts[..i]))
    {
      var pid := ResolvePart(lk, parts[i]);
      assert Resolutions(lk, parts[..i + 1])[..i] == Resolutions(lk, parts[..i]);
      if pid.Some? {
        ids := ids + [pid.value];
      }
    }
    assert parts[..|parts|] == parts;
  }

  /** The projects of an expense row: its project cell split on commas. */
  function ProjetIds(lk: Lookups, projetRaw: Option<string>): seq<int> {
    if Named(projetRaw) then ResolveProjets(lk, Split(projetRaw.value, ',')) else []
  }

  /** A cell without a comma resolves to at most the one project
      `findProjetId` finds for it, as the revenue sheet does. */
  lemma {:induction false} SingleProjet(lk: Lookups, raw: string)
    requires raw != "" && ',' !in raw
    ensures var id := FindProjetId(lk, Some(Trim(raw)));
            ProjetIds(lk, Some(raw)) == if id.Some? then [id.value] else []
  {
    SplitWithoutSeparator(raw, ',');
    assert ProjetIds(lk, Some(raw)) == ResolveProjets(lk, [raw]);
    ResolveOne(lk, raw);
  }

  lemma ResolveOne(lk: Lookups, p: string)
    ensures var id := FindProjetId(lk, Some(Trim(p)));
            ResolveProjets(lk, [p]) == if id.Some? then [id.value] else []
  {
    assert Resolutions(lk, [p])[..0] == [];
  }

  // ---------------------------------------------------------------------
  // Rows

  /** What one row of a transaction sheet inserts. */
  datatype NewTx = NewTx(
    date_transaction: string, kind: TxType, numero: Option<string>, description: Option<string>,
    categorie_id: Option<int>, projet_id: Option<int>, contact_id: Option<int>, compte_id: Option<int>,
    mode_paiement: string, montant_ht: real, tps: real, tvq: real, total_ttc: real, taxable: bool,
    statut_facture: Option<string>, date_paiement: Option<string>, numero_facture: Option<string>)

  /** A row is skipped, inserted (with the project links written for an
      expense split over several projects), or stops the script: a date
      beyond the range of JavaScript dates throws outside the try block. */
  datatype RowOutcome = Skipped | Insert(tx: NewTx, links: seq<int>) | Crash

  /** `MODE_MAP[mode] || mode || "Autre"` */
  function ModeOf(mode: Option<string>): (r: string)
    ensures mode.Some? && mode.value in ModeMap ==> r == ModeMap[mode.value]
    ensures !Named(mode) ==> r == "Autre"
    ensures Named(mode) && mode.value !in ModeMap ==> r == mode.value
  {
    if mode.Some? && mode.value in ModeMap then ModeMap[mode.value]
    else if Named(mode) then mode.value
    else "Autre"
  }

  /** One row of the expense sheet (columns: date, number, receipt,
      category, project, total, TPS, TVQ, pre-tax, payment mode, account,
      supplier). */
  function DepenseRow(rt: JsRuntime, lk: Lookups, row: Row): (o: RowOutcome)
    ensures !IsDateSerial(At(row, 0)) ==> o == Skipped
    ensures IsDateSerial(At(row, 0)) && SerialToIso(At(row, 0).n).RangeError? ==> o == Crash
    ensures IsDateSerial(At(row, 0)) && !SerialToIso(At(row, 0).n).RangeError? ==>
              (o == Skipped <==> ParseNum(rt, At(row, 5)) == 0.0 && ParseNum(rt, At(row, 8)) == 0.0)
    ensures (IsDateSerial(At(row, 0)) && !SerialToIso(At(row, 0).n).RangeError?
             && !(ParseNum(rt, At(row, 5)) == 0.0 && ParseNum(rt, At(row, 8)) == 0.0)) ==> o.Insert?
    ensures o.Insert? ==>
              o.tx.kind == Depense && o.tx.date_transaction == SerialToIso(At(row, 0).n).text
              && o.tx.total_ttc == ParseNum(rt, At(row, 5)) && o.tx.tps == ParseNum(rt, At(row, 6))
              && o.tx.tvq == ParseNum(rt, At(row, 7)) && o.tx.montant_ht == ParseNum(rt, At(row, 8))
              && (o.tx.taxable <==> o.tx.tps > 0.0 || o.tx.tvq > 0.0)
    ensures o.Insert? ==>
              o.tx.numero == TextOrNull(rt, At(row, 1)) && o.tx.description == TextOrNull(rt, At(row, 2))
              && o.tx.categorie_id == FindCategoryId(lk, TrimmedOrNull(rt, At(row, 3)))
              && o.tx.mode_paiement == ModeOf(TrimmedOrNull(rt, At(row, 9)))
              && o.tx.compte_id == FindCompteId(lk, TrimmedOrNull(rt, At(row, 10)))
              && o.tx.contact_id == FindContactId(lk, TrimmedOrNull(rt, At(row, 11)))
              && o.tx.statut_facture == None && o.tx.date_paiement == None && o.tx.numero_facture == None
    ensures o.Insert? ==>
              var ids := ProjetIds(lk, TrimmedOrNull(rt, At(row, 4)));
              o.tx.projet_id == (if ids == [] then None else Some(ids[0]))
              && o.links == (if |ids| > 1 then ids else [])
  {
    var dateCell := At(row, 0);
    if !IsDateSerial(dateCell) then Skipped
    else
      var iso := SerialToIso(dateCell.n);
      if iso.RangeError? then Crash
      else
        var numero := TextOrNull(rt, At(row, 1));
        var description := TextOrNull(rt, At(row, 2));
        var categorie := TrimmedOrNull(rt, At(row, 3));
        var projetRaw := TrimmedOrNull(rt, At(row, 4));
        var totalTtc := ParseNum(rt, At(row, 5));
        var tps := ParseNum(rt, At(row, 6));
        var tvq := ParseNum(rt, At(row, 7));
        var totalHt := ParseNum(rt, At(row, 8));
        var modePaiement := TrimmedOrNull(rt, At(row, 9));
        var compteBancaire := TrimmedOrNull(rt, At(row, 10));
        var fournisseur := TrimmedOrNull(rt, At(row, 11));
        if totalTtc == 0.0 && totalHt == 0.0 then Skipped
        else
          var ids := ProjetIds(lk, projetRaw);
          var main := if ids == [] then None else Some(ids[0]);
          Insert(NewTx(iso.text, Depense, numero, description, FindCategoryId(lk, categorie), main,
              FindContactId(lk, fournisseur), FindCompteId(lk, compteBancaire), ModeOf(modePaiement),
              totalHt, tps, tvq, totalTtc, tps > 0.0 || tvq > 0.0, None, None, None),
            if |ids| > 1 then ids else [])
  }

  /** One row of the revenue sheet (columns: date, invoice number, client,
      project, entity, total, TPS, TVQ, pre-tax, status, number, payment
      date, account). */
  function RevenuRow(rt: JsRuntime, lk: Lookups, row: Row): (o: RowOutcome)
    ensures !IsDateSerial(At(row, 0)) ==> o == Skipped
    ensures IsDateSerial(At(row, 0)) && SerialToIso(At(row, 0).n).RangeError? ==> o == Crash
    ensures IsDateSerial(At(row, 0)) && !SerialToIso(At(row, 0).n).RangeError? ==>
              (o == Skipped <==> ParseNum(rt, At(row, 5)) == 0.0 && ParseNum(rt, At(row, 8)) == 0.0)
    ensures (IsDateSerial(At(row, 0)) && !SerialToIso(At(row, 0).n).RangeError?
             && !(ParseNum(rt, At(row, 5)) == 0.0 && ParseNum(rt, At(row, 8)) == 0.0)) ==>
              (o == Crash <==> ExcelDateToIso(At(row, 11)).RangeError?)
              && (!ExcelDateToIso(At(row, 11)).RangeError? ==> o.Insert?)
    ensures o.Insert? ==>
              o.tx.tps == ParseNum(rt, At(row, 6)) && o.tx.tvq == ParseNum(rt, At(row, 7))
              && o.tx.contact_id == FindContactId(lk, TrimmedOrNull(rt, At(row, 2)))
              && o.tx.statut_facture == TrimmedOrNull(rt, At(row, 9)) && o.tx.numero == TextOrNull(rt, At(row, 10))
              && o.tx.compte_id == FindCompteId(lk, TrimmedOrNull(rt, At(row, 12)))
    ensures o.Insert? ==>
              o.tx.kind == Revenu && o.tx.mode_paiement == "Virement Interac" && o.links == []
              && o.tx.date_transaction == SerialToIso(At(row, 0).n).text
              && o.tx.description == o.tx.numero_facture && o.tx.numero_facture == TrimmedOrNull(rt, At(row, 1))
              && o.tx.categorie_id == FindCategoryId(lk, Some("Revenu client"))
              && o.tx.projet_id == FindProjetId(lk, TrimmedOrNull(rt, At(row, 3)))
              && o.tx.total_ttc == ParseNum(rt, At(row, 5)) && o.tx.montant_ht == ParseNum(rt, At(row, 8))
              && (o.tx.taxable <==> o.tx.tps > 0.0 || o.tx.tvq > 0.0)
    ensures o.Insert? ==>
              var paid := ExcelDateToIso(At(row, 11));
              !paid.RangeError? && (paid.NoDate? ==> o.tx.date_paiement == None)
              && (paid.IsoDate? ==> o.tx.date_paiement == Some(paid.text))
  {
    var dateCell := At(row, 0);
    if !IsDateSerial(dateCell) then Skipped
    else
      var iso := SerialToIso(dateCell.n);
      if iso.RangeError? then Crash
      else
        var numeroFacture := TrimmedOrNull(rt, At(row, 1));
        var client := TrimmedOrNull(rt, At(row, 2));
        var projetRaw := TrimmedOrNull(rt, At(row, 3));
        var totalTtc := ParseNum(rt, At(row, 5));
        var tps := ParseNum(rt, At(row, 6));
        var tvq := ParseNum(rt, At(row, 7));
        var totalHt := ParseNum(rt, At(row, 8));
        var statut := TrimmedOrNull(rt, At(row, 9));
        var numero := TextOrNull(rt, At(row, 10));
        var compteBancaire := TrimmedOrNull(rt, At(row, 12));
        if totalTtc == 0.0 && totalHt == 0.0 then Skipped
        else
          var paid := ExcelDateToIso(At(row, 11));
          if paid.RangeError? then Crash
          else
            var datePaiement := if paid.IsoDate? then Some(paid.text) else None;
            Insert(NewTx(iso.text, Revenu, numero, numeroFacture, FindCategoryId(lk, Some("Revenu client")),
                FindProjetId(lk, projetRaw), FindContactId(lk, client), FindCompteId(lk, compteBancaire),
                "Virement Interac", totalHt, tps, tvq, totalTtc, tps > 0.0 || tvq > 0.0,
                statut, datePaiement, numeroFacture),
              [])
  }

  // ---------------------------------------------------------------------
  // The sheet loops

  /** What the database does with each write of one sheet: `txOk(i)` is
      whether the transaction insert of row i succeeds, `linkOk(i)(k)`
      whether the k-th project-junction insert of row i does. */
  datatype Db = Db(txOk: nat -> bool, linkOk: nat -> nat -> bool)

  /** The loop's counters and the transactions it wrote. */
  datatype Run = Run(imported: nat, skipped: nat, errors: nat, crashed: bool, written: seq<NewTx>)

  /** The junction inserts 0 .. n - 1 of row i all succeed. */
  predicate LinksOk(db: Db, i: nat, n: nat) {
    forall k :: 0 <= k < n ==> db.linkOk(i)(k)
  }

  /** Row i accounted for. An insert writes the transaction, then each of
      its junctions; the first write that fails ends the row as an error,
      and a transaction written before a failing junction stays written. */
  function Account(r: Run, o: RowOutcome, db: Db, i: nat): Run {
    match o
    case Skipped => r.(skipped := r.skipped + 1)
    case Crash => r.(crashed := true)
    case Insert(tx, links) =>
      if !db.txOk(i) then r.(errors := r.errors + 1)
      else if LinksOk(db, i, |links|) then r.(imported := r.imported + 1, written := r.written + [tx])
      else r.(errors := r.errors + 1, written := r.written + [tx])
  }

  /** The counters after the outcomes of rows first, first + 1, ...; the run
      stops at the first crash. */
  function RunOf(outs: seq<RowOutcome>, db: Db, first: nat): Run {
    if outs == [] then Run(0, 0, 0, false, [])
    else
      var r := RunOf(outs[..|outs| - 1], db, first);
      if r.crashed then r else Account(r, outs[|outs| - 1], db, first + |outs| - 1)
  }

  /** Every row before the stop is counted exactly once, as imported, skipped
      or failed; every imported row wrote its transaction, and every other
      written transaction belongs to a failed row; the run stops exactly
      when some row crashes. */
  lemma {:induction false} RunAccounting(outs: seq<RowOutcome>, db: Db, first: nat)
    ensures var r := RunOf(outs, db, first);
            r.imported <= |r.written| <= r.imported + r.errors
            && (r.crashed <==> Crash in outs)
            && (!r.crashed ==> r.imported + r.skipped + r.errors == |outs|)
            && (r.crashed ==> r.imported + r.skipped + r.errors < |outs|)
  {
    if outs != [] {
      var init := outs[..|outs| - 1];
      RunAccounting(init, db, first);
      assert forall o :: o in outs <==> o in init || o == outs[|outs| - 1];
    }
  }

  /** While every junction insert succeeds, the written transactions are
      exactly those of the imported rows. */
  lemma {:induction false} LinkedRunWritesImported(outs: seq<RowOutcome>, db: Db, first: nat)
    requires forall i: nat, k: nat :: db.linkOk(i)(k)
    ensures RunOf(outs, db, first).imported == |RunOf(outs, db, first).written|
  {
    if outs != [] {
      LinkedRunWritesImported(outs[..|outs| - 1], db, first);
    }
  }

  /** A split expense whose transaction is written but whose first junction
      fails counts as an error and still leaves its transaction behind. */
  lemma {:induction false} PartialRowStaysWritten(tx: NewTx, links: seq<int>, db: Db, i: nat)
    requires |links| > 1 && db.txOk(i) && !db.linkOk(i)(0)
    ensures RunOf([Insert(tx, links)], db, i) == Run(0, 0, 1, false, [tx])
  {
    assert [Insert(tx, links)][..0] == [];
    assert !LinksOk(db, i, |links|);
  }

  /** The outcomes of the rows from index 4 on. */
  function Outcomes(rt: JsRuntime, lk: Lookups, sheet: seq<Row>, revenue: bool): (outs: seq<RowOutcome>)
    ensures |outs| == if |sheet| > 4 then |sheet| - 4 else 0
  {
    if |sheet| <= 4 then []
    else seq(|sheet| - 4, k requires 0 <= k < |sheet| - 4 =>
           if revenue then RevenuRow(rt, lk, sheet[k + 4]) else DepenseRow(rt, lk, sheet[k + 4]))
  }

  /** `importDepenses` (revenue false) and `importRevenus` (revenue true):
      the rows from index 4, each row's outcome counted as it comes. */
  method ImportSheet(rt: JsRuntime, lk: Lookups, sheet: seq<Row>, revenue: bool, db: Db)
    returns (imported: nat, skipped: nat, errors: nat, crashed: bool, written: seq<NewTx>)
    ensures Run(imported, skipped, errors, crashed, written) == RunOf(Outcomes(rt, lk, sheet, revenue), db, 4)
  {
    var outs := Outcomes(rt, lk, sheet, revenue);
    imported, skipped, errors, crashed, written := CountRows(outs, db);
  }

  /** The counting loop of `importDepenses` and `importRevenus`: `outs[j]` is
      the outcome of row 4 + j, and the loop stops at the first crash. */
  method CountRows(outs: seq<RowOutcome>, db: Db)
    returns (imported: nat, skipped: nat, errors: nat, crashed: bool, written: seq<NewTx>)
    ensures Run(imported, skipped, errors, crashed, written) == RunOf(outs, db, 4)
  {
    imported, skipped, errors, crashed, written := 0, 0, 0, false, [];
    var j := 0;
    while j < |outs| && !crashed
      invariant 0 <= j <= |outs|
      invariant Run(imported, skipped, errors, crashed, written) == RunOf(outs[..j], db, 4)
    {
      var o := outs[j];
      RunOfStep(outs, db, j);
      match o {
        case Skipped =>
          skipped := skipped + 1;
        case Crash =>
          crashed := true;
        case Insert(tx, links) =>
          if db.txOk(4 + j) {
            written := written + [tx];
            var linked := WriteLinks(db, 4 + j, |links|);
            if linked {
              imported := imported + 1;
            } else {
              errors := errors + 1;
            }
          } else {
            errors := errors + 1;
          }
      }
      j := j + 1;
    }
    if crashed {
      CrashSticks(outs, db, j);
    } else {
      assert outs[..j] == outs;
    }
  }

  /** The junction loop of one row: the inserts 0 .. n - 1 in turn, stopped
      by the first that fails; true when none fails. */
  method WriteLinks(db: Db, i: nat, n: nat) returns (linked: bool)
    ensures linked <==> LinksOk(db, i, n)
  {
    linked := true;
    var k := 0;
    while k < n && linked
      invariant 0 <= k <= n
      invariant linked <==> LinksOk(db, i, k)
    {
      linked := db.linkOk(i)(k);
      k := k + 1;
    }
  }

  /** The run after one more row. */
  lemma {:induction false} RunOfStep(outs: seq<RowOutcome>, db: Db, n: nat)
    requires n < |outs|
    ensures var r := RunOf(outs[..n], db, 4);
            RunOf(outs[..n + 1], db, 4) == if r.crashed then r else Account(r, outs[n], db, 4 + n)
  {
    assert outs[..n + 1][..n] == outs[..n];
  }

  /** Once crashed, the run stays as it was. */
  lemma {:induction false} CrashSticks(outs: seq<RowOutcome>, db: Db, n: nat)
    requires n <= |outs| && RunOf(outs[..n], db, 4).crashed
    ensures RunOf(outs, db, 4) == RunOf(outs[..n], db, 4)
    decreases |outs| - n
  {
    if n < |outs| {
      assert outs[..n + 1][..n] == outs[..n];
      CrashSticks(outs, db, n + 1);
    } else {
      assert outs[..n] == outs;
    }
  }

  /** What the whole script reports: the expense run, then the revenue run
      and the tax count when the script got that far. */
  datatype Report = Report(depenses: Run, revenus: Option<Run>, taxes: Option<nat>)

  /** `main`: expenses, then revenue, then taxes, in that order; a crash
      ends the script, so a date out of range in either transaction sheet
      leaves the later sheets unimported. */
  method ImportAll(rt: JsRuntime, lk: Lookups, depenses: seq<Row>, revenus: seq<Row>, taxes: Option<seq<Row>>,
                   depensesDb: Db, revenusDb: Db, taxesOk: nat -> bool)
    returns (report: Report)
    ensures report.depenses == RunOf(Outcomes(rt, lk, depenses, false), depensesDb, 4)
    ensures report.revenus.Some? <==> Crash !in Outcomes(rt, lk, depenses, false)
    ensures report.revenus.Some? ==> report.revenus.value == RunOf(Outcomes(rt, lk, revenus, true), revenusDb, 4)
    ensures report.taxes.Some? <==>
              Crash !in Outcomes(rt, lk, depenses, false) && Crash !in Outcomes(rt, lk, revenus, true)
    ensures report.taxes.Some? && taxes.None? ==> report.taxes.value == 0
    ensures report.taxes.Some? && taxes.Some? ==>
              report.taxes.value == CountOk(taxesOk, |Somes(TaxOutcomes(rt, taxes.value))|)
  {
    RunAccounting(Outcomes(rt, lk, depenses, false), depensesDb, 4);
    RunAccounting(Outcomes(rt, lk, revenus, true), revenusDb, 4);
    var imported, skipped, errors, crashed, written := ImportSheet(rt, lk, depenses, false, depensesDb);
    var dep := Run(imported, skipped, errors, crashed, written);
    if crashed {
      return Report(dep, None, None);
    }
    imported, skipped, errors, crashed, written := ImportSheet(rt, lk, revenus, true, revenusDb);
    var rev := Run(imported, skipped, errors, crashed, written);
    if crashed {
      return Report(dep, Some(rev), None);
    }
    var periods, _ := ImportTaxes(rt, taxes, taxesOk);
    report := Report(dep, Some(rev), Some(periods));
  }

  // ---------------------------------------------------------------------
  // Tax periods

  /** `(\d{2})\/(\d{2})-(\d{4})` matches at index k. */
  predicate PeriodAt(s: string, k: int) {
    0 <= k && k + 10 <= |s|
    && AllDigits(s[k..k + 2]) && s[k + 2] == '/' && AllDigits(s[k + 3..k + 5])
    && s[k + 5] == '-' && AllDigits(s[k + 6..k + 10])
  }

  /** The leftmost match at or after k. */
  function FindPeriod(s: string, k: nat): (r: Option<nat>)
    ensures r.Some? ==> k <= r.value && PeriodAt(s, r.value) && forall j :: k <= j < r.value ==> !PeriodAt(s, j)
    ensures r.None? ==> forall j :: k <= j ==> !PeriodAt(s, j)
    decreases |s| - k
  {
    if k + 10 > |s| then None
    else if PeriodAt(s, k) then Some(k)
    else FindPeriod(s, k + 1)
  }

  /** The date text `${year}-MM-DD`, the year printed as `String(year)`. */
  function DateText(year: nat, month: nat, day: nat): string {
    DecimalString(year) + "-" + Padded(month, 2) + "-" + Padded(day, 2)
  }

  /** The quarter's first and last day, by the if-chain on the month. */
  function QuarterRange(year: nat, month: nat): (r: (string, string))
  {
    if month <= 3 then (DateText(year, 1, 1), DateText(year, 3, 31))
    else if month <= 6 then (DateText(year, 4, 1), DateText(year, 6, 30))
    else if month <= 9 then (DateText(year, 7, 1), DateText(year, 9, 30))
    else (DateText(year, 10, 1), DateText(year, 12, 31))
  }

  /** `Math.ceil(month / 3)` */
  function CeilThird(month: nat): (q: nat)
    ensures 3 * q - 2 <= month <= 3 * q || (month == 0 && q == 0)
  {
    (month + 2) / 3
  }

  /** `${year}-T${Math.ceil(month / 3)}` */
  function QuarterLabel(year: nat, month: nat): string {
    DecimalString(year) + "-T" + DecimalString(CeilThird(month))
  }

  /** For a month 1..12 the label names quarter q and the range runs from the
      first day of month 3q - 2 to the last day of month 3q, the month lying
      in it. */
  lemma {:induction false} QuarterAgrees(year: nat, month: nat)
    requires 1 <= month <= 12
    ensures var q := CeilThird(month);
            1 <= q <= 4 && 3 * q - 2 <= month <= 3 * q
            && QuarterLabel(year, month) == DecimalString(year) + "-T" + DecimalString(q)
            && QuarterRange(year, month) == (DateText(year, 3 * q - 2, 1), DateText(year, 3 * q, DaysInMonth(year, 3 * q)))
  {
    var q := CeilThird(month);
    if month <= 3 {
      assert q == 1 && DaysInMonth(year, 3) == 31;
    } else if month <= 6 {
      assert q == 2 && DaysInMonth(year, 6) == 30;
    } else if month <= 9 {
      assert q == 3 && DaysInMonth(year, 9) == 30;
    } else {
      assert q == 4 && DaysInMonth(year, 12) == 31;
    }
  }

  /** For years 1000..9999 the quarter's dates are calendar dates in the
      extended format. */
  lemma {:induction false} QuarterDatesAreIso(year: nat, month: nat)
    requires 1000 <= year <= 9999 && 1 <= month <= 12
    ensures var q := CeilThird(month);
            QuarterRange(year, month)
            == (IsoText(Date(year, 3 * q - 2, 1)), IsoText(Date(year, 3 * q, DaysInMonth(year, 3 * q))))
  {
    DecimalIsPadded(year, 4);
    QuarterAgrees(year, month);
  }

  /** The month and the year of the `MM/DD-YYYY` match at k. */
  function PeriodMonth(s: string, k: nat): nat
    requires PeriodAt(s, k)
  {
    DigitsValue(s[k..k + 2])
  }

  function PeriodYear(s: string, k: nat): nat
    requires PeriodAt(s, k)
  {
    DigitsValue(s[k + 6..k + 10])
  }

  /** The label and the first and last day of the quarter a period text
      names, through its leftmost `MM/DD-YYYY`; none without a match. */
  function QuarterOf(periode: string): (r: Option<(string, string, string)>)
    ensures r.Some? <==> FindPeriod(periode, 0).Some?
  {
    match FindPeriod(periode, 0)
    case None => None
    case Some(k) =>
      var month := PeriodMonth(periode, k);
      var year := PeriodYear(periode, k);
      var range := QuarterRange(year, month);
      Some((QuarterLabel(year, month), range.0, range.1))
  }

  /** The quarter a period text names is the calendar quarter holding the
      month of its leftmost match, whenever that month is 1..12. */
  lemma {:induction false} QuarterOfMonth(periode: string)
    requires QuarterOf(periode).Some?
    ensures var r := QuarterOf(periode).value;
            var k := FindPeriod(periode, 0).value;
            var month := PeriodMonth(periode, k);
            var year := PeriodYear(periode, k);
            var q := CeilThird(month);
            1 <= month <= 12 ==>
              1 <= q <= 4 && 3 * q - 2 <= month <= 3 * q
              && r.0 == DecimalString(year) + "-T" + DecimalString(q)
              && r.1 == DateText(year, 3 * q - 2, 1)
              && r.2 == DateText(year, 3 * q, DaysInMonth(year, 3 * q))
  {
    var k := FindPeriod(periode, 0).value;
    var month := PeriodMonth(periode, k);
    if 1 <= month <= 12 {
      QuarterAgrees(PeriodYear(periode, k), month);
    }
  }

  /** A number with exactly w digits prints as its w-digit padded form. */
  lemma {:induction false} DecimalIsPadded(n: nat, w: nat)
    requires 1 <= w && n < Pow10(w) && (w == 1 || Pow10(w - 1) <= n)
    ensures DecimalString(n) == Padded(n, w)
  {
    if n >= 10 {
      DecimalIsPadded(n / 10, w - 1);
    } else {
      assert w == 1;
    }
  }

  /** What a tax row inserts into the fiscal periods. */
  datatype NewPeriod = NewPeriod(
    periode: string, date_debut: string, date_fin: string,
    tps_percue: real, tps_payee: real, tvq_percue: real, tvq_payee: real, reference: Option<string>)

  /** One row of the tax sheet (columns: period, TPS/TVH, TVQ, TPS received,
      ..., reference in column 7); None when the row is passed over. */
  function TaxRow(rt: JsRuntime, row: Row): Option<NewPeriod> {
    var periode := TrimmedOrNull(rt, At(row, 0)).GetOr("");
    if periode == "" then None
    else
      var tpsTvh := ParseNum(rt, At(row, 1));
      var tvq := ParseNum(rt, At(row, 2));
      if tpsTvh == 0.0 && tvq == 0.0 then None
      else
        var tpsPercue := ParseNum(rt, At(row, 3));
        var reference := TrimmedOrNull(rt, At(row, 7));
        match QuarterOf(periode)
        case None => None
        case Some(q) => Some(NewPeriod(q.0, q.1, q.2, tpsPercue, tpsTvh, tvq, tvq, reference))
  }

  /** A tax row is imported exactly when it names a period with a quarter
      and a non-zero TPS/TVH or TVQ; the period takes the quarter's label and
      dates, the TPS/TVH column as TPS paid, the TVQ column as both TVQ
      received and TVQ paid, column 3 as TPS received. */
  lemma TaxRowOutcome(rt: JsRuntime, row: Row)
    ensures var o := TaxRow(rt, row);
            var periode := TrimmedOrNull(rt, At(row, 0)).GetOr("");
            (o.Some? <==>
              periode != "" && QuarterOf(periode).Some?
              && !(ParseNum(rt, At(row, 1)) == 0.0 && ParseNum(rt, At(row, 2)) == 0.0))
            && (o.Some? ==>
              (o.value.periode, o.value.date_debut, o.value.date_fin) == QuarterOf(periode).value
              && o.value.tps_payee == ParseNum(rt, At(row, 1))
              && o.value.tvq_percue == ParseNum(rt, At(row, 2)) && o.value.tvq_payee == ParseNum(rt, At(row, 2))
              && o.value.tps_percue == ParseNum(rt, At(row, 3)) && o.value.reference == TrimmedOrNull(rt, At(row, 7)))
  {
  }

  /** What the rows from index 3 on give. */
  function TaxOutcomes(rt: JsRuntime, sheet: seq<Row>): (outs: seq<Option<NewPeriod>>)
    ensures |outs| == if |sheet| > 3 then |sheet| - 3 else 0
  {
    if |sheet| <= 3 then []
    else seq(|sheet| - 3, k requires 0 <= k < |sheet| - 3 => TaxRow(rt, sheet[k + 3]))
  }

  /** How many of the attempts 0..n-1 succeed. */
  function CountOk(ok: nat -> bool, n: nat): (c: nat)
    ensures c <= n
  {
    if n == 0 then 0 else CountOk(ok, n - 1) + (if ok(n - 1) then 1 else 0)
  }

  /** `importTaxes`: nothing without a tax sheet; otherwise every period row
      from index 3 is attempted in order, and the count is of the inserts that
      did not fail (failures are only logged; a period already present is
      left as it was and still counted). `ok(j)` says whether the j-th
      attempted insert succeeds. */
  method ImportTaxes(rt: JsRuntime, ws: Option<seq<Row>>, ok: nat -> bool)
    returns (imported: nat, attempted: seq<NewPeriod>)
    ensures ws.None? ==> imported == 0 && attempted == []
    ensures ws.Some? ==> attempted == Somes(TaxOutcomes(rt, ws.value))
    ensures imported == CountOk(ok, |attempted|) && imported <= |attempted|
  {
    imported, attempted := 0, [];
    if ws.None? {
      return;
    }
    var outs := TaxOutcomes(rt, ws.value);
    imported, attempted := TryPeriods(outs, ok);
  }

  /** The loop of `importTaxes`: `outs[j]` is what row 3 + j gives; each
      period is inserted in turn and counted when its insert succeeds. */
  method TryPeriods(outs: seq<Option<NewPeriod>>, ok: nat -> bool)
    returns (imported: nat, attempted: seq<NewPeriod>)
    ensures attempted == Somes(outs)
    ensures imported == CountOk(ok, |attempted|)
  {
    imported, attempted := 0, [];
    for j := 0 to |outs|
      invariant attempted == Somes(outs[..j])
      invariant imported == CountOk(ok, |attempted|)
    {
      SomesStep(outs, j);
      match outs[j] {
        case None =>
        case Some(p) =>
          if ok(|attempted|) {
            imported := imported + 1;
          }
          attempted := attempted + [p];
      }
    }
    assert outs[..|outs|] == outs;
  }
}
