/** The reports screen: the report type and its inputs, the query each
    report sends, and the net sales-tax figures shown with the totals. */
module Rapports {
  import opened Common
  import opened Text
  import opened QueryParams
  import ImportExcel

  /** 'mensuel' | 'trimestriel-taxes' | 'projet' | 'annuel' */
  datatype ReportType = Mensuel | TrimestrielTaxes | ParProjet | Annuel {
    function Name(): (s: string)
      ensures s != ""
    {
      match this
      case Mensuel => "mensuel"
      case TrimestrielTaxes => "trimestriel-taxes"
      case ParProjet => "projet"
      case Annuel => "annuel"
    }
  }

  /** `generate`'s query: `type` always; a monthly report adds `mois` and,
      when one is chosen, `compte`; a quarterly tax report adds `trimestre`
      and `annee`; a project report adds `projet_id` even when empty; a
      yearly report adds `annee`. */
  function ReportQuery(kind: ReportType, mois: string, trimestre: string, annee: string,
                       projetId: string, compte: string): Params
  {
    var base := [("type", kind.Name())];
    match kind
    case Mensuel => SetIf(Set(base, "mois", mois), "compte", compte)
    case TrimestrielTaxes => Set(Set(base, "trimestre", trimestre), "annee", annee)
    case ParProjet => Set(base, "projet_id", projetId)
    case Annuel => Set(base, "annee", annee)
  }

  /** The parameters the reports service reads, by report type: exactly
      those named, and nothing under any other name. */
  lemma {:induction false} ReportQueryReads(kind: ReportType, mois: string, trimestre: string, annee: string,
                                            projetId: string, compte: string, n: string)
    ensures Get(ReportQuery(kind, mois, trimestre, annee, projetId, compte), n) ==
      if n == "type" then Some(kind.Name())
      else match kind
        case Mensuel =>
          if n == "mois" then Some(mois) else if n == "compte" && compte != "" then Some(compte) else None
        case TrimestrielTaxes =>
          if n == "trimestre" then Some(trimestre) else if n == "annee" then Some(annee) else None
        case ParProjet =>
          if n == "projet_id" then Some(projetId) else None
        case Annuel =>
          if n == "annee" then Some(annee) else None
  {
    var base: Params := [("type", kind.Name())];
    assert Get(base, n) == if n == "type" then Some(kind.Name()) else None by {
      assert base[1..] == [];
    }
    match kind {
      case Mensuel =>
        var p := Set(base, "mois", mois);
        if n != "mois" {
          SetKeepsOthers(base, "mois", mois, n);
        }
        GetSetIf(p, "compte", compte, n);
      case TrimestrielTaxes =>
        var p := Set(base, "trimestre", trimestre);
        if n != "trimestre" {
          SetKeepsOthers(base, "trimestre", trimestre, n);
        }
        if n != "annee" {
          SetKeepsOthers(p, "annee", annee, n);
        }
      case ParProjet =>
        if n != "projet_id" {
          SetKeepsOthers(base, "projet_id", projetId, n);
        }
      case Annuel =>
        if n != "annee" {
          SetKeepsOthers(base, "annee", annee, n);
        }
    }
  }

  /** The first pair of every report query is its type. */
  lemma TypeComesFirst(kind: ReportType, mois: string, trimestre: string, annee: string,
                       projetId: string, compte: string)
    ensures var q := ReportQuery(kind, mois, trimestre, annee, projetId, compte);
            |q| >= 1 && q[0] == ("type", kind.Name())
  {
    var base: Params := [("type", kind.Name())];
    GetNoneIffAbsent(base, "mois");
    GetNoneIffAbsent(base, "trimestre");
    GetNoneIffAbsent(base, "projet_id");
    GetNoneIffAbsent(base, "annee");
    assert base[1..] == [];
    match kind {
      case Mensuel =>
        var p := Set(base, "mois", mois);
        assert p == base + [("mois", mois)];
        if compte != "" {
          GetNoneIffAbsent(p, "compte");
          assert p[1..][1..] == [];
        }
      case TrimestrielTaxes =>
        var p := Set(base, "trimestre", trimestre);
        assert p == base + [("trimestre", trimestre)];
        GetNoneIffAbsent(p, "annee");
        assert p[1..][1..] == [];
      case ParProjet =>
      case Annuel =>
    }
  }

  // ---------------------------------------------------------------------
  // Totals

  /** The totals a report returns; a figure the report does not carry is
      None (`undefined`), and `Number(undefined)` is NaN. */
  datatype Totaux = Totaux(
    revenus: Option<real>, depenses: Option<real>,
    tps_percue: Option<real>, tps_payee: Option<real>,
    tvq_percue: Option<real>, tvq_payee: Option<real>)

  /** The net figures appear only when the report carries `tps_percue`. */
  predicate ShowsNetTaxes(t: Totaux) {
    t.tps_percue.Some?
  }

  /** TPS nette: collected minus paid. */
  function NetTps(t: Totaux): (n: Num)
    ensures n.Finite? <==> t.tps_percue.Some? && t.tps_payee.Some?
    ensures n.Finite? ==> n.value == t.tps_percue.value - t.tps_payee.value
  {
    NumberOf(t.tps_percue).Minus(NumberOf(t.tps_payee))
  }

  /** TVQ nette: collected minus paid. */
  function NetTvq(t: Totaux): (n: Num)
    ensures n.Finite? <==> t.tvq_percue.Some? && t.tvq_payee.Some?
    ensures n.Finite? ==> n.value == t.tvq_percue.value - t.tvq_payee.value
  {
    NumberOf(t.tvq_percue).Minus(NumberOf(t.tvq_payee))
  }

  /** The figures of one stored fiscal period. */
  function PeriodTotaux(p: ImportExcel.NewPeriod): Totaux {
    Totaux(None, None, Some(p.tps_percue), Some(p.tps_payee), Some(p.tvq_percue), Some(p.tvq_payee))
  }

  /** A period the spreadsheet import stores records its TVQ column as both
      TVQ collected and TVQ paid, so its net TVQ is always 0, while its net
      TPS is column 3 minus the TPS/TVH column. */
  lemma ImportedPeriodNets(rt: JsRuntime, row: ImportExcel.Row)
    requires ImportExcel.TaxRow(rt, row).Some?
    ensures var t := PeriodTotaux(ImportExcel.TaxRow(rt, row).value);
            ShowsNetTaxes(t)
            && NetTvq(t) == Finite(0.0)
            && NetTps(t) == Finite(ImportExcel.ParseNum(rt, ImportExcel.At(row, 3))
                                   - ImportExcel.ParseNum(rt, ImportExcel.At(row, 1)))
  {
    ImportExcel.TaxRowOutcome(rt, row);
  }

  // ---------------------------------------------------------------------
  // Screen state

  class ReportForm {
    var reportType: ReportType
    var mois: string
    var trimestre: string
    var annee: string
    var projetId: string
    var compte: string
    var loading: bool
    /** The last report's totals, when it carried any. */
    var totaux: Option<Totaux>

    /** The initial state: a monthly report for the current month (the
        first seven characters of today's ISO date text), the first quarter,
        the current year. */
    constructor(todayIso: string, year: nat)
      ensures reportType == Mensuel && mois == Prefix(todayIso, 7) && trimestre == "Q1"
      ensures annee == DecimalString(year) && projetId == "" && compte == ""
      ensures !loading && totaux == None
    {
      reportType := Mensuel;
      mois := Prefix(todayIso, 7);
      trimestre := "Q1";
      annee := DecimalString(year);
      projetId, compte := "", "";
      loading := false;
      totaux := None;
    }

    /** The account select: "all" clears the account. */
    method SetCompte(v: string)
      modifies this
      ensures compte == AllMeansNone(v)
      ensures v == "all" ==> compte == ""
      ensures reportType == old(reportType) && mois == old(mois) && trimestre == old(trimestre)
      ensures annee == old(annee) && projetId == old(projetId)
      ensures loading == old(loading) && totaux == old(totaux)
    {
      compte := AllMeansNone(v);
    }

    method SetReportType(kind: ReportType)
      modifies this
      ensures reportType == kind
      ensures mois == old(mois) && trimestre == old(trimestre) && annee == old(annee)
      ensures projetId == old(projetId) && compte == old(compte)
      ensures loading == old(loading) && totaux == old(totaux)
    {
      reportType := kind;
    }

    /** `generate`, up to the request: the query it sends. */
    method BuildQuery() returns (params: Params)
      ensures params == ReportQuery(reportType, mois, trimestre, annee, projetId, compte)
    {
      params := [("type", reportType.Name())];
      if reportType == Mensuel {
        params := Set(params, "mois", mois);
        if compte != "" {
          params := Set(params, "compte", compte);
        }
      }
      if reportType == TrimestrielTaxes {
        params := Set(params, "trimestre", trimestre);
        params := Set(params, "annee", annee);
      }
      if reportType == ParProjet {
        params := Set(params, "projet_id", projetId);
      }
      if reportType == Annuel {
        params := Set(params, "annee", annee);
      }
    }

    /** `generate`: the query, then the answer (None when the request
        fails); loading is off again afterwards either way. */
    method Generate(answer: Option<Option<Totaux>>) returns (params: Params)
      modifies this
      ensures params == ReportQuery(reportType, mois, trimestre, annee, projetId, compte)
      ensures !loading
      ensures answer.Some? ==> totaux == answer.value
      ensures answer.None? ==> totaux == old(totaux)
      ensures reportType == old(reportType) && mois == old(mois) && trimestre == old(trimestre)
      ensures annee == old(annee) && projetId == old(projetId) && compte == old(compte)
    {
      loading := true;
      params := BuildQuery();
      if answer.Some? {
        totaux := answer.value;
      }
      loading := false;
    }
  }
}
