/** The project list: each project's revenue, expenses, margin and margin
    percentage as its card shows them, and the request
    for its transactions when it is opened. */
module ProjetList {
  import opened Common
  import opened Text
  import opened Types
  import opened QueryParams
  import Dashboard

  /** `Number(p.revenus || 0)`: a missing figure counts as 0. */
  function Rev(p: Projet): real {
    p.revenus.GetOr(0.0)
  }

  /** `Number(p.depenses || 0)` */
  function Dep(p: Projet): real {
    p.depenses.GetOr(0.0)
  }

  /** `rev - dep` */
  function Marge(p: Projet): (m: real)
    ensures m + Dep(p) == Rev(p)
  {
    Rev(p) - Dep(p)
  }

  /** `rev > 0 ? (marge / rev) * 100 : 0` */
  function Pct(p: Projet): real {
    if Rev(p) > 0.0 then Marge(p) / Rev(p) * 100.0 else 0.0
  }

  /** The percentage is 0 without positive revenue; otherwise it is at
      most 100 when the expenses are not negative, and negative exactly when
      the project loses money. */
  lemma {:induction false} PctLaws(p: Projet)
    ensures Rev(p) <= 0.0 ==> Pct(p) == 0.0
    ensures Rev(p) > 0.0 && Dep(p) >= 0.0 ==> Pct(p) <= 100.0
    ensures Rev(p) > 0.0 ==> (Pct(p) < 0.0 <==> Dep(p) > Rev(p))
    ensures Rev(p) > 0.0 && Dep(p) == 0.0 ==> Pct(p) == 100.0
  {
    if Rev(p) > 0.0 {
      Dashboard.MarginShare(Rev(p), Dep(p));
    }
  }

  /** The two screens agree on a project that carries both figures; when one
      is missing the dashboard's margin is NaN while the list shows a
      number, computed with 0 in its place. */
  lemma {:induction false} ScreensAgree(p: Projet)
    ensures p.revenus.Some? && p.depenses.Some? ==>
              Dashboard.Marge(p) == Finite(Marge(p)) && Dashboard.PctMarge(p) == Finite(Pct(p))
    ensures !(p.revenus.Some? && p.depenses.Some?) ==> Dashboard.Marge(p).NaN?
  {
  }

  // ---------------------------------------------------------------------
  // Opening a project

  /** The query of `/api/transactions?projet=${p.id}&limit=200`. */
  function ProjetTxQuery(id: int): Params {
    [("projet", IntString(id)), ("limit", "200")]
  }

  /** The request names the project and asks for up to 200 transactions,
      and nothing else. */
  lemma ProjetTxQueryReads(id: int, n: string)
    ensures Get(ProjetTxQuery(id), n) ==
      if n == "projet" then Some(IntString(id)) else if n == "limit" then Some("200") else None
  {
    var q := ProjetTxQuery(id);
    assert q[1..] == [("limit", "200")];
    assert q[1..][1..] == [];
  }

  class ProjetView {
    var selected: Option<Projet>
    var loadingTx: bool
    var projetTx: seq<Transaction>

    constructor()
      ensures selected == None && !loadingTx && projetTx == []
    {
      selected, loadingTx, projetTx := None, false, [];
    }

    /** `openProjet(p)`: the project is selected, its transactions are
        requested and, when the request succeeds (`rows` is Some), shown;
        loading is off again afterwards either way. */
    method OpenProjet(p: Projet, rows: Option<seq<Transaction>>) returns (query: Params)
      modifies this
      ensures query == ProjetTxQuery(p.id)
      ensures selected == Some(p) && !loadingTx
      ensures rows.Some? ==> projetTx == rows.value
      ensures rows.None? ==> projetTx == old(projetTx)
    {
      selected := Some(p);
      loadingTx := true;
      query := ProjetTxQuery(p.id);
      if rows.Some? {
        projetTx := rows.value;
      }
      loadingTx := false;
    }
  }
}
