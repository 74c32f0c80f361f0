/** The transaction list screen: the search and filter values, the current
    page, the query each fetch sends, and the page count with the buttons
    that move between pages. */
module TransactionList {
  import opened Common
  import opened Text
  import opened QueryParams

  const PageSize: nat := 25

  /** `Math.ceil(total / PAGE_SIZE)` */
  function TotalPages(total: nat): (pages: nat)
    ensures PageSize * pages >= total
    ensures pages > 0 ==> PageSize * (pages - 1) < total
    ensures pages == 0 <==> total == 0
  {
    (total + PageSize - 1) / PageSize
  }

  /** The paging controls are shown only when there is more than one page. */
  predicate ShowsPagination(total: nat) {
    TotalPages(total) > 1
  }

  /** The controls appear exactly when the transactions do not fit on one
      page. */
  lemma PaginationShown(total: nat)
    ensures ShowsPagination(total) <==> total > PageSize
  {
    var pages := TotalPages(total);
    if pages > 1 {
      assert PageSize * (pages - 1) >= PageSize;
    }
  }

  /** The list query for a page and a set of filters: `limit` and `offset`
      always, then `q`, `projet`, `categorie`, `compte`, `from` and `to` for
      the filters that are not empty. */
  function ListQuery(page: nat, search: string, projet: string, categorie: string, compte: string,
                     from: string, to: string): Params
  {
    var window := Set(Set([], "limit", DecimalString(PageSize)), "offset", DecimalString(page * PageSize));
    SetIf(SetIf(SetIf(SetIf(SetIf(SetIf(window, "q", search), "projet", projet), "categorie", categorie),
      "compte", compte), "from", from), "to", to)
  }

  /** The page window alone: `limit` and `offset`, nothing else. */
  lemma WindowReads(page: nat, n: string)
    ensures Get(Set(Set([], "limit", DecimalString(PageSize)), "offset", DecimalString(page * PageSize)), n) ==
      if n == "limit" then Some("25") else if n == "offset" then Some(DecimalString(page * PageSize)) else None
  {
    assert DecimalString(PageSize) == "25" by {
      DecimalStringValue(PageSize);
    }
    var p: Params := [("limit", DecimalString(PageSize)), ("offset", DecimalString(page * PageSize))];
    assert Set(Set([], "limit", DecimalString(PageSize)), "offset", DecimalString(page * PageSize)) == p;
    assert p[1..] == [("offset", DecimalString(page * PageSize))];
    assert p[1..][1..] == [];
  }

  /** What the server reads from the list query: the window of the page, each
      filter that is set under its own name, and nothing under any other name. */
  lemma {:induction false} ListQueryReads(page: nat, search: string, projet: string, categorie: string, compte: string,
                                          from: string, to: string, n: string)
    ensures Get(ListQuery(page, search, projet, categorie, compte, from, to), n) ==
      if n == "limit" then Some("25")
      else if n == "offset" then Some(DecimalString(page * PageSize))
      else if n == "q" && search != "" then Some(search)
      else if n == "projet" && projet != "" then Some(projet)
      else if n == "categorie" && categorie != "" then Some(categorie)
      else if n == "compte" && compte != "" then Some(compte)
      else if n == "from" && from != "" then Some(from)
      else if n == "to" && to != "" then Some(to)
      else None
  {
    var p0 := Set(Set([], "limit", DecimalString(PageSize)), "offset", DecimalString(page * PageSize));
    WindowReads(page, n);
    var p1 := SetIf(p0, "q", search);
    var p2 := SetIf(p1, "projet", projet);
    var p3 := SetIf(p2, "categorie", categorie);
    var p4 := SetIf(p3, "compte", compte);
    var p5 := SetIf(p4, "from", from);
    GetSetIf(p0, "q", search, n);
    GetSetIf(p1, "projet", projet, n);
    GetSetIf(p2, "categorie", categorie, n);
    GetSetIf(p3, "compte", compte, n);
    GetSetIf(p4, "from", from, n);
    GetSetIf(p5, "to", to, n);
  }

  class ListState {
    var search: string
    var filterProjet: string
    var filterCategorie: string
    var filterCompte: string
    var dateFrom: string
    var dateTo: string
    var page: nat
    /** The number of matching transactions the last fetch reported. */
    var total: nat

    constructor()
      ensures search == "" && filterProjet == "" && filterCategorie == "" && filterCompte == ""
      ensures dateFrom == "" && dateTo == "" && page == 0 && total == 0
    {
      search, filterProjet, filterCategorie, filterCompte := "", "", "", "";
      dateFrom, dateTo := "", "";
      page, total := 0, 0;
    }

    /** The page lies among the pages there are (page 0 when there are none). */
    predicate PageInRange()
      reads this
    {
      page == 0 || page < TotalPages(total)
    }

    /** `fetchData`'s query: the page window, then each filter that is set,
        under its own name, in that order. */
    method BuildParams() returns (params: Params)
      ensures params == ListQuery(page, search, filterProjet, filterCategorie, filterCompte, dateFrom, dateTo)
    {
      params := [];
      params := Set(params, "limit", DecimalString(PageSize));
      params := Set(params, "offset", DecimalString(page * PageSize));
      if search != "" {
        params := Set(params, "q", search);
      }
      if filterProjet != "" {
        params := Set(params, "projet", filterProjet);
      }
      if filterCategorie != "" {
        params := Set(params, "categorie", filterCategorie);
      }
      if filterCompte != "" {
        params := Set(params, "compte", filterCompte);
      }
      if dateFrom != "" {
        params := Set(params, "from", dateFrom);
      }
      if dateTo != "" {
        params := Set(params, "to", dateTo);
      }
    }

    /** A fetch's answer: the new total. */
    method Loaded(newTotal: nat)
      modifies this
      ensures total == newTotal && page == old(page)
      ensures search == old(search) && filterProjet == old(filterProjet) && filterCategorie == old(filterCategorie)
      ensures filterCompte == old(filterCompte) && dateFrom == old(dateFrom) && dateTo == old(dateTo)
    {
      total := newTotal;
    }

    /** Typing in the search box: new text, back to the first page. */
    method SetSearch(v: string)
      modifies this
      ensures search == v && page == 0 && PageInRange()
      ensures filterProjet == old(filterProjet) && filterCategorie == old(filterCategorie) && filterCompte == old(filterCompte)
      ensures dateFrom == old(dateFrom) && dateTo == old(dateTo) && total == old(total)
    {
      search := v;
      page := 0;
    }

    /** Choosing a project ("all" clears it): back to the first page. */
    method SetFilterProjet(v: string)
      modifies this
      ensures filterProjet == AllMeansNone(v) && page == 0 && PageInRange()
      ensures search == old(search) && filterCategorie == old(filterCategorie) && filterCompte == old(filterCompte)
      ensures dateFrom == old(dateFrom) && dateTo == old(dateTo) && total == old(total)
    {
      filterProjet := AllMeansNone(v);
      page := 0;
    }

    /** Choosing a category ("all" clears it): back to the first page. */
    method SetFilterCategorie(v: string)
      modifies this
      ensures filterCategorie == AllMeansNone(v) && page == 0 && PageInRange()
      ensures search == old(search) && filterProjet == old(filterProjet) && filterCompte == old(filterCompte)
      ensures dateFrom == old(dateFrom) && dateTo == old(dateTo) && total == old(total)
    {
      filterCategorie := AllMeansNone(v);
      page := 0;
    }

    method SetDateFrom(v: string)
      modifies this
      ensures dateFrom == v && page == 0 && PageInRange()
      ensures search == old(search) && filterProjet == old(filterProjet) && filterCategorie == old(filterCategorie)
      ensures filterCompte == old(filterCompte) && dateTo == old(dateTo) && total == old(total)
    {
      dateFrom := v;
      page := 0;
    }

    method SetDateTo(v: string)
      modifies this
      ensures dateTo == v && page == 0 && PageInRange()
      ensures search == old(search) && filterProjet == old(filterProjet) && filterCategorie == old(filterCategorie)
      ensures filterCompte == old(filterCompte) && dateFrom == old(dateFrom) && total == old(total)
    {
      dateTo := v;
      page := 0;
    }

    /** The previous-page button, disabled on the first page. */
    method Prev()
      modifies this
      ensures page == if old(page) == 0 then old(page) else old(page) - 1
      ensures old(PageInRange()) ==> PageInRange()
      ensures total == old(total) && search == old(search) && filterProjet == old(filterProjet)
      ensures filterCategorie == old(filterCategorie) && filterCompte == old(filterCompte)
      ensures dateFrom == old(dateFrom) && dateTo == old(dateTo)
    {
      if page != 0 {
        page := page - 1;
      }
    }

    /** The next-page button, disabled from the last page on. */
    method Next()
      modifies this
      ensures page == if old(page) >= TotalPages(total) - 1 then old(page) else old(page) + 1
      ensures old(PageInRange()) ==> PageInRange()
      ensures page == 0 || page < TotalPages(total) || page == old(page)
      ensures total == old(total) && search == old(search) && filterProjet == old(filterProjet)
      ensures filterCategorie == old(filterCategorie) && filterCompte == old(filterCompte)
      ensures dateFrom == old(dateFrom) && dateTo == old(dateTo)
    {
      if page < TotalPages(total) - 1 {
        page := page + 1;
      }
    }
  }

  /** The window of a page in range starts before the total: the offset
      never skips past every match. */
  lemma {:induction false} OffsetWithinTotal(page: nat, total: nat)
    requires page < TotalPages(total)
    ensures page * PageSize < total
  {
    var pages := TotalPages(total);
    assert page <= pages - 1;
    assert page * PageSize <= (pages - 1) * PageSize;
  }
}
