/**
 * `useDataTableState` (hooks/useDataTableState.ts): the state record behind
 * every admin list page, the load that fills it, the effect that re-filters it
 * and the setters.
 *
 * The hook's single `useState` record is the class below; each `setState`
 * call is one assignment to its fields. `loadItems` is split at its `await`:
 * `ComecarCarga` runs before the fetch and `ConcluirCarga` after it, with the
 * fetch's outcome as a parameter. The `filterItems` prop is a parameter of
 * the operations that call it, because a page passes a new closure on every
 * render. The filter effect is `AplicarFiltro`, which React runs after a render
 * in which `items`, `searchTerm` or `statusFilter` changed.
 */
module DataTableStateHook {
  import opened Wrappers

  const MSG_NENHUM_ITEM := "Nenhum item encontrado"
  const MSG_ERRO_CARREGAR := "Erro ao carregar os itens"

  datatype Estado<T> = Estado(
    items: seq<T>, filteredItems: seq<T>, loading: bool, error: Option<string>,
    searchTerm: string, statusFilter: string, currentPage: int, itemsPerPage: int)

  /** What `fetchItems()` gave: an array, some other value, or an exception. */
  datatype Busca<T> = Dados(data: seq<T>) | NaoArray | Falhou

  /** The optional `filterItems(items, searchTerm, statusFilter)` prop. */
  type Filtro<!T> = Option<(seq<T>, string, string) -> seq<T>>

  /** The initial record; `itemsPerPage` defaults to 10 when the prop is absent. */
  function Inicial<T>(itemsPerPage: Option<int>): (s: Estado<T>)
    ensures s.items == [] && s.filteredItems == [] && !s.loading && s.error == None
    ensures s.searchTerm == "" && s.statusFilter == "TODOS" && s.currentPage == 1
    ensures s.itemsPerPage == if itemsPerPage.Some? then itemsPerPage.value else 10
  {
    Estado([], [], false, None, "", "TODOS", 1, if itemsPerPage.Some? then itemsPerPage.value else 10)
  }

  /** `filterItems ? filterItems(items, search, status) : items`. */
  function Filtrar<T>(f: Filtro<T>, items: seq<T>, search: string, status: string): seq<T>
  {
    if f.Some? then f.value(items, search, status) else items
  }

  /** The first `setState` of `loadItems`. */
  function Comecada<T>(s: Estado<T>): (r: Estado<T>)
    ensures r.loading && r.error == None
    ensures r.(loading := s.loading, error := s.error) == s
  {
    s.(loading := true, error := None)
  }

  /** The `setState` calls after the fetch, `finally` included. */
  function Concluida<T>(s: Estado<T>, busca: Busca<T>, f: Filtro<T>): (r: Estado<T>)
    ensures !r.loading
    ensures busca.Dados? ==> r.items == busca.data && r.filteredItems == Filtrar(f, busca.data, s.searchTerm, s.statusFilter) && r.error == s.error
    ensures busca.NaoArray? ==> r.items == [] && r.filteredItems == [] && r.error == Some(MSG_NENHUM_ITEM)
    ensures busca.Falhou? ==> r.items == [] && r.filteredItems == [] && r.error == Some(MSG_ERRO_CARREGAR)
    ensures r.searchTerm == s.searchTerm && r.statusFilter == s.statusFilter
    ensures r.currentPage == s.currentPage && r.itemsPerPage == s.itemsPerPage
  {
    match busca
    case Dados(data) => s.(items := data, filteredItems := Filtrar(f, data, s.searchTerm, s.statusFilter), loading := false)
    case NaoArray => s.(error := Some(MSG_NENHUM_ITEM), items := [], filteredItems := [], loading := false)
    case Falhou => s.(error := Some(MSG_ERRO_CARREGAR), items := [], filteredItems := [], loading := false)
  }

  /** `loadItems` when nothing else updates the record during the fetch. */
  function Carregada<T>(s: Estado<T>, busca: Busca<T>, f: Filtro<T>): Estado<T>
  {
    Concluida(Comecada(s), busca, f)
  }

  /** The filter effect. */
  function Filtrada<T>(s: Estado<T>, f: Filtro<T>): (r: Estado<T>)
    ensures f.Some? && s.items != [] ==>
              r == s.(filteredItems := f.value(s.items, s.searchTerm, s.statusFilter), currentPage := 1)
    ensures f.None? || s.items == [] ==> r == s
  {
    if f.Some? && |s.items| > 0 then
      s.(filteredItems := f.value(s.items, s.searchTerm, s.statusFilter), currentPage := 1)
    else s
  }

  /** A load always ends with `loading` false; its error is null exactly when an array arrived. */
  lemma CargaTermina<T>(s: Estado<T>, busca: Busca<T>, f: Filtro<T>)
    ensures !Carregada(s, busca, f).loading
    ensures Carregada(s, busca, f).error == None <==> busca.Dados?
    ensures !busca.Dados? ==> Carregada(s, busca, f).items == [] && Carregada(s, busca, f).filteredItems == []
  {
  }

  /** Loading the same outcome again (`refresh`) gives the same record. */
  lemma RecargaIdempotente<T>(s: Estado<T>, busca: Busca<T>, f: Filtro<T>)
    ensures Carregada(Carregada(s, busca, f), busca, f) == Carregada(s, busca, f)
  {
  }

  /** The filtered list matches the filter of the current items, search and status. */
  ghost predicate Coerente<T>(s: Estado<T>, f: Filtro<T>)
  {
    s.filteredItems == Filtrar(f, s.items, s.searchTerm, s.statusFilter)
  }

  /** A filter that, like every page's, finds nothing in an empty list. */
  ghost predicate VazioSemResultados<T>(f: Filtro<T>)
  {
    f.Some? ==> forall search, status :: f.value([], search, status) == []
  }

  /** A load followed by its effect leaves the record coherent with the filter it was given. */
  lemma CargaCoerente<T>(s: Estado<T>, busca: Busca<T>, f: Filtro<T>)
    requires VazioSemResultados(f)
    ensures Coerente(Filtrada(Carregada(s, busca, f), f), f)
    ensures busca.Dados? && busca.data != [] && f.Some? ==> Filtrada(Carregada(s, busca, f), f).currentPage == 1
  {
  }

  /**
   * Changing the search or the status, followed by the effect, keeps a coherent
   * record coherent, and sends a non-empty list back to page 1.
   */
  lemma FiltroMantemCoerencia<T>(s: Estado<T>, f: Filtro<T>, search: string, status: string)
    requires Coerente(s, f) && VazioSemResultados(f)
    ensures Coerente(Filtrada(s.(searchTerm := search), f), f)
    ensures Coerente(Filtrada(s.(statusFilter := status), f), f)
    ensures f.Some? && s.items != [] ==> Filtrada(s.(searchTerm := search), f).currentPage == 1
  {
  }

  /** Without a filter the shown list is the whole list. */
  lemma SemFiltroMostraTudo<T>(s: Estado<T>, busca: Busca<T>)
    ensures Carregada(s, busca, None).filteredItems == Carregada(s, busca, None).items
  {
  }

  class DataTableState<T> {
    var items: seq<T>
    var filteredItems: seq<T>
    var loading: bool
    var error: Option<string>
    var searchTerm: string
    var statusFilter: string
    var currentPage: int
    var itemsPerPage: int

    function Atual(): Estado<T>
      reads this
    {
      Estado(items, filteredItems, loading, error, searchTerm, statusFilter, currentPage, itemsPerPage)
    }

    /** The hook's first render. */
    constructor (itemsPerPageProp: Option<int>)
      ensures Atual() == Inicial(itemsPerPageProp)
    {
      items := [];
      filteredItems := [];
      loading := false;
      error := None;
      searchTerm := "";
      statusFilter := "TODOS";
      currentPage := 1;
      itemsPerPage := if itemsPerPageProp.Some? then itemsPerPageProp.value else 10;
    }

    /** `loadItems` up to its `await`. */
    method ComecarCarga()
      modifies this
      ensures Atual() == Comecada(old(Atual()))
    {
      loading := true;
      error := None;
    }

    /** `loadItems` after its `await`: the branch for the fetch's outcome, then `finally`. */
    method ConcluirCarga(busca: Busca<T>, filterItems: Filtro<T>)
      modifies this
      ensures Atual() == Concluida(old(Atual()), busca, filterItems)
    {
      match busca {
        case Dados(data) =>
          items := data;
          filteredItems := if filterItems.Some? then filterItems.value(data, searchTerm, statusFilter) else data;
        case NaoArray =>
          error := Some(MSG_NENHUM_ITEM);
          items := [];
          filteredItems := [];
        case Falhou =>
          error := Some(MSG_ERRO_CARREGAR);
          items := [];
          filteredItems := [];
      }
      loading := false;
    }

    /** `loadItems`, and `refresh`, which only calls it. */
    method LoadItems(busca: Busca<T>, filterItems: Filtro<T>)
      modifies this
      ensures Atual() == Carregada(old(Atual()), busca, filterItems)
    {
      ComecarCarga();
      ConcluirCarga(busca, filterItems);
    }

    method Refresh(busca: Busca<T>, filterItems: Filtro<T>)
      modifies this
      ensures Atual() == Carregada(old(Atual()), busca, filterItems)
    {
      LoadItems(busca, filterItems);
    }

    /** The effect on `[items, searchTerm, statusFilter]`. */
    method AplicarFiltro(filterItems: Filtro<T>)
      modifies this
      ensures Atual() == Filtrada(old(Atual()), filterItems)
    {
      if filterItems.Some? && |items| > 0 {
        var filtered := filterItems.value(items, searchTerm, statusFilter);
        filteredItems := filtered;
        currentPage := 1;
      }
    }

    method SetSearchTerm(term: string)
      modifies this
      ensures Atual() == old(Atual()).(searchTerm := term)
    {
      searchTerm := term;
    }

    method SetStatusFilter(status: string)
      modifies this
      ensures Atual() == old(Atual()).(statusFilter := status)
    {
      statusFilter := status;
    }

    method SetCurrentPage(page: int)
      modifies this
      ensures Atual() == old(Atual()).(currentPage := page)
    {
      currentPage := page;
    }
  }
}
