/**
 * The admin client list (app/admin/dashboard/clientes/page.tsx): its
 * `filterItems`, its stats effect and its delete handlers.
 */
module ClientesPage {
  import opened Wrappers
  import opened Seqs
  import opened FrontTypes
  import opened ListPage
  import Text
  import Stats

  /** The fields the search looks in: nome, cpf, telefone and, when present, email. */
  function CamposDeBusca(c: ClienteView): seq<string>
  {
    [c.nome, c.cpf, c.telefone] + if c.email.Some? then [c.email.value] else []
  }

  /** `matchesSearch`: an empty search, or the search inside nome, cpf, telefone or the optional email. */
  predicate MatchesSearch(c: ClienteView, search: string): (r: bool)
    ensures r <==> search == "" || exists f :: f in CamposDeBusca(c) && Inclui(f, search)
  {
    search == "" || Inclui(c.nome, search) || Inclui(c.cpf, search) || Inclui(c.telefone, search)
    || IncluiOpcional(c.email, search)
  }

  /** The search ignores case: a lowercased search finds the same clients. */
  lemma BuscaIgnoraCaixa(c: ClienteView, search: string)
    ensures MatchesSearch(c, Text.Lower(search)) == MatchesSearch(c, search)
  {
    IncluiIgnoraCaixa(c.nome, search);
    IncluiIgnoraCaixa(c.cpf, search);
    IncluiIgnoraCaixa(c.telefone, search);
    if c.email.Some? {
      IncluiIgnoraCaixa(c.email.value, search);
    }
  }

  function Corresponde(search: string, status: string): ClienteView -> bool
  {
    (c: ClienteView) => MatchesSearch(c, search) && StatusOk(c.status, status)
  }

  /** `filterItems(items, search, status)`. */
  function FilterItems(items: seq<ClienteView>, search: string, status: string): (r: seq<ClienteView>)
    ensures IsSubsequence(r, items)
    ensures forall c :: c in r <==> c in items && MatchesSearch(c, search) && StatusOk(c.status, status)
  {
    FilterIsSubsequence(items, Corresponde(search, status));
    FilterMembership(items, Corresponde(search, status));
    Filter(items, Corresponde(search, status))
  }

  /** An empty search with status 'TODOS' keeps every client. */
  lemma SemCriterioMantemTodos(items: seq<ClienteView>)
    ensures FilterItems(items, "", TODOS) == items
  {
    FilterAll(items, Corresponde("", TODOS));
  }

  /** A client is found by its own cpf, whatever the status filter lets through. */
  lemma EncontradoPeloCpf(items: seq<ClienteView>, i: nat)
    requires i < |items|
    ensures items[i] in FilterItems(items, items[i].cpf, TODOS)
  {
    IncluiASiMesmo(items[i].cpf);
  }

  /** The filter finds nothing in an empty list, as the table hook expects. */
  lemma FiltroDeVazio(search: string, status: string)
    ensures FilterItems([], search, status) == []
  {
  }

  /** The stats effect of this page. */
  function StatsDaPagina(clientes: seq<ClienteView>, anteriores: Stats.ClienteStats): (r: Stats.ClienteStats)
    ensures clientes == [] ==> r == anteriores
    ensures clientes != [] ==> r == Stats.CalculateClienteStats(clientes)
    ensures clientes != [] ==> r.total == |clientes| && r.ativos + r.inativos + r.bloqueados <= r.total
  {
    StatsAtualizadas(clientes, anteriores, Stats.CalculateClienteStats)
  }

  /** `clientes.find(c => c.id === id)`. */
  function Encontrar(clientes: seq<ClienteView>, id: int): (r: Option<ClienteView>)
    ensures r.Some? <==> exists i :: 0 <= i < |clientes| && clientes[i].id == Some(id)
    ensures r.Some? ==> r.value in clientes && r.value.id == Some(id)
  {
    if clientes == [] then None
    else if clientes[0].id == Some(id) then Some(clientes[0])
    else
      var r := Encontrar(clientes[1..], id);
      assert forall i :: 0 <= i < |clientes| - 1 ==> clientes[1..][i] == clientes[i + 1];
      assert r.Some? ==> clientes[1..][0] in clientes;
      r
  }

  /** `find` returns the first client with the id. */
  lemma {:induction false} EncontrarPrimeiro(clientes: seq<ClienteView>, id: int, i: nat)
    requires i < |clientes| && clientes[i].id == Some(id)
    requires forall j :: 0 <= j < i ==> clientes[j].id != Some(id)
    ensures Encontrar(clientes, id) == Some(clientes[i])
  {
    if i > 0 {
      EncontrarPrimeiro(clientes[1..], id, i - 1);
    }
  }

  /** A selected client is a record, so JavaScript never treats it as none. */
  function ClienteFalsy(c: ClienteView): bool { false }

  /** `handleDelete(id)`: the modal opens only for an id some listed client has. */
  method HandleDelete(modal: ModalExclusao<ClienteView>, clientes: seq<ClienteView>, id: int)
    modifies modal
    ensures Encontrar(clientes, id).None? ==> modal.Atual() == old(modal.Atual())
    ensures Encontrar(clientes, id).Some? ==> modal.Atual() == Selecao(true, Encontrar(clientes, id))
  {
    var cliente := Encontrar(clientes, id);
    if cliente.Some? {
      modal.HandleDelete(cliente.value);
    }
  }

  /** `confirmDelete`: `excluir(clienteSelecionado.id!)` is called with the selected client's id. */
  method ConfirmDelete(modal: ModalExclusao<ClienteView>, desfecho: Desfecho) returns (excluido: Option<Option<int>>, recarregou: bool)
    modifies modal
    ensures old(modal.selecionado).None? ==> excluido.None? && !recarregou && modal.Atual() == old(modal.Atual())
    ensures old(modal.selecionado).Some? ==>
              excluido == Some(old(modal.selecionado).value.id) && recarregou == (desfecho == Sucesso) &&
              modal.Atual() == Selecao(false, None)
  {
    var c := modal.ConfirmDelete(ClienteFalsy, desfecho);
    if c.Exclusao? {
      excluido := Some(c.alvo.id);
      recarregou := c.recarregou;
    } else {
      excluido := None;
      recarregou := false;
    }
  }
}
