/**
 * The admin lease list (app/admin/dashboard/contratos/page.tsx): its
 * `filterItems`, its stats effect, its status-change reaction and its delete
 * handlers. `calculateContratoStats` is not part of this model; the stats
 * effect takes it as a parameter.
 */
module ContratosPage {
  import opened Wrappers
  import opened Seqs
  import opened FrontTypes
  import opened ListPage
  import Text

  /** The fields the search looks in: the client's nome and cpf and the property's nome and codigo, when present. */
  function CamposDeBusca(c: ContratoView): seq<string>
  {
    (if c.cliente.Some? then [c.cliente.value.nome, c.cliente.value.cpf] else [])
    + (if c.imovel.Some? then [c.imovel.value.nome, c.imovel.value.codigo] else [])
  }

  /** `matchesSearch`: client and property are optional, so an absent one matches nothing. */
  predicate MatchesSearch(c: ContratoView, search: string): (r: bool)
    ensures r <==> search == "" || exists f :: f in CamposDeBusca(c) && Inclui(f, search)
  {
    search == ""
    || (c.cliente.Some? && (Inclui(c.cliente.value.nome, search) || Inclui(c.cliente.value.cpf, search)))
    || (c.imovel.Some? && (Inclui(c.imovel.value.nome, search) || Inclui(c.imovel.value.codigo, search)))
  }

  /** The search ignores case: a lowercased search finds the same leases. */
  lemma BuscaIgnoraCaixa(c: ContratoView, search: string)
    ensures MatchesSearch(c, Text.Lower(search)) == MatchesSearch(c, search)
  {
    if c.cliente.Some? {
      IncluiIgnoraCaixa(c.cliente.value.nome, search);
      IncluiIgnoraCaixa(c.cliente.value.cpf, search);
    }
    if c.imovel.Some? {
      IncluiIgnoraCaixa(c.imovel.value.nome, search);
      IncluiIgnoraCaixa(c.imovel.value.codigo, search);
    }
  }

  function Corresponde(search: string, status: string): ContratoView -> bool
  {
    (c: ContratoView) => MatchesSearch(c, search) && StatusOk(c.status, status)
  }

  function FilterItems(items: seq<ContratoView>, search: string, status: string): (r: seq<ContratoView>)
    ensures IsSubsequence(r, items)
    ensures forall c :: c in r <==> c in items && MatchesSearch(c, search) && StatusOk(c.status, status)
  {
    FilterIsSubsequence(items, Corresponde(search, status));
    FilterMembership(items, Corresponde(search, status));
    Filter(items, Corresponde(search, status))
  }

  /** A lease without client or property summary is found only by the empty search. */
  lemma SemResumoSoComBuscaVazia(c: ContratoView, search: string)
    requires c.cliente.None? && c.imovel.None?
    ensures MatchesSearch(c, search) <==> search == ""
  {
  }

  /** An empty search with status 'TODOS' keeps every lease. */
  lemma SemCriterioMantemTodos(items: seq<ContratoView>)
    ensures FilterItems(items, "", TODOS) == items
  {
    FilterAll(items, Corresponde("", TODOS));
  }

  /** `handleStatusChange`: reload on success, the toast otherwise. */
  function HandleStatusChange(desfecho: Desfecho): (r: Reacao)
    ensures r == Recarregar <==> desfecho == Sucesso
    ensures r != Recarregar ==> r == Aviso("Erro ao alterar status do contrato")
  {
    AoAlterarStatus(desfecho, "Erro ao alterar status do contrato")
  }

  class ContratosPageState {
    var modal: ModalExclusao<int>

    constructor ()
      ensures fresh(modal) && modal.Atual() == Selecao(false, None)
    {
      modal := new ModalExclusao();
    }

    method HandleDelete(id: int)
      modifies modal
      ensures modal.Atual() == Selecao(true, Some(id))
    {
      modal.HandleDelete(id);
    }

    method ConfirmDelete(desfecho: Desfecho) returns (c: Confirmacao<int>)
      modifies modal
      ensures (modal.Atual(), c) == Confirmada(old(modal.Atual()), IdFalsy, desfecho)
    {
      c := modal.ConfirmDelete(IdFalsy, desfecho);
    }
  }
}
