/**
 * The admin property list (app/admin/dashboard/imoveis/page.tsx): its
 * `filterItems`, its stats effect, the status-change payload and its delete
 * handlers.
 */
module ImoveisPage {
  import opened Wrappers
  import opened Seqs
  import opened FrontTypes
  import opened ListPage
  import Text
  import Stats
  import ImoveisClient

  /** The page's `tipoFilter`: it starts at 'TODOS' and no control of the page sets it. */
  const TIPO_FILTER := TODOS

  /** The fields the search looks in: nome, codigo, endereco and tipo. */
  function CamposDeBusca(i: ImovelView): seq<string>
  {
    [i.nome, i.codigo, i.endereco, i.tipo]
  }

  predicate MatchesSearch(i: ImovelView, search: string): (r: bool)
    ensures r <==> search == "" || exists f :: f in CamposDeBusca(i) && Inclui(f, search)
  {
    search == "" || Inclui(i.nome, search) || Inclui(i.codigo, search) || Inclui(i.endereco, search) || Inclui(i.tipo, search)
  }

  /** The search ignores case: a lowercased search finds the same properties. */
  lemma BuscaIgnoraCaixa(i: ImovelView, search: string)
    ensures MatchesSearch(i, Text.Lower(search)) == MatchesSearch(i, search)
  {
    IncluiIgnoraCaixa(i.nome, search);
    IncluiIgnoraCaixa(i.codigo, search);
    IncluiIgnoraCaixa(i.endereco, search);
    IncluiIgnoraCaixa(i.tipo, search);
  }

  function Corresponde(search: string, status: string, tipo: string): ImovelView -> bool
  {
    (i: ImovelView) => MatchesSearch(i, search) && StatusOk(i.status, status) && StatusOk(i.tipo, tipo)
  }

  /** `filterItems(items, search, status)`, given the value of `tipoFilter`. */
  function FilterItems(items: seq<ImovelView>, search: string, status: string, tipo: string): (r: seq<ImovelView>)
    ensures IsSubsequence(r, items)
    ensures forall i :: i in r <==> i in items && MatchesSearch(i, search) && StatusOk(i.status, status) && StatusOk(i.tipo, tipo)
  {
    FilterIsSubsequence(items, Corresponde(search, status, tipo));
    FilterMembership(items, Corresponde(search, status, tipo));
    Filter(items, Corresponde(search, status, tipo))
  }

  /** With the page's fixed `tipoFilter`, the tipo test never removes a property. */
  lemma TipoSempreNeutro(items: seq<ImovelView>, search: string, status: string)
    ensures FilterItems(items, search, status, TIPO_FILTER) ==
            Filter(items, (i: ImovelView) => MatchesSearch(i, search) && StatusOk(i.status, status))
  {
    FilterSame(items, Corresponde(search, status, TIPO_FILTER),
               (i: ImovelView) => MatchesSearch(i, search) && StatusOk(i.status, status));
  }

  /** A property is found by its own code. */
  lemma EncontradoPeloCodigo(items: seq<ImovelView>, k: nat)
    requires k < |items|
    ensures items[k] in FilterItems(items, items[k].codigo, TODOS, TIPO_FILTER)
  {
    IncluiASiMesmo(items[k].codigo);
  }

  function StatsDaPagina(imoveis: seq<ImovelView>, anteriores: Stats.ImovelStats): (r: Stats.ImovelStats)
    ensures imoveis == [] ==> r == anteriores
    ensures imoveis != [] ==> r == Stats.CalculateImovelStats(imoveis)
    ensures imoveis != [] ==> r.total == |imoveis| && r.alugados + r.disponiveis <= r.total
  {
    StatsAtualizadas(imoveis, anteriores, Stats.CalculateImovelStats)
  }

  /** `imoveis.find(i => i.codigo === codigo)`. */
  function Encontrar(imoveis: seq<ImovelView>, codigo: string): (r: Option<ImovelView>)
    ensures r.Some? <==> exists k :: 0 <= k < |imoveis| && imoveis[k].codigo == codigo
    ensures r.Some? ==> r.value in imoveis && r.value.codigo == codigo
    ensures r.Some? ==> exists k :: 0 <= k < |imoveis| && imoveis[k] == r.value && forall j :: 0 <= j < k ==> imoveis[j].codigo != codigo
  {
    if imoveis == [] then None
    else if imoveis[0].codigo == codigo then Some(imoveis[0])
    else
      var r := Encontrar(imoveis[1..], codigo);
      assert forall k :: 0 <= k < |imoveis| - 1 ==> imoveis[1..][k] == imoveis[k + 1];
      assert r.Some? ==> exists k :: 0 < k < |imoveis| && imoveis[k] == r.value && forall j :: 0 <= j < k ==> imoveis[j].codigo != codigo by {
        if r.Some? {
          var k :| 0 <= k < |imoveis| - 1 && imoveis[1..][k] == r.value && forall j :: 0 <= j < k ==> imoveis[1..][j].codigo != codigo;
          assert forall j :: 0 <= j < k + 1 ==> imoveis[j].codigo != codigo by {
            forall j | 0 < j < k + 1 ensures imoveis[j].codigo != codigo {
              assert imoveis[j] == imoveis[1..][j - 1];
            }
          }
        }
      }
      r
  }

  /** The body sent by `handleStatusChange`: the property with a new status, or only the status when it is not listed. */
  datatype Payload = ComRegistro(imovel: ImovelView) | SoStatus(status: string)

  /** `{ ...imoveis.find(i => i.codigo === codigo)!, status: novoStatus }`; spreading `undefined` adds nothing. */
  function PayloadDeStatus(imoveis: seq<ImovelView>, codigo: string, novoStatus: string): (r: Payload)
    ensures r.ComRegistro? <==> Encontrar(imoveis, codigo).Some?
    ensures r.ComRegistro? ==> r.imovel == Encontrar(imoveis, codigo).value.(status := novoStatus)
    ensures r.SoStatus? ==> r.status == novoStatus
  {
    var found := Encontrar(imoveis, codigo);
    if found.Some? then ComRegistro(found.value.(status := novoStatus)) else SoStatus(novoStatus)
  }

  /** The payload changes only the status of the listed property. */
  lemma PayloadSoMudaStatus(imoveis: seq<ImovelView>, codigo: string, novoStatus: string)
    requires Encontrar(imoveis, codigo).Some?
    ensures var p := PayloadDeStatus(imoveis, codigo, novoStatus).imovel;
            p.status == novoStatus && p.(status := Encontrar(imoveis, codigo).value.status) == Encontrar(imoveis, codigo).value
  {
  }

  /** `await atualizar(...)` as the handler sees it: a value, or a throw. */
  function DesfechoDe(chamada: Result<ImoveisClient.Json, ()>): Desfecho
  {
    if chamada.Err? then Falha else Sucesso
  }

  /**
   * `handleStatusChange(codigo, novoStatus)`, given the server's answer: the
   * body sent, and what follows the call.
   */
  function HandleStatusChange(imoveis: seq<ImovelView>, codigo: string, novoStatus: string, resp: ImoveisClient.Resposta): (r: (Payload, Reacao))
    ensures r.0 == PayloadDeStatus(imoveis, codigo, novoStatus)
    ensures r.1 == Recarregar || r.1 == Aviso("Erro ao atualizar status")
  {
    (PayloadDeStatus(imoveis, codigo, novoStatus),
     AoAlterarStatus(DesfechoDe(Ok(ImoveisClient.Buscar(resp))), "Erro ao atualizar status"))
  }

  /**
   * The effective `ImoveisService.atualizar` catches every failure and returns
   * the default record, so the handler's `catch` never runs: the table is
   * reloaded whatever the server answered. With the hidden `atualizar` a
   * failure would have shown the error toast instead.
   */
  lemma StatusChangeSempreRecarrega(imoveis: seq<ImovelView>, codigo: string, novoStatus: string, resp: ImoveisClient.Resposta)
    ensures HandleStatusChange(imoveis, codigo, novoStatus, resp).1 == Recarregar
    ensures resp.Falhou? ==>
              AoAlterarStatus(DesfechoDe(ImoveisClient.AtualizarOculto(resp)), "Erro ao atualizar status") == Aviso("Erro ao atualizar status")
  {
  }

  /** The page's delete modal. */
  class ImoveisPageState {
    var modal: ModalExclusao<string>

    constructor ()
      ensures fresh(modal) && modal.Atual() == Selecao(false, None)
    {
      modal := new ModalExclusao();
    }

    /** `handleDelete(codigo)`. */
    method HandleDelete(codigo: string)
      modifies modal
      ensures modal.Atual() == Selecao(true, Some(codigo))
    {
      modal.HandleDelete(codigo);
    }

    /** `confirmDelete`, with the outcome of `ImoveisService.excluir`, which does throw on failure. */
    method ConfirmDelete(desfecho: Desfecho) returns (c: Confirmacao<string>)
      modifies modal
      ensures (modal.Atual(), c) == Confirmada(old(modal.Atual()), CodigoFalsy, desfecho)
      ensures c.Exclusao? ==> modal.Atual() == Selecao(false, None)
    {
      c := modal.ConfirmDelete(CodigoFalsy, desfecho);
    }
  }
}
