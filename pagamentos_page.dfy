/**
 * The admin payment list (app/admin/dashboard/pagamentos/page.tsx): its
 * `filterItems`, which reads the page's own payment-method filter, its
 * status-change reaction and its delete handlers. `calculatePagamentoStats`
 * is not part of this model.
 *
 * The search test ends with `pagamento.formaPagamento.toLowerCase()`, with no
 * `?.`: when it is reached for a payment whose `formaPagamento` is null, it
 * throws a `TypeError`, and so does the whole `filter` call. The functions
 * below return `None` for that throw.
 */
module PagamentosPage {
  import opened Wrappers
  import opened Seqs
  import opened FrontTypes
  import opened ListPage
  import DataTableStateHook

  /** `matchesSearch`, evaluated left to right: `None` when it throws. */
  function MatchesSearch(p: PagamentoView, search: string): (r: Option<bool>)
    ensures r.None? <==>
              search != "" && !AntesDaForma(p, search) && p.formaPagamento.None?
    ensures r.Some? ==> (r.value <==> search == "" || AntesDaForma(p, search) || Inclui(p.formaPagamento.value, search))
  {
    if search == "" || AntesDaForma(p, search) then Some(true)
    else if p.formaPagamento.None? then None
    else Some(Inclui(p.formaPagamento.value, search))
  }

  /** The four optional-chained tests before `formaPagamento`. */
  predicate AntesDaForma(p: PagamentoView, search: string)
  {
    (p.cliente.Some? && (Inclui(p.cliente.value.nome, search) || Inclui(p.cliente.value.cpf, search)))
    || (p.imovel.Some? && (Inclui(p.imovel.value.nome, search) || Inclui(p.imovel.value.codigo, search)))
  }

  /** `matchesFormaPagamento`: a null method never equals the filter. */
  predicate MatchesForma(p: PagamentoView, forma: string)
  {
    forma == TODOS || p.formaPagamento == Some(forma)
  }

  /** The callback of `items.filter`. */
  function Corresponde(p: PagamentoView, search: string, status: string, forma: string): Option<bool>
  {
    var m := MatchesSearch(p, search);
    if m.None? then None else Some(m.value && StatusOk(p.status, status) && MatchesForma(p, forma))
  }

  predicate Lanca(p: PagamentoView, search: string)
  {
    MatchesSearch(p, search).None?
  }

  /** `filterItems(items, search, status)` with the page's current `formaPagamentoFilter`. */
  function FilterItems(items: seq<PagamentoView>, search: string, status: string, forma: string): (r: Option<seq<PagamentoView>>)
    ensures r.None? <==> exists i :: 0 <= i < |items| && Lanca(items[i], search)
    ensures r.Some? ==> IsSubsequence(r.value, items)
    ensures r.Some? ==> forall p :: p in r.value <==>
              p in items && MatchesSearch(p, search) == Some(true) && StatusOk(p.status, status) && MatchesForma(p, forma)
  {
    if items == [] then Some([])
    else
      var c := Corresponde(items[0], search, status, forma);
      var resto := FilterItems(items[1..], search, status, forma);
      assert forall i :: 1 <= i < |items| ==> items[i] == items[1..][i - 1];
      if c.None? then None
      else if resto.None? then None
      else
        assert forall p :: p in items <==> p == items[0] || p in items[1..];
        if c.value then Some([items[0]] + resto.value) else Some(resto.value)
  }

  /** With an empty search nothing throws; 'TODOS' on both filters keeps every payment. */
  lemma {:induction false} SemCriterioMantemTodos(items: seq<PagamentoView>)
    ensures FilterItems(items, "", TODOS, TODOS) == Some(items)
  {
    if items != [] {
      SemCriterioMantemTodos(items[1..]);
      assert items == [items[0]] + items[1..];
    }
  }

  /** A search that only a null `formaPagamento` is left to test makes the filter throw. */
  lemma FormaNulaLanca()
    ensures var p := PagamentoView(Some(1), Some(2), 50000, "2025-03-10", PENDENTE, None, None, None);
            FilterItems([p], "pix", TODOS, TODOS).None?
  {
    var p := PagamentoView(Some(1), Some(2), 50000, "2025-03-10", PENDENTE, None, None, None);
    assert Lanca([p][0], "pix");
  }

  /** `handleStatusChange`: reload on success, the toast otherwise. */
  function HandleStatusChange(desfecho: Desfecho): (r: Reacao)
    ensures r == Recarregar <==> desfecho == Sucesso
    ensures r != Recarregar ==> r == Aviso("Erro ao alterar status do pagamento")
  {
    AoAlterarStatus(desfecho, "Erro ao alterar status do pagamento")
  }

  /** The page: the table hook's record and the page's own method filter. */
  class PagamentosPageState {
    var tabela: DataTableStateHook.DataTableState<PagamentoView>
    var formaPagamentoFilter: string
    var modal: ModalExclusao<int>

    constructor ()
      ensures formaPagamentoFilter == TODOS && fresh(tabela) && fresh(modal)
      ensures tabela.Atual() == DataTableStateHook.Inicial(None) && modal.Atual() == Selecao(false, None)
    {
      tabela := new DataTableStateHook.DataTableState(None);
      formaPagamentoFilter := TODOS;
      modal := new ModalExclusao();
    }

    /**
     * `setFormaPagamentoFilter`: the hook's effect depends only on items,
     * search and status, so the shown list is not filtered again.
     */
    method SetFormaPagamentoFilter(forma: string)
      modifies this`formaPagamentoFilter
      ensures formaPagamentoFilter == forma
      ensures tabela.Atual() == old(tabela.Atual())
    {
      formaPagamentoFilter := forma;
    }

    /** `handleDelete(id)`: the id is selected without checking the list. */
    method HandleDelete(id: int)
      modifies modal
      ensures modal.Atual() == Selecao(true, Some(id))
    {
      modal.HandleDelete(id);
    }

    /** `confirmDelete`: `!pagamentoToDelete` also holds for id 0, which is then never deleted. */
    method ConfirmDelete(desfecho: Desfecho) returns (c: Confirmacao<int>)
      modifies modal
      ensures (modal.Atual(), c) == Confirmada(old(modal.Atual()), IdFalsy, desfecho)
    {
      c := modal.ConfirmDelete(IdFalsy, desfecho);
    }
  }

  /**
   * After the method filter changes from 'TODOS' to 'BOLETO', a PIX payment is
   * still shown although the filter, run now, would drop it.
   */
  lemma FiltroDeFormaDefasado()
    ensures var p := PagamentoView(Some(1), Some(2), 50000, "2025-03-10", PAGO, Some("PIX"), None, None);
            FilterItems([p], "", TODOS, TODOS) == Some([p]) && FilterItems([p], "", TODOS, "BOLETO") == Some([])
  {
    var p := PagamentoView(Some(1), Some(2), 50000, "2025-03-10", PAGO, Some("PIX"), None, None);
    SemCriterioMantemTodos([p]);
    assert [p][1..] == [];
    assert "PIX" != "BOLETO";
  }

  /** Selecting id 0 opens the modal, but confirming it deletes nothing. */
  lemma IdZeroNaoExclui(s: Selecao<int>, desfecho: Desfecho)
    ensures Confirmada(Selecionada(s, 0), IdFalsy, desfecho) == (Selecao(true, Some(0)), SemAcao)
  {
  }
}
