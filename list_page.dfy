/**
 * What the four admin list pages (clientes, pagamentos, imoveis, contratos
 * under app/admin/dashboard/) share: the search test and the status test of
 * their `filterItems`, the stats effect, the status-change reaction, and the
 * delete modal's selection state.
 */
module ListPage {
  import opened Wrappers
  import opened Text
  import opened FrontTypes

  /** `campo.toLowerCase().includes(search.toLowerCase())`. */
  predicate Inclui(campo: string, search: string)
  {
    Contains(Lower(campo), Lower(search))
  }

  /** An optional field: `campo?.toLowerCase().includes(...)` is `undefined`, so false, when it is absent. */
  predicate IncluiOpcional(campo: Option<string>, search: string)
  {
    campo.Some? && Inclui(campo.value, search)
  }

  /** `status === "TODOS" || valor === status`. */
  predicate StatusOk(valor: string, filtro: string)
  {
    filtro == TODOS || valor == filtro
  }

  /** Any search matches itself: a record whose field equals the search is found. */
  lemma IncluiASiMesmo(campo: string)
    ensures Inclui(campo, campo)
  {
    ContainsAt(Lower(campo), Lower(campo), 0);
  }

  /** The search text is lowercased before the test, so its case never matters. */
  lemma IncluiIgnoraCaixa(campo: string, search: string)
    ensures Inclui(campo, Lower(search)) == Inclui(campo, search)
  {
    assert Lower(Lower(search)) == Lower(search);
  }

  /** The empty search is contained in every field. */
  lemma IncluiVazio(campo: string)
    ensures Inclui(campo, "")
  {
    ContainsEmpty(Lower(campo));
  }

  /** The stats effect: `if (items.length > 0) setStats(calcular(items))`. */
  function StatsAtualizadas<T, S>(items: seq<T>, anteriores: S, calcular: seq<T> -> S): (r: S)
    ensures items == [] ==> r == anteriores
    ensures items != [] ==> r == calcular(items)
  {
    if |items| > 0 then calcular(items) else anteriores
  }

  /** How a service call of a handler ended. */
  datatype Desfecho = Sucesso | Falha

  /** What a status-change handler does next: reload the table, or show an error toast. */
  datatype Reacao = Recarregar | Aviso(mensagem: string)

  /** `try { await alterar(...); refresh(); } catch { toast.error(mensagem); }`. */
  function AoAlterarStatus(desfecho: Desfecho, mensagem: string): (r: Reacao)
    ensures r == Recarregar <==> desfecho == Sucesso
    ensures r.Aviso? ==> r.mensagem == mensagem
  {
    if desfecho == Sucesso then Recarregar else Aviso(mensagem)
  }

  /** The modal flag and the selected row (a record, an id or a code). */
  datatype Selecao<S> = Selecao(aberto: bool, alvo: Option<S>)

  /** What `confirmDelete` did: returned at once, or called `excluir` and maybe `refresh`. */
  datatype Confirmacao<S> = SemAcao | Exclusao(alvo: S, recarregou: bool)

  /** `if (!selecionado) return;` — `falsy` says which selected values JavaScript treats as none. */
  predicate SemSelecao<S>(s: Selecao<S>, falsy: S -> bool)
  {
    s.alvo.None? || falsy(s.alvo.value)
  }

  /** `setSelecionado(alvo); setDeleteModalOpen(true)`. */
  function Selecionada<S>(s: Selecao<S>, alvo: S): (r: Selecao<S>)
    ensures r.aberto && r.alvo == Some(alvo)
  {
    Selecao(true, Some(alvo))
  }

  /**
   * `confirmDelete`: nothing without a selection; otherwise `excluir` on the
   * selection, `refresh` only on success, and in every case (`finally`) the
   * modal closed and the selection cleared.
   */
  function Confirmada<S>(s: Selecao<S>, falsy: S -> bool, desfecho: Desfecho): (r: (Selecao<S>, Confirmacao<S>))
    ensures SemSelecao(s, falsy) ==> r == (s, SemAcao)
    ensures !SemSelecao(s, falsy) ==> r.0 == Selecao(false, None) && r.1 == Exclusao(s.alvo.value, desfecho == Sucesso)
  {
    if SemSelecao(s, falsy) then (s, SemAcao)
    else (Selecao(false, None), Exclusao(s.alvo.value, desfecho == Sucesso))
  }

  /** After a confirmation that acted, the modal is closed with nothing selected, whatever the outcome. */
  lemma ConfirmarSempreFecha<S>(s: Selecao<S>, falsy: S -> bool, desfecho: Desfecho)
    requires Confirmada(s, falsy, desfecho).1.Exclusao?
    ensures !Confirmada(s, falsy, desfecho).0.aberto && Confirmada(s, falsy, desfecho).0.alvo.None?
  {
  }

  /** Selecting a row and confirming deletes exactly that row, when JavaScript sees it as a value. */
  lemma SelecionarEConfirmar<S>(s: Selecao<S>, alvo: S, falsy: S -> bool, desfecho: Desfecho)
    requires !falsy(alvo)
    ensures Confirmada(Selecionada(s, alvo), falsy, desfecho) == (Selecao(false, None), Exclusao(alvo, desfecho == Sucesso))
  {
  }

  /** A second confirmation does nothing. */
  lemma ConfirmarDuasVezes<S>(s: Selecao<S>, falsy: S -> bool, d1: Desfecho, d2: Desfecho)
    ensures Confirmada(Confirmada(s, falsy, d1).0, falsy, d2).1 == SemAcao
  {
  }

  /** An id selection: `!id` holds for `null` and for 0. */
  function IdFalsy(id: int): bool { id == 0 }

  /** A code selection: `!codigo` holds for `null` and for "". */
  function CodigoFalsy(codigo: string): bool { codigo == "" }

  /** The delete modal of a list page. */
  class ModalExclusao<S> {
    var deleteModalOpen: bool
    var selecionado: Option<S>

    function Atual(): Selecao<S>
      reads this
    {
      Selecao(deleteModalOpen, selecionado)
    }

    constructor ()
      ensures Atual() == Selecao(false, None)
    {
      deleteModalOpen := false;
      selecionado := None;
    }

    /** `handleDelete` of the pages that select without looking the row up. */
    method HandleDelete(alvo: S)
      modifies this
      ensures Atual() == Selecionada(old(Atual()), alvo)
    {
      selecionado := Some(alvo);
      deleteModalOpen := true;
    }

    /** `confirmDelete`, with the outcome of `excluir` as a parameter. */
    method ConfirmDelete(falsy: S -> bool, desfecho: Desfecho) returns (c: Confirmacao<S>)
      modifies this
      ensures (Atual(), c) == Confirmada(old(Atual()), falsy, desfecho)
    {
      if selecionado.None? || falsy(selecionado.value) {
        return SemAcao;
      }
      var alvo := selecionado.value;
      var recarregou := desfecho == Sucesso;
      deleteModalOpen := false;
      selecionado := None;
      c := Exclusao(alvo, recarregou);
    }
  }
}
