/**
 * `PagamentoScheduler`: the nightly job (and its manual trigger) that marks
 * overdue payments.
 *
 * The query selects PENDENTE payments due on or before today; each one is set
 * to ATRASADO and saved. Saving runs the entity's `@PreUpdate` hook, which
 * recomputes the status with a strict "before today" test, so a payment due
 * exactly today ends the run as PENDENTE. The lemmas below make that
 * interaction explicit.
 */
module PagamentoScheduler {
  import opened Wrappers
  import opened Dates
  import opened Entities
  import opened Database
  import opened PagamentoModel
  import opened Seqs

  /** `findByStatusAndDataPagamentoLessThanEqual("PENDENTE", hoje)`; a null date never matches. */
  predicate Vencido(p: Pagamento, hoje: LocalDate)
  {
    p.status == PENDENTE && p.dataPagamento.Some? && NotAfter(p.dataPagamento.value, hoje)
  }

  /** The table after one run: every selected row is set ATRASADO and then saved through the hook. */
  function AposExecucao(ps: map<int, Pagamento>, hoje: LocalDate): (r: map<int, Pagamento>)
    ensures r.Keys == ps.Keys
  {
    map id | id in ps :: if Vencido(ps[id], hoje) then AposHook(ps[id].(status := ATRASADO), hoje) else ps[id]
  }

  /** The table once the rows in `feitos` have been set ATRASADO and saved. */
  function Parcial(ps: map<int, Pagamento>, feitos: set<int>, hoje: LocalDate): (r: map<int, Pagamento>)
    ensures r.Keys == ps.Keys
  {
    map id | id in ps :: if id in feitos then AposHook(ps[id].(status := ATRASADO), hoje) else ps[id]
  }

  lemma ParcialPasso(ps: map<int, Pagamento>, feitos: set<int>, id: int, hoje: LocalDate)
    requires id in ps
    ensures Parcial(ps, feitos + {id}, hoje) == Parcial(ps, feitos, hoje)[id := AposHook(ps[id].(status := ATRASADO), hoje)]
  {
    var a := Parcial(ps, feitos + {id}, hoje);
    var b := Parcial(ps, feitos, hoje)[id := AposHook(ps[id].(status := ATRASADO), hoje)];
    assert a.Keys == b.Keys;
    assert forall k :: k in a ==> a[k] == b[k];
  }

  lemma ParcialCompleto(ps: map<int, Pagamento>, hoje: LocalDate)
    ensures Parcial(ps, (set id | id in ps && Vencido(ps[id], hoje)), hoje) == AposExecucao(ps, hoje)
  {
    var a := Parcial(ps, (set id | id in ps && Vencido(ps[id], hoje)), hoje);
    var b := AposExecucao(ps, hoje);
    assert a.Keys == b.Keys;
    assert forall k :: k in a ==> a[k] == b[k];
  }

  lemma ParcialVazio(ps: map<int, Pagamento>, hoje: LocalDate)
    ensures Parcial(ps, {}, hoje) == ps
  {
    var a := Parcial(ps, {}, hoje);
    assert a.Keys == ps.Keys;
    assert forall k :: k in a ==> a[k] == ps[k];
  }

  /** `atualizarStatusPagamentos`. */
  method AtualizarStatusPagamentos(db: Db, hoje: LocalDate)
    requires db.Valid()
    modifies db`pagamentos
    ensures db.Valid()
    ensures db.pagamentos == AposExecucao(old(db.pagamentos), hoje)
  {
    ghost var inicial := db.pagamentos;
    var vencidos := set id | id in db.pagamentos && Vencido(db.pagamentos[id], hoje);
    var restantes := vencidos;
    ParcialVazio(inicial, hoje);
    assert vencidos <= inicial.Keys;
    while restantes != {}
      invariant db.Valid()
      invariant restantes <= vencidos <= inicial.Keys
      invariant db.pagamentos == Parcial(inicial, vencidos - restantes, hoje)
      decreases restantes
    {
      var id := Pick(restantes);
      assert id in inicial && id in db.pagamentos;
      MarcarAtrasado(db, id, hoje);
      ParcialPasso(inicial, vencidos - restantes, id, hoje);
      assert (vencidos - restantes) + {id} == vencidos - (restantes - {id});
      restantes := restantes - {id};
    }
    ParcialCompleto(inicial, hoje);
    assert vencidos - restantes == vencidos;
  }

  /** The loop body: `setStatus("ATRASADO")` on the stored payment, then `save`. */
  method MarcarAtrasado(db: Db, id: int, hoje: LocalDate)
    requires db.Valid() && id in db.pagamentos
    modifies db`pagamentos
    ensures db.Valid()
    ensures db.pagamentos == old(db.pagamentos)[id := AposHook(old(db.pagamentos)[id].(status := ATRASADO), hoje)]
  {
    var e := new PagamentoEntity.FromRow(db.pagamentos[id]);
    e.SetStatus(ATRASADO);
    SalvarExistente(db, e, hoje);
  }

  /** `atualizarStatusPagamentosManualmente`: the same run, started on demand. */
  method AtualizarStatusPagamentosManualmente(db: Db, hoje: LocalDate)
    requires db.Valid()
    modifies db`pagamentos
    ensures db.Valid()
    ensures db.pagamentos == AposExecucao(old(db.pagamentos), hoje)
  {
    AtualizarStatusPagamentos(db, hoje);
  }

  /** A PENDENTE payment due strictly before today is ATRASADO after the run. */
  lemma VencidoAntesDeHojeFicaAtrasado(ps: map<int, Pagamento>, hoje: LocalDate, id: int)
    requires id in ps && ps[id].status == PENDENTE
    requires ps[id].dataPagamento.Some? && Before(ps[id].dataPagamento.value, hoje)
    ensures AposExecucao(ps, hoje)[id].status == ATRASADO
  {
  }

  /**
   * A PENDENTE payment due exactly today is selected by the query but the save
   * hook restores PENDENTE: the run leaves it as it was.
   */
  lemma VencidoHojeContinuaPendente(ps: map<int, Pagamento>, hoje: LocalDate, id: int)
    requires id in ps && ps[id].status == PENDENTE && ps[id].dataPagamento == Some(hoje)
    ensures Vencido(ps[id], hoje)
    ensures AposExecucao(ps, hoje)[id] == ps[id]
  {
  }

  /** Rows that are not PENDENTE, or are due after today or never, are untouched. */
  lemma NaoSelecionadoIntocado(ps: map<int, Pagamento>, hoje: LocalDate, id: int)
    requires id in ps
    requires ps[id].status != PENDENTE || ps[id].dataPagamento.None? || After(ps[id].dataPagamento.value, hoje)
    ensures AposExecucao(ps, hoje)[id] == ps[id]
  {
  }

  /** Only `status` is written. */
  lemma SoStatusMuda(ps: map<int, Pagamento>, hoje: LocalDate, id: int)
    requires id in ps
    ensures AposExecucao(ps, hoje)[id] == ps[id].(status := AposExecucao(ps, hoje)[id].status)
  {
  }

  /**
   * The net effect of a run: exactly the PENDENTE rows due strictly before
   * today change, and they become ATRASADO.
   */
  lemma {:induction false} EfeitoLiquido(ps: map<int, Pagamento>, hoje: LocalDate)
    ensures forall id :: id in ps ==>
      AposExecucao(ps, hoje)[id] ==
        if ps[id].status == PENDENTE && ps[id].dataPagamento.Some? && Before(ps[id].dataPagamento.value, hoje)
        then ps[id].(status := ATRASADO) else ps[id]
  {
    forall id | id in ps
      ensures AposExecucao(ps, hoje)[id] ==
        if ps[id].status == PENDENTE && ps[id].dataPagamento.Some? && Before(ps[id].dataPagamento.value, hoje)
        then ps[id].(status := ATRASADO) else ps[id]
    {
      var p := ps[id];
      if Vencido(p, hoje) && !Before(p.dataPagamento.value, hoje) {
        BeforeTrichotomy(p.dataPagamento.value, hoje);
        assert p.dataPagamento.value == hoje;
      }
    }
  }

  /** Running twice on the same day has the effect of running once. */
  lemma {:induction false} Idempotente(ps: map<int, Pagamento>, hoje: LocalDate)
    ensures AposExecucao(AposExecucao(ps, hoje), hoje) == AposExecucao(ps, hoje)
  {
    var uma := AposExecucao(ps, hoje);
    EfeitoLiquido(ps, hoje);
    EfeitoLiquido(uma, hoje);
    assert forall id :: id in uma ==> AposExecucao(uma, hoje)[id] == uma[id];
  }

  /**
   * The query's own comment promises that payments due today are included;
   * the table below shows one that the run leaves PENDENTE.
   */
  lemma PagamentoDoDiaNaoFicaAtrasado()
    ensures var hoje: LocalDate := Date(2025, 3, 10);
            var p := Pagamento(Some(1), Some(hoje), 150000, PENDENTE, None, None, Some(7));
            Vencido(p, hoje) && AposExecucao(map[1 := p], hoje)[1].status == PENDENTE
  {
    var hoje: LocalDate := Date(2025, 3, 10);
    var p := Pagamento(Some(1), Some(hoje), 150000, PENDENTE, None, None, Some(7));
    VencidoHojeContinuaPendente(map[1 := p], hoje, 1);
  }
}
