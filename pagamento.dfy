/**
 * The `Pagamento` entity and its `@PrePersist`/`@PreUpdate` hook
 * (`atualizarStatus`), which recomputes the status from the due date every
 * time a payment is written.
 *
 * The hook reads `LocalDate.now()`; the model passes that day as `hoje`.
 */
module PagamentoModel {
  import opened Wrappers
  import opened Dates
  import opened Entities
  import opened Database

  /** The row as the hook leaves it. */
  function AposHook(p: Pagamento, hoje: LocalDate): (q: Pagamento)
    ensures q == p.(status := q.status)
  {
    if p.status == PAGO || p.status == CANCELADO then p
    else if p.dataPagamento.Some? && Before(p.dataPagamento.value, hoje) then p.(status := ATRASADO)
    else p.(status := PENDENTE)
  }

  /** A PAGO or CANCELADO payment is never touched. */
  lemma HookPreservaFinais(p: Pagamento, hoje: LocalDate)
    requires p.status == PAGO || p.status == CANCELADO
    ensures AposHook(p, hoje) == p
  {
  }

  /** Any other payment is ATRASADO exactly when it has a due date strictly before today. */
  lemma HookPorData(p: Pagamento, hoje: LocalDate)
    requires p.status != PAGO && p.status != CANCELADO
    ensures AposHook(p, hoje).status == ATRASADO
            <==> p.dataPagamento.Some? && Before(p.dataPagamento.value, hoje)
    ensures AposHook(p, hoje).status == PENDENTE
            <==> p.dataPagamento.None? || !Before(p.dataPagamento.value, hoje)
  {
  }

  /** After the hook the status is one of the four the application knows. */
  lemma HookDominio(p: Pagamento, hoje: LocalDate)
    ensures AposHook(p, hoje).status in {PAGO, CANCELADO, ATRASADO, PENDENTE}
  {
  }

  /** Running the hook again on the same day changes nothing. */
  lemma HookIdempotente(p: Pagamento, hoje: LocalDate)
    ensures AposHook(AposHook(p, hoje), hoje) == AposHook(p, hoje)
  {
  }

  /** A payment due today and marked ATRASADO is put back to PENDENTE when saved. */
  lemma HookDesfazAtrasoDoDia(p: Pagamento, hoje: LocalDate)
    requires p.status == ATRASADO && p.dataPagamento == Some(hoje)
    ensures AposHook(p, hoje).status == PENDENTE
  {
  }

  /** An ATRASADO payment whose due date was moved to today or later becomes PENDENTE again. */
  lemma HookReabreAtrasado(p: Pagamento, hoje: LocalDate, novaData: LocalDate)
    requires p.status == ATRASADO && !Before(novaData, hoje)
    ensures AposHook(p.(dataPagamento := Some(novaData)), hoje).status == PENDENTE
  {
  }

  /** A loaded `Pagamento` object, whose setters and hook change its fields in place. */
  class PagamentoEntity {
    var id: Option<int>
    var dataPagamento: Option<LocalDate>
    var valor: int
    var status: string
    var formaPagamento: Option<string>
    var observacoes: Option<string>
    var aluguelId: Option<int>

    function Row(): Pagamento
      reads this
    {
      Pagamento(id, dataPagamento, valor, status, formaPagamento, observacoes, aluguelId)
    }

    constructor FromRow(p: Pagamento)
      ensures Row() == p
    {
      id, dataPagamento, valor, status := p.id, p.dataPagamento, p.valor, p.status;
      formaPagamento, observacoes, aluguelId := p.formaPagamento, p.observacoes, p.aluguelId;
    }

    /** `atualizarStatus`, the lifecycle hook. */
    method AtualizarStatus(hoje: LocalDate)
      modifies this`status
      ensures Row() == AposHook(old(Row()), hoje)
      ensures old(status) == PAGO || old(status) == CANCELADO ==> status == old(status)
      ensures old(status) != PAGO && old(status) != CANCELADO ==>
                status == (if dataPagamento.Some? && Before(dataPagamento.value, hoje) then ATRASADO else PENDENTE)
    {
      if status == PAGO || status == CANCELADO {
        return;
      }
      if dataPagamento.Some? && Before(dataPagamento.value, hoje) {
        status := ATRASADO;
      } else {
        status := PENDENTE;
      }
    }

    method SetStatus(s: string)
      modifies this`status
      ensures Row() == old(Row()).(status := s)
    {
      status := s;
    }

    method SetDataPagamento(d: Option<LocalDate>)
      modifies this`dataPagamento
      ensures Row() == old(Row()).(dataPagamento := d)
    {
      dataPagamento := d;
    }

    method SetAluguel(aluguelId': int)
      modifies this`aluguelId
      ensures Row() == old(Row()).(aluguelId := Some(aluguelId'))
    {
      aluguelId := Some(aluguelId');
    }
  }

  /**
   * `pagamentoRepository.save` of a payment that is already stored: the
   * `@PreUpdate` hook runs on the object, and the row is overwritten.
   */
  method SalvarExistente(db: Db, e: PagamentoEntity, hoje: LocalDate)
    requires db.Valid()
    requires e.id.Some? && e.id.value in db.pagamentos
    modifies db`pagamentos, e`status
    ensures db.Valid()
    ensures e.Row() == AposHook(old(e.Row()), hoje)
    ensures db.pagamentos == old(db.pagamentos)[e.id.value := AposHook(old(e.Row()), hoje)]
  {
    e.AtualizarStatus(hoje);
    db.pagamentos := db.pagamentos[e.id.value := e.Row()];
  }

  /**
   * `pagamentoRepository.save` of a new payment: the database assigns the id,
   * the `@PrePersist` hook runs, and the row is inserted.
   */
  method Persistir(db: Db, e: PagamentoEntity, hoje: LocalDate)
    requires db.Valid()
    modifies db`pagamentos, db`nextId, e`id, e`status
    ensures db.Valid()
    ensures db.nextId == old(db.nextId) + 1
    ensures e.Row() == AposHook(old(e.Row()).(id := Some(old(db.nextId))), hoje)
    ensures db.pagamentos == old(db.pagamentos)[old(db.nextId) := e.Row()]
  {
    e.id := Some(db.nextId);
    db.nextId := db.nextId + 1;
    e.AtualizarStatus(hoje);
    db.pagamentos := db.pagamentos[e.id.value := e.Row()];
  }
}
